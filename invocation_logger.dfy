/** The invocation history: one row per tool invocation, appended by the
    controller, read back newest first, summarised into counts, and mined for
    call sequences that recur. The SQLite table is a sequence of rows in
    insertion order; each query is written as the function it computes. */
module InvocationLogging {
  import opened Wrappers
  import opened Models
  import opened Platform
  import opened Aggregates

  /** A logged invocation. The timestamp is an instant in UTC ticks: the
      same value whether the `DateTime` holding it is in UTC or local time. */
  datatype InvocationLog = InvocationLog(
    id: int,
    timestamp: nat,
    serverName: string,
    toolName: string,
    parameters: Option<string>,
    success: bool,
    durationMs: int,
    responseSummary: Option<string>,
    error: Option<string>)

  /** A stored row: columns as the table keeps them, `success` as 1 or 0 and
      the nullable columns as NULL (`None`). */
  datatype Row = Row(
    id: nat,
    timestamp: nat,
    serverName: string,
    toolName: string,
    parameters: Option<string>,
    success: int,
    durationMs: int,
    responseSummary: Option<string>,
    error: Option<string>)

  /** The INSERT: every column from the log; the row id is the table's. */
  function ToRow(log: InvocationLog, id: nat): (r: Row)
    ensures r.success == 1 <==> log.success
    ensures r.success == 0 <==> !log.success
  {
    Row(id, log.timestamp, log.serverName, log.toolName, log.parameters,
        if log.success then 1 else 0, log.durationMs, log.responseSummary, log.error)
  }

  /** The reader: a row back into a log, success being "the column is 1". */
  function FromRow(row: Row): InvocationLog {
    InvocationLog(row.id, row.timestamp, row.serverName, row.toolName, row.parameters,
                  row.success == 1, row.durationMs, row.responseSummary, row.error)
  }

  /** What is written is what is read: a stored log comes back with the id
      the table gave it, the same timestamp instant, and every other field,
      nullable or not, unchanged. */
  lemma StoredLogReadsBack(log: InvocationLog, id: nat)
    ensures FromRow(ToRow(log, id)) == log.(id := id)
  {
  }

  function RowTime(row: Row): int {
    row.timestamp
  }

  /** `ORDER BY timestamp DESC LIMIT limit`. */
  function Newest(rows: seq<Row>, limit: int): seq<Row> {
    Limit(SortDesc(rows, RowTime), limit)
  }

  /** What `GetLogsAsync(limit)` returns for the stored rows. */
  function LogsView(rows: seq<Row>, limit: int): seq<InvocationLog> {
    var newest := Newest(rows, limit);
    seq(|newest|, i requires 0 <= i < |newest| => FromRow(newest[i]))
  }

  /** At most `limit` entries (all of them for a negative limit), newest
      first. */
  lemma LogsAreNewestFirst(rows: seq<Row>, limit: int)
    ensures var v := LogsView(rows, limit);
            && |v| == (if limit < 0 || |rows| <= limit then |rows| else limit)
            && (forall i, j :: 0 <= i < j < |v| ==> v[i].timestamp >= v[j].timestamp)
  {
    var sorted := SortDesc(rows, RowTime);
    var newest := Newest(rows, limit);
    assert forall i :: 0 <= i < |newest| ==> newest[i] == sorted[i];
    assert forall i, j :: 0 <= i < j < |newest| ==> RowTime(newest[i]) >= RowTime(newest[j]);
  }

  /** Every entry is a stored row, and no stored row newer than the oldest
      entry returned is left out. */
  lemma LogsAreStoredRows(rows: seq<Row>, limit: int)
    ensures var v := LogsView(rows, limit);
            && (forall i :: 0 <= i < |v| ==> exists k :: 0 <= k < |rows| && v[i] == FromRow(rows[k]))
            && (forall k :: 0 <= k < |rows| && |v| > 0 && rows[k].timestamp > v[|v| - 1].timestamp ==> FromRow(rows[k]) in v)
  {
    var sorted := SortDesc(rows, RowTime);
    var newest := Newest(rows, limit);
    var v := LogsView(rows, limit);
    forall i | 0 <= i < |v| ensures exists k :: 0 <= k < |rows| && v[i] == FromRow(rows[k]) {
      assert newest[i] == sorted[i];
      assert sorted[i] in multiset(rows);
    }
    forall k | 0 <= k < |rows| && |v| > 0 && rows[k].timestamp > v[|v| - 1].timestamp
      ensures FromRow(rows[k]) in v
    {
      NewerRowIsReturned(rows, limit, k);
    }
  }

  lemma NewerRowIsReturned(rows: seq<Row>, limit: int, k: nat)
    requires k < |rows| && |LogsView(rows, limit)| > 0
    requires rows[k].timestamp > LogsView(rows, limit)[|LogsView(rows, limit)| - 1].timestamp
    ensures FromRow(rows[k]) in LogsView(rows, limit)
  {
    var sorted := SortDesc(rows, RowTime);
    var newest := Newest(rows, limit);
    var v := LogsView(rows, limit);
    assert rows[k] in multiset(sorted);
    var m :| 0 <= m < |sorted| && sorted[m] == rows[k];
    assert newest[|v| - 1] == sorted[|v| - 1];
    assert m >= |v| ==> RowTime(sorted[|v| - 1]) >= RowTime(sorted[m]);
    assert m < |v|;
    assert v[m] == FromRow(newest[m]);
  }

  /** An invocation logged after every stored one is the first entry read
      back, as it was logged apart from its new row id; its timestamp is the
      same instant. */
  lemma LatestLogReadsBackFirst(rows: seq<Row>, log: InvocationLog)
    requires forall k :: 0 <= k < |rows| ==> rows[k].timestamp < log.timestamp
    ensures LogsView(rows + [ToRow(log, |rows| + 1)], 1) == [log.(id := |rows| + 1)]
  {
    var row := ToRow(log, |rows| + 1);
    var all := rows + [row];
    assert forall k :: 0 <= k < |all| - 1 ==> all[k] == rows[k];
    NewestSortsFirst(all);
    assert SortDesc(all, RowTime)[0] == row;
    assert Newest(all, 1) == [row];
  }

  /** A last row newer than every other one comes first in the ordering. */
  lemma NewestSortsFirst(all: seq<Row>)
    requires |all| > 0
    requires forall k :: 0 <= k < |all| - 1 ==> all[k].timestamp < all[|all| - 1].timestamp
    ensures SortDesc(all, RowTime)[0] == all[|all| - 1]
  {
    var sorted := SortDesc(all, RowTime);
    assert forall j :: 0 < j < |sorted| ==> RowTime(sorted[0]) >= RowTime(sorted[j]);
    LatestIsFirst(all, sorted);
  }

  /** In a reordering whose first row is newest, a row newer than all the
      others is that first row. */
  lemma LatestIsFirst(all: seq<Row>, sorted: seq<Row>)
    requires |all| > 0 && multiset(sorted) == multiset(all)
    requires forall j :: 0 < j < |sorted| ==> sorted[0].timestamp >= sorted[j].timestamp
    requires forall k :: 0 <= k < |all| - 1 ==> all[k].timestamp < all[|all| - 1].timestamp
    ensures |sorted| > 0 && sorted[0] == all[|all| - 1]
  {
    var last := all[|all| - 1];
    assert last in multiset(sorted);
    var m :| 0 <= m < |sorted| && sorted[m] == last;
    assert sorted[0] in multiset(all);
    var k :| 0 <= k < |all| && all[k] == sorted[0];
    assert sorted[0].timestamp >= last.timestamp;
    assert k == |all| - 1;
  }

  // ---------------------------------------------------------------------------
  // Statistics (the integer parts)
  // ---------------------------------------------------------------------------

  datatype ToolStats = ToolStats(serverName: string, toolName: string, count: int, successCount: int)

  datatype ServerStats = ServerStats(serverName: string, count: int, successCount: int)

  datatype InvocationStats = InvocationStats(
    totalInvocations: int,
    successCount: int,
    failureCount: int,
    byTool: seq<ToolStats>,
    byServer: seq<ServerStats>)

  /** `SUM(CASE WHEN success = 1 THEN 1 ELSE 0 END)`: NULL over no rows. */
  function SuccessSum(rows: seq<Row>): (r: Option<nat>)
    ensures r.None? <==> rows == []
    ensures r.Some? ==> r.value <= |rows|
  {
    if rows == [] then None
    else
      var rest := SuccessSum(rows[1..]).GetOr(0);
      Some(rest + if rows[0].success == 1 then 1 else 0)
  }

  /** One observation per row, keyed by (server, tool) or by server. */
  function ToolObservations(rows: seq<Row>): seq<Observation<(string, string)>> {
    seq(|rows|, i requires 0 <= i < |rows| => Observation((rows[i].serverName, rows[i].toolName), rows[i].success == 1))
  }

  function ServerObservations(rows: seq<Row>): seq<Observation<string>> {
    seq(|rows|, i requires 0 <= i < |rows| => Observation(rows[i].serverName, rows[i].success == 1))
  }

  /** `GROUP BY server_name, tool_name ORDER BY count DESC`. */
  function ToolGroups(rows: seq<Row>): seq<Entry<(string, string)>> {
    SortDesc(TallyAll(ToolObservations(rows)), EntryTotal)
  }

  /** `GROUP BY server_name ORDER BY count DESC`. */
  function ServerGroups(rows: seq<Row>): seq<Entry<string>> {
    SortDesc(TallyAll(ServerObservations(rows)), EntryTotal)
  }

  function ToToolStats(e: Entry<(string, string)>): ToolStats {
    ToolStats(e.key.0, e.key.1, e.total, e.success)
  }

  function ToServerStats(e: Entry<string>): ServerStats {
    ServerStats(e.key, e.total, e.success)
  }

  /** What `GetStatsAsync` returns for the stored rows. */
  function StatsOf(rows: seq<Row>): InvocationStats {
    var success := SuccessSum(rows).GetOr(0);
    var tools := ToolGroups(rows);
    var servers := ServerGroups(rows);
    InvocationStats(|rows|, success, |rows| - success, ToolLines(tools), ServerLines(servers))
  }

  /** One stats line per tool group, in group order. */
  function ToolLines(tools: seq<Entry<(string, string)>>): seq<ToolStats> {
    seq(|tools|, i requires 0 <= i < |tools| => ToToolStats(tools[i]))
  }

  /** One stats line per server group, in group order. */
  function ServerLines(servers: seq<Entry<string>>): seq<ServerStats> {
    seq(|servers|, i requires 0 <= i < |servers| => ToServerStats(servers[i]))
  }

  function ToolCountTotal(s: seq<ToolStats>): int {
    if s == [] then 0 else s[0].count + ToolCountTotal(s[1..])
  }

  function ServerCountTotal(s: seq<ServerStats>): int {
    if s == [] then 0 else s[0].count + ServerCountTotal(s[1..])
  }

  /** The rows recorded as successful, by position. */
  function SuccessfulRows(rows: seq<Row>): set<nat> {
    set k: nat | k < |rows| && rows[k].success == 1
  }

  /** The sum counts the successful rows. */
  lemma {:induction false} SuccessSumCounts(rows: seq<Row>)
    ensures SuccessSum(rows).GetOr(0) == |SuccessfulRows(rows)|
  {
    if rows != [] {
      var front, last := rows[..|rows| - 1], rows[|rows| - 1];
      assert rows == front + [last];
      SuccessSumCounts(front);
      SuccessSumSnoc(front, last);
      SuccessfulRowsSnoc(front, last);
    }
  }

  /** Adding a row to the end adds its position when it succeeded. */
  lemma SuccessfulRowsSnoc(front: seq<Row>, last: Row)
    ensures |SuccessfulRows(front + [last])| == |SuccessfulRows(front)| + if last.success == 1 then 1 else 0
  {
    var mark: set<nat> := if last.success == 1 then {|front|} else {};
    assert SuccessfulRows(front + [last]) == SuccessfulRows(front) + mark;
    assert SuccessfulRows(front) !! mark;
  }

  /** Adding a row to the end adds its success to the sum. */
  lemma {:induction false} SuccessSumSnoc(front: seq<Row>, last: Row)
    ensures SuccessSum(front + [last]).GetOr(0) == SuccessSum(front).GetOr(0) + if last.success == 1 then 1 else 0
  {
    if front != [] {
      assert (front + [last])[1..] == front[1..] + [last];
      SuccessSumSnoc(front[1..], last);
    }
  }

  /** The overall counts: every row is an invocation, the successes are the
      rows recorded as successful, and the failures are the rest. */
  lemma OverallStatsAgree(rows: seq<Row>)
    ensures var s := StatsOf(rows);
            && s.totalInvocations == |rows|
            && s.successCount == |SuccessfulRows(rows)|
            && 0 <= s.successCount <= s.totalInvocations
            && s.failureCount == s.totalInvocations - s.successCount
  {
    SuccessSumCounts(rows);
  }

  /** There is exactly one per-tool line for each (server, tool) pair in the
      rows: no pair has two lines and every pair has one. Each line counts
      exactly the rows for its pair, at least one, with no more successes than
      invocations; the lines come largest count first and add up to the
      total. */
  lemma ToolStatsCountRows(rows: seq<Row>)
    ensures var s := StatsOf(rows).byTool;
            && (forall i :: 0 <= i < |s| ==>
                  && s[i].count == Occurrences(ToolObservations(rows), (s[i].serverName, s[i].toolName))
                  && s[i].successCount == Successes(ToolObservations(rows), (s[i].serverName, s[i].toolName))
                  && 0 < s[i].count && 0 <= s[i].successCount <= s[i].count)
            && (forall i, j :: 0 <= i < j < |s| ==> s[i].count >= s[j].count)
            && (forall i, j :: 0 <= i < j < |s| ==> (s[i].serverName, s[i].toolName) != (s[j].serverName, s[j].toolName))
            && (forall r :: r in rows ==> exists i :: 0 <= i < |s| && s[i].serverName == r.serverName && s[i].toolName == r.toolName)
            && ToolCountTotal(s) == |rows|
  {
    ToolLinesCount(rows);
    ToolLinesOnePerGroup(rows);
  }

  lemma ToolLinesCount(rows: seq<Row>)
    ensures var s := StatsOf(rows).byTool;
            && (forall i :: 0 <= i < |s| ==>
                  && s[i].count == Occurrences(ToolObservations(rows), (s[i].serverName, s[i].toolName))
                  && s[i].successCount == Successes(ToolObservations(rows), (s[i].serverName, s[i].toolName))
                  && 0 < s[i].count && 0 <= s[i].successCount <= s[i].count)
            && (forall i, j :: 0 <= i < j < |s| ==> s[i].count >= s[j].count)
            && ToolCountTotal(s) == |rows|
  {
    var obs := ToolObservations(rows);
    var g := ToolGroups(rows);
    assert StatsOf(rows).byTool == ToolLines(g);
    forall i | 0 <= i < |g|
      ensures g[i].key == (ToolLines(g)[i].serverName, ToolLines(g)[i].toolName)
      ensures g[i].total == Occurrences(obs, g[i].key) && g[i].success == Successes(obs, g[i].key)
      ensures 0 < g[i].total && g[i].success <= g[i].total
    {
      SortedEntryCounts(obs, i);
    }
    assert forall i, j :: 0 <= i < j < |g| ==> EntryTotal(g[i]) >= EntryTotal(g[j]);
    SortedSum(obs);
    ToolLinesSum(g);
  }

  lemma ToolLinesOnePerGroup(rows: seq<Row>)
    ensures var s := StatsOf(rows).byTool;
            && (forall i, j :: 0 <= i < j < |s| ==> (s[i].serverName, s[i].toolName) != (s[j].serverName, s[j].toolName))
            && (forall r :: r in rows ==> exists i :: 0 <= i < |s| && s[i].serverName == r.serverName && s[i].toolName == r.toolName)
  {
    SortedKeysDistinct(ToolObservations(rows));
    ToolLinesDistinct(ToolGroups(rows));
    assert StatsOf(rows).byTool == ToolLines(ToolGroups(rows));
    forall r | r in rows
      ensures exists i :: 0 <= i < |StatsOf(rows).byTool| && StatsOf(rows).byTool[i].serverName == r.serverName && StatsOf(rows).byTool[i].toolName == r.toolName
    {
      var a :| 0 <= a < |rows| && rows[a] == r;
      ToolRowHasLine(rows, a);
    }
  }

  lemma ToolLinesDistinct(g: seq<Entry<(string, string)>>)
    requires DistinctKeys(g)
    ensures var s := ToolLines(g);
            forall i, j :: 0 <= i < j < |s| ==> (s[i].serverName, s[i].toolName) != (s[j].serverName, s[j].toolName)
  {
    forall i, j | 0 <= i < j < |g|
      ensures (ToolLines(g)[i].serverName, ToolLines(g)[i].toolName) != (ToolLines(g)[j].serverName, ToolLines(g)[j].toolName)
    {
      assert g[i].key == (g[i].key.0, g[i].key.1) && g[j].key == (g[j].key.0, g[j].key.1);
    }
  }

  lemma ToolRowHasLine(rows: seq<Row>, a: nat)
    requires a < |rows|
    ensures var s := ToolLines(ToolGroups(rows));
            exists i :: 0 <= i < |s| && s[i].serverName == rows[a].serverName && s[i].toolName == rows[a].toolName
  {
    var obs := ToolObservations(rows);
    assert obs[a].key == (rows[a].serverName, rows[a].toolName);
    ObservedKeyOccurs(obs, a);
    SortedKeyPresent(obs, obs[a].key);
    var g := ToolGroups(rows);
    var i :| 0 <= i < |g| && g[i].key == obs[a].key;
    assert ToolLines(g)[i].serverName == rows[a].serverName;
  }

  /** There is exactly one per-server line for each server in the rows. Each
      line counts exactly the rows for its server, at least one, with no more
      successes than invocations; the lines come largest count first and add
      up to the total. */
  lemma ServerStatsCountRows(rows: seq<Row>)
    ensures var s := StatsOf(rows).byServer;
            && (forall i :: 0 <= i < |s| ==>
                  && s[i].count == Occurrences(ServerObservations(rows), s[i].serverName)
                  && s[i].successCount == Successes(ServerObservations(rows), s[i].serverName)
                  && 0 < s[i].count && 0 <= s[i].successCount <= s[i].count)
            && (forall i, j :: 0 <= i < j < |s| ==> s[i].count >= s[j].count)
            && (forall i, j :: 0 <= i < j < |s| ==> s[i].serverName != s[j].serverName)
            && (forall r :: r in rows ==> exists i :: 0 <= i < |s| && s[i].serverName == r.serverName)
            && ServerCountTotal(s) == |rows|
  {
    ServerLinesCount(rows);
    ServerLinesOnePerGroup(rows);
  }

  lemma ServerLinesCount(rows: seq<Row>)
    ensures var s := StatsOf(rows).byServer;
            && (forall i :: 0 <= i < |s| ==>
                  && s[i].count == Occurrences(ServerObservations(rows), s[i].serverName)
                  && s[i].successCount == Successes(ServerObservations(rows), s[i].serverName)
                  && 0 < s[i].count && 0 <= s[i].successCount <= s[i].count)
            && (forall i, j :: 0 <= i < j < |s| ==> s[i].count >= s[j].count)
            && ServerCountTotal(s) == |rows|
  {
    var obs := ServerObservations(rows);
    var g := ServerGroups(rows);
    assert StatsOf(rows).byServer == ServerLines(g);
    forall i | 0 <= i < |g|
      ensures g[i].total == Occurrences(obs, g[i].key) && g[i].success == Successes(obs, g[i].key)
      ensures 0 < g[i].total && g[i].success <= g[i].total
    {
      SortedEntryCounts(obs, i);
    }
    assert forall i, j :: 0 <= i < j < |g| ==> EntryTotal(g[i]) >= EntryTotal(g[j]);
    SortedSum(obs);
    ServerLinesSum(g);
  }

  lemma ServerLinesOnePerGroup(rows: seq<Row>)
    ensures var s := StatsOf(rows).byServer;
            && (forall i, j :: 0 <= i < j < |s| ==> s[i].serverName != s[j].serverName)
            && (forall r :: r in rows ==> exists i :: 0 <= i < |s| && s[i].serverName == r.serverName)
  {
    SortedKeysDistinct(ServerObservations(rows));
    ServerLinesDistinct(ServerGroups(rows));
    assert StatsOf(rows).byServer == ServerLines(ServerGroups(rows));
    forall r | r in rows
      ensures exists i :: 0 <= i < |StatsOf(rows).byServer| && StatsOf(rows).byServer[i].serverName == r.serverName
    {
      var a :| 0 <= a < |rows| && rows[a] == r;
      ServerRowHasLine(rows, a);
    }
  }

  lemma ServerLinesDistinct(g: seq<Entry<string>>)
    requires DistinctKeys(g)
    ensures var s := ServerLines(g);
            forall i, j :: 0 <= i < j < |s| ==> s[i].serverName != s[j].serverName
  {
  }

  lemma ServerRowHasLine(rows: seq<Row>, a: nat)
    requires a < |rows|
    ensures var s := ServerLines(ServerGroups(rows));
            exists i :: 0 <= i < |s| && s[i].serverName == rows[a].serverName
  {
    var obs := ServerObservations(rows);
    assert obs[a].key == rows[a].serverName;
    ObservedKeyOccurs(obs, a);
    SortedKeyPresent(obs, obs[a].key);
    var g := ServerGroups(rows);
    var i :| 0 <= i < |g| && g[i].key == obs[a].key;
    assert ServerLines(g)[i].serverName == rows[a].serverName;
  }

  lemma {:induction false} ToolLinesSum(t: seq<Entry<(string, string)>>)
    ensures ToolCountTotal(ToolLines(t)) == SumTotals(t)
  {
    if t != [] {
      ToolLinesSum(t[1..]);
      assert ToolLines(t)[1..] == ToolLines(t[1..]);
    }
  }

  lemma {:induction false} ServerLinesSum(t: seq<Entry<string>>)
    ensures ServerCountTotal(ServerLines(t)) == SumTotals(t)
  {
    if t != [] {
      ServerLinesSum(t[1..]);
      assert ServerLines(t)[1..] == ServerLines(t[1..]);
    }
  }

  // ---------------------------------------------------------------------------
  // Call-sequence patterns
  // ---------------------------------------------------------------------------

  /** How many of the newest rows pattern analysis looks at, and how many
      patterns it reports. */
  const PatternRowLimit := 1000
  const TopPatternCount := 20

  /** The separator between the calls of a sequence: a right arrow with a
      space on each side. */
  const Arrow := " \U{2192} "

  datatype Call = Call(server: string, tool: string, succeeded: bool)

  function CallOf(row: Row): Call {
    Call(row.serverName, row.toolName, row.success == 1)
  }

  /** `server/tool`. */
  function Label(c: Call): string {
    c.server + "/" + c.tool
  }

  /** A window of two consecutive calls, successful when both were. */
  function PairWindow(a: Call, b: Call): Observation<string> {
    Observation(Label(a) + Arrow + Label(b), a.succeeded && b.succeeded)
  }

  /** A window of three consecutive calls, successful when all were. */
  function TripleWindow(a: Call, b: Call, c: Call): Observation<string> {
    Observation(Label(a) + Arrow + Label(b) + Arrow + Label(c), a.succeeded && b.succeeded && c.succeeded)
  }

  /** The windows that start at call `i`: the pair, then the triple when a
      third call follows. */
  function StepWindows(calls: seq<Call>, i: nat): seq<Observation<string>>
    requires i + 1 < |calls|
  {
    [PairWindow(calls[i], calls[i + 1])]
    + if i + 2 < |calls| then [TripleWindow(calls[i], calls[i + 1], calls[i + 2])] else []
  }

  /** The windows that start before call `i`, in the order they are counted. */
  function WindowsUpTo(calls: seq<Call>, i: nat): seq<Observation<string>>
    requires i == 0 || i < |calls|
  {
    if i == 0 then [] else WindowsUpTo(calls, i - 1) + StepWindows(calls, i - 1)
  }

  /** `w` is the pair or the triple window that starts at call `k`. */
  predicate IsWindowAt(calls: seq<Call>, k: int, w: Observation<string>) {
    && 0 <= k && k + 1 < |calls|
    && (w == PairWindow(calls[k], calls[k + 1]) || (k + 2 < |calls| && w == TripleWindow(calls[k], calls[k + 1], calls[k + 2])))
  }

  /** Every window of the call sequence. */
  function Windows(calls: seq<Call>): seq<Observation<string>> {
    if |calls| < 2 then [] else WindowsUpTo(calls, |calls| - 1)
  }

  function Reverse<T>(s: seq<T>): (r: seq<T>)
    ensures |r| == |s|
    ensures forall i :: 0 <= i < |s| ==> r[i] == s[|s| - 1 - i]
  {
    if s == [] then [] else Reverse(s[1..]) + [s[0]]
  }

  /** The newest rows, at most 1000, put back into the order they happened. */
  function RecentRows(rows: seq<Row>): seq<Row> {
    Reverse(Newest(rows, PatternRowLimit))
  }

  /** The calls of the recent rows, read newest first and then reversed. */
  function RecentCalls(rows: seq<Row>): (r: seq<Call>)
    ensures |r| == |RecentRows(rows)|
    ensures forall i :: 0 <= i < |r| ==> r[i] == CallOf(RecentRows(rows)[i])
  {
    var newest := Newest(rows, PatternRowLimit);
    Reverse(seq(|newest|, i requires 0 <= i < |newest| => CallOf(newest[i])))
  }

  datatype InvocationPattern = InvocationPattern(sequence: string, occurrences: int, successCount: int, failureCount: int)

  /** The entries seen more than once, in dictionary order. */
  function Repeated(t: seq<Entry<string>>): (r: seq<Entry<string>>)
    ensures forall i :: 0 <= i < |r| ==> r[i].total > 1 && r[i] in t
  {
    if t == [] then []
    else (if t[0].total > 1 then [t[0]] else []) + Repeated(t[1..])
  }

  /** An entry seen more than once survives the filter. */
  lemma {:induction false} RepeatedKeeps(t: seq<Entry<string>>, a: nat)
    requires a < |t| && t[a].total > 1
    ensures t[a] in Repeated(t)
  {
    if a > 0 {
      assert t[1..][a - 1] == t[a];
      RepeatedKeeps(t[1..], a - 1);
    }
  }

  /** `Where(total > 1).OrderByDescending(total).Take(20).Select(...)`. */
  function TopPatterns(t: seq<Entry<string>>): seq<InvocationPattern> {
    var top := Limit(SortDesc(Repeated(t), EntryTotal), TopPatternCount);
    seq(|top|, i requires 0 <= i < |top| => InvocationPattern(top[i].key, top[i].total, top[i].success, top[i].total - top[i].success))
  }

  /** What `GetPatternsAsync` returns for the stored rows. */
  function PatternsOf(rows: seq<Row>): seq<InvocationPattern> {
    TopPatterns(TallyAll(Windows(RecentCalls(rows))))
  }

  /** The analysed rows are the newest ones, at most 1000, oldest first. */
  lemma RecentRowsAreChronological(rows: seq<Row>)
    ensures |RecentRows(rows)| == if |rows| <= PatternRowLimit then |rows| else PatternRowLimit
    ensures forall i, j :: 0 <= i < j < |RecentRows(rows)| ==> RecentRows(rows)[i].timestamp <= RecentRows(rows)[j].timestamp
  {
    var newest := Newest(rows, PatternRowLimit);
    var sorted := SortDesc(rows, RowTime);
    assert forall i :: 0 <= i < |newest| ==> newest[i] == sorted[i];
    assert forall i, j :: 0 <= i < j < |newest| ==> RowTime(newest[i]) >= RowTime(newest[j]);
  }

  /** `n` calls give `n - 1` pair windows and `n - 2` triple windows, each over
      consecutive calls. */
  lemma {:induction false} WindowsUpToShape(calls: seq<Call>, i: nat)
    requires i == 0 || i < |calls|
    ensures |WindowsUpTo(calls, i)| == 2 * i - (if i == 0 || i + 1 < |calls| then 0 else 1)
    ensures forall w :: w in WindowsUpTo(calls, i) ==> exists k :: k < i && IsWindowAt(calls, k, w)
  {
    if i > 0 {
      WindowsUpToShape(calls, i - 1);
      var step := StepWindows(calls, i - 1);
      assert WindowsUpTo(calls, i) == WindowsUpTo(calls, i - 1) + step;
      assert |step| == if i + 1 < |calls| then 2 else 1;
      forall w | w in step ensures IsWindowAt(calls, i - 1, w) {
      }
    }
  }

  /** Every window covers consecutive calls, and there are exactly
      (n - 1) + (n - 2) of them for n >= 2 calls, so the counts in the
      dictionary add up to that number. */
  lemma WindowCount(calls: seq<Call>)
    ensures |calls| < 2 ==> Windows(calls) == []
    ensures |calls| >= 2 ==> |Windows(calls)| == (|calls| - 1) + (|calls| - 2)
    ensures SumTotals(TallyAll(Windows(calls))) == |Windows(calls)|
    ensures forall w :: w in Windows(calls) ==> exists k :: IsWindowAt(calls, k, w)
  {
    if |calls| >= 2 {
      WindowsUpToShape(calls, |calls| - 1);
    }
    TallyCounts(Windows(calls));
  }

  /** The reported patterns: at most 20, each seen more than once, largest
      count first; each counts exactly the windows with its sequence and
      those of them in which every call succeeded, and its failures are the
      rest. */
  lemma PatternsReportRepeatedWindows(rows: seq<Row>)
    ensures var p := PatternsOf(rows);
            var ws := Windows(RecentCalls(rows));
            && |p| <= TopPatternCount
            && (forall i :: 0 <= i < |p| ==>
                  && p[i].occurrences > 1
                  && p[i].occurrences == Occurrences(ws, p[i].sequence)
                  && p[i].successCount == Successes(ws, p[i].sequence)
                  && p[i].failureCount == p[i].occurrences - p[i].successCount >= 0)
            && (forall i, j :: 0 <= i < j < |p| ==> p[i].occurrences >= p[j].occurrences)
  {
    var ws := Windows(RecentCalls(rows));
    var t := TallyAll(ws);
    TallyCounts(ws);
    assert PatternsOf(rows) == TopPatterns(t);
    TopPatternsSound(t);
  }

  /** The report drawn from a well-formed tally: at most 20 patterns, each
      counted more than once, with its own counts from the tally, largest
      count first. */
  lemma TopPatternsSound(t: seq<Entry<string>>)
    requires DistinctKeys(t) && WellCounted(t)
    ensures var p := TopPatterns(t);
            && |p| <= TopPatternCount
            && (forall i :: 0 <= i < |p| ==>
                  && p[i].occurrences > 1
                  && p[i].occurrences == TotalFor(t, p[i].sequence)
                  && p[i].successCount == SuccessFor(t, p[i].sequence)
                  && p[i].failureCount == p[i].occurrences - p[i].successCount >= 0)
            && (forall i, j :: 0 <= i < j < |p| ==> p[i].occurrences >= p[j].occurrences)
  {
    var p := TopPatterns(t);
    forall i | 0 <= i < |p|
      ensures p[i].occurrences > 1
      ensures p[i].occurrences == TotalFor(t, p[i].sequence) && p[i].successCount == SuccessFor(t, p[i].sequence)
      ensures p[i].failureCount == p[i].occurrences - p[i].successCount >= 0
    {
      TopPatternAt(t, i);
    }
    TopPatternsOrdered(t);
  }

  /** One reported pattern carries its key's counts from the tally. */
  lemma TopPatternAt(t: seq<Entry<string>>, i: nat)
    requires DistinctKeys(t) && WellCounted(t)
    requires i < |TopPatterns(t)|
    ensures var q := TopPatterns(t)[i];
            && q.occurrences > 1
            && q.occurrences == TotalFor(t, q.sequence) && q.successCount == SuccessFor(t, q.sequence)
            && q.failureCount == q.occurrences - q.successCount >= 0
  {
    var top := Limit(SortDesc(Repeated(t), EntryTotal), TopPatternCount);
    TopEntrySound(t, i);
    assert TopPatterns(t)[i] == InvocationPattern(top[i].key, top[i].total, top[i].success, top[i].total - top[i].success);
  }

  /** At most 20 patterns are reported, most frequent first. */
  lemma TopPatternsOrdered(t: seq<Entry<string>>)
    ensures var p := TopPatterns(t);
            && |p| <= TopPatternCount
            && (forall i, j :: 0 <= i < j < |p| ==> p[i].occurrences >= p[j].occurrences)
  {
    var top := Limit(SortDesc(Repeated(t), EntryTotal), TopPatternCount);
    var p := TopPatterns(t);
    TopEntriesOrdered(t);
    forall i, j | 0 <= i < j < |p| ensures p[i].occurrences >= p[j].occurrences {
      assert p[i].occurrences == top[i].total && p[j].occurrences == top[j].total;
    }
  }

  /** A reported entry is a repeated entry of the tally, with its own counts. */
  lemma TopEntrySound(t: seq<Entry<string>>, i: nat)
    requires DistinctKeys(t) && WellCounted(t)
    requires i < |Limit(SortDesc(Repeated(t), EntryTotal), TopPatternCount)|
    ensures var e := Limit(SortDesc(Repeated(t), EntryTotal), TopPatternCount)[i];
            && e.total > 1
            && TotalFor(t, e.key) == e.total && SuccessFor(t, e.key) == e.success
            && e.success <= e.total
  {
    var sorted := SortDesc(Repeated(t), EntryTotal);
    var e := sorted[i];
    assert Limit(sorted, TopPatternCount)[i] == e;
    assert e in multiset(Repeated(t));
    assert e in Repeated(t);
    var a :| 0 <= a < |t| && t[a] == e;
    EntryHoldsKeyTotal(t, a);
  }

  /** At most 20 entries are reported, most frequent first. */
  lemma TopEntriesOrdered(t: seq<Entry<string>>)
    ensures var top := Limit(SortDesc(Repeated(t), EntryTotal), TopPatternCount);
            && |top| <= TopPatternCount
            && (forall i, j :: 0 <= i < j < |top| ==> top[i].total >= top[j].total)
  {
    var sorted := SortDesc(Repeated(t), EntryTotal);
    var top := Limit(sorted, TopPatternCount);
    forall i, j | 0 <= i < j < |top| ensures top[i].total >= top[j].total {
      assert top[i] == sorted[i] && top[j] == sorted[j];
      assert EntryTotal(sorted[i]) >= EntryTotal(sorted[j]);
    }
  }

  /** A key counted more than once is reported, unless the report is full
      and its last pattern has at least that count. */
  lemma TopPatternsComplete(t: seq<Entry<string>>, sequence: string)
    requires DistinctKeys(t) && TotalFor(t, sequence) > 1
    ensures var p := TopPatterns(t);
            || (exists i :: 0 <= i < |p| && p[i].sequence == sequence)
            || (|p| == TopPatternCount && TotalFor(t, sequence) <= p[|p| - 1].occurrences)
  {
    var a := KeyPresent(t, sequence);
    EntryHoldsKeyTotal(t, a);
    RepeatedKeeps(t, a);
    var sorted := SortDesc(Repeated(t), EntryTotal);
    assert t[a] in multiset(sorted);
    var idx :| 0 <= idx < |sorted| && sorted[idx] == t[a];
    var top := Limit(sorted, TopPatternCount);
    var p := TopPatterns(t);
    if idx < TopPatternCount {
      assert top[idx] == sorted[idx];
      assert p[idx].sequence == sequence;
    } else {
      assert top[TopPatternCount - 1] == sorted[TopPatternCount - 1];
      assert EntryTotal(sorted[TopPatternCount - 1]) >= EntryTotal(sorted[idx]);
    }
  }

  /** No repeated sequence is missing from the report unless the report is
      full and its last pattern occurred at least as often. */
  lemma PatternsAreComplete(rows: seq<Row>, sequence: string)
    requires Occurrences(Windows(RecentCalls(rows)), sequence) > 1
    ensures var p := PatternsOf(rows);
            || (exists i :: 0 <= i < |p| && p[i].sequence == sequence)
            || (|p| == TopPatternCount && Occurrences(Windows(RecentCalls(rows)), sequence) <= p[|p| - 1].occurrences)
  {
    TallyCounts(Windows(RecentCalls(rows)));
    TopPatternsComplete(TallyAll(Windows(RecentCalls(rows))), sequence);
  }

  /** The per-tool reader loop: one line per group, in the order read. */
  method ReadToolLines(tools: seq<Entry<(string, string)>>) returns (lines: seq<ToolStats>)
    ensures lines == ToolLines(tools)
  {
    lines := [];
    var i := 0;
    while i < |tools|
      invariant 0 <= i <= |tools|
      invariant lines == seq(i, k requires 0 <= k < i => ToToolStats(tools[k]))
    {
      lines := lines + [ToToolStats(tools[i])];
      i := i + 1;
    }
  }

  /** The per-server reader loop: one line per group, in the order read. */
  method ReadServerLines(servers: seq<Entry<string>>) returns (lines: seq<ServerStats>)
    ensures lines == ServerLines(servers)
  {
    lines := [];
    var j := 0;
    while j < |servers|
      invariant 0 <= j <= |servers|
      invariant lines == seq(j, k requires 0 <= k < j => ToServerStats(servers[k]))
    {
      lines := lines + [ToServerStats(servers[j])];
      j := j + 1;
    }
  }

  /** The reader loop: one call per selected row, in the order read. */
  method ReadCalls(recent: seq<Row>) returns (invocations: array<Call>)
    ensures fresh(invocations)
    ensures invocations[..] == seq(|recent|, i requires 0 <= i < |recent| => CallOf(recent[i]))
  {
    invocations := new Call[|recent|];
    var k := 0;
    while k < |recent|
      invariant 0 <= k <= |recent|
      invariant forall j :: 0 <= j < k ==> invocations[j] == CallOf(recent[j])
    {
      invocations[k] := CallOf(recent[k]);
      k := k + 1;
    }
  }

  /** The counting loop: for each call, its pair window and, when a third
      call follows, its triple window go into the dictionary. */
  method CountWindows(invocations: array<Call>) returns (patterns: seq<Entry<string>>)
    ensures patterns == TallyAll(Windows(invocations[..]))
  {
    ghost var calls := invocations[..];
    var n := invocations.Length;
    patterns := [];
    var i := 0;
    while i < n - 1
      invariant 0 <= i && (i == 0 || i < n)
      invariant patterns == TallyAll(WindowsUpTo(calls, i))
    {
      var first, second := invocations[i], invocations[i + 1];
      var seq2 := Label(first) + Arrow + Label(second);
      var success2 := first.succeeded && second.succeeded;
      assert seq2 == PairWindow(calls[i], calls[i + 1]).key && success2 == PairWindow(calls[i], calls[i + 1]).succeeded by {
        assert first == calls[i] && second == calls[i + 1];
      }
      patterns := Bump(patterns, seq2, success2);
      if i < n - 2 {
        var third := invocations[i + 2];
        var seq3 := Label(first) + Arrow + Label(second) + Arrow + Label(third);
        var success3 := first.succeeded && second.succeeded && third.succeeded;
        assert seq3 == TripleWindow(calls[i], calls[i + 1], calls[i + 2]).key
            && success3 == TripleWindow(calls[i], calls[i + 1], calls[i + 2]).succeeded by {
          assert first == calls[i] && second == calls[i + 1] && third == calls[i + 2];
        }
        patterns := Bump(patterns, seq3, success3);
        TallyTripleStep(calls, i);
      } else {
        TallyPairStep(calls, i);
      }
      i := i + 1;
    }
  }

  /** Counting the windows that start at the second-to-last call bumps only
      the pair. */
  lemma TallyPairStep(calls: seq<Call>, i: nat)
    requires i + 2 == |calls|
    ensures TallyAll(WindowsUpTo(calls, i + 1))
         == Bump(TallyAll(WindowsUpTo(calls, i)), PairWindow(calls[i], calls[i + 1]).key, PairWindow(calls[i], calls[i + 1]).succeeded)
  {
    var before := WindowsUpTo(calls, i);
    var pair := PairWindow(calls[i], calls[i + 1]);
    TallyAppend(before, pair);
    assert WindowsUpTo(calls, i + 1) == before + [pair];
  }

  /** Counting the windows that start at an earlier call bumps the pair, then
      the triple. */
  lemma TallyTripleStep(calls: seq<Call>, i: nat)
    requires i + 2 < |calls|
    ensures var pair := PairWindow(calls[i], calls[i + 1]);
            var triple := TripleWindow(calls[i], calls[i + 1], calls[i + 2]);
            TallyAll(WindowsUpTo(calls, i + 1)) ==
              Bump(Bump(TallyAll(WindowsUpTo(calls, i)), pair.key, pair.succeeded), triple.key, triple.succeeded)
  {
    var before := WindowsUpTo(calls, i);
    var pair := PairWindow(calls[i], calls[i + 1]);
    var triple := TripleWindow(calls[i], calls[i + 1], calls[i + 2]);
    TallyAppend(before, pair);
    TallyAppend(before + [pair], triple);
    assert WindowsUpTo(calls, i + 1) == before + [pair] + [triple];
  }

  /** Reverse an array in place. */
  method ReverseInPlace<T>(a: array<T>)
    modifies a
    ensures a[..] == Reverse(old(a[..]))
  {
    var i := 0;
    while i < a.Length / 2
      invariant 0 <= i <= a.Length / 2
      invariant forall k :: 0 <= k < i ==> a[k] == old(a[a.Length - 1 - k]) && a[a.Length - 1 - k] == old(a[k])
      invariant forall k :: i <= k < a.Length - i ==> a[k] == old(a[k])
    {
      a[i], a[a.Length - 1 - i] := a[a.Length - 1 - i], a[i];
      i := i + 1;
    }
  }

  // ---------------------------------------------------------------------------
  // The logger
  // ---------------------------------------------------------------------------

  class SqliteInvocationLogger {
    /** The table, in insertion order. */
    var rows: seq<Row>
    /** Whether the lock and the connection have been released. */
    var disposed: bool

    /** Row ids are handed out 1, 2, 3, ... as rows are inserted. */
    ghost predicate Valid()
      reads this
    {
      forall k :: 0 <= k < |rows| ==> rows[k].id == k + 1
    }

    /** Open the log. The database file is kept across runs and the table is
        only created when missing, so a new logger starts with the rows that
        earlier runs stored, ids 1, 2, 3, ... in insertion order. */
    constructor(stored: seq<Row>)
      requires forall k :: 0 <= k < |stored| ==> stored[k].id == k + 1
      ensures Valid() && rows == stored && !disposed
    {
      rows := stored;
      disposed := false;
    }

    /** Insert one row; once disposed, the lock refuses. */
    method LogAsync(log: InvocationLog) returns (r: Result<(), Exception>)
      requires Valid()
      modifies this
      ensures Valid() && disposed == old(disposed)
      ensures old(disposed) ==> r == Err(DisposedError()) && rows == old(rows)
      ensures !old(disposed) ==> r == Ok(()) && rows == old(rows) + [ToRow(log, |old(rows)| + 1)]
    {
      if disposed {
        return Err(DisposedError());
      }
      rows := rows + [ToRow(log, |rows| + 1)];
      r := Ok(());
    }

    /** The newest `limit` entries, read row by row. */
    method GetLogsAsync(limit: int) returns (r: Result<seq<InvocationLog>, Exception>)
      ensures disposed ==> r == Err(DisposedError())
      ensures !disposed ==> r == Ok(LogsView(rows, limit))
    {
      if disposed {
        return Err(DisposedError());
      }
      var selected := Newest(rows, limit);
      var logs: seq<InvocationLog> := [];
      var i := 0;
      while i < |selected|
        invariant 0 <= i <= |selected|
        invariant logs == seq(i, k requires 0 <= k < i => FromRow(selected[k]))
      {
        logs := logs + [FromRow(selected[i])];
        i := i + 1;
      }
      r := Ok(logs);
    }

    /** The overall counts, then one line per tool and one per server, read
        row by row. */
    method GetStatsAsync() returns (r: Result<InvocationStats, Exception>)
      ensures disposed ==> r == Err(DisposedError())
      ensures !disposed ==> r == Ok(StatsOf(rows))
      ensures !disposed ==> r.Ok? && r.value.successCount == |SuccessfulRows(rows)|
                            && r.value.failureCount == |rows| - |SuccessfulRows(rows)|
    {
      if disposed {
        return Err(DisposedError());
      }
      OverallStatsAgree(rows);
      var total := |rows|;
      var success := SuccessSum(rows).GetOr(0);
      var tools := ToolGroups(rows);
      var servers := ServerGroups(rows);
      var byTool := ReadToolLines(tools);
      var byServer := ReadServerLines(servers);
      assert StatsOf(rows) == InvocationStats(total, success, total - success, ToolLines(tools), ServerLines(servers));
      r := Ok(InvocationStats(total, success, total - success, byTool, byServer));
    }

    /** Read the newest rows, reverse them into chronological order, count
        every two- and three-call window, and report the top patterns. */
    method GetPatternsAsync() returns (r: Result<seq<InvocationPattern>, Exception>)
      ensures disposed ==> r == Err(DisposedError())
      ensures !disposed ==> r == Ok(PatternsOf(rows))
    {
      if disposed {
        return Err(DisposedError());
      }
      var recent := Newest(rows, PatternRowLimit);
      var invocations := ReadCalls(recent);
      ReverseInPlace(invocations);
      assert invocations[..] == RecentCalls(rows);
      var patterns := CountWindows(invocations);
      r := Ok(TopPatterns(patterns));
    }

    /** Release the lock and the connection; the rows stay stored. */
    method Dispose()
      modifies this
      ensures disposed && rows == old(rows)
    {
      disposed := true;
    }
  }
}
