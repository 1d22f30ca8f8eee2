/** The handful of .NET string operations the bridge relies on, written out over
    `seq<char>`: ordinal prefix and substring tests, ASCII case-insensitive
    containment, decimal rendering of integers, `string.Join(' ', ...)` and
    truncation with an ellipsis. */
module Text {

  /** `s.StartsWith(prefix)`, compared ordinally. */
  predicate StartsWith(s: string, prefix: string) {
    |prefix| <= |s| && s[..|prefix|] == prefix
  }

  /** `s.Contains(sub)`: ordinal substring containment. */
  predicate Contains(s: string, sub: string)
    decreases |s|
  {
    StartsWith(s, sub) || (s != [] && Contains(s[1..], sub))
  }

  /** An occurrence of `sub` at position `i` makes `s` contain `sub`. */
  lemma {:induction false} ContainsAt(s: string, sub: string, i: nat)
    requires i + |sub| <= |s| && s[i..i + |sub|] == sub
    ensures Contains(s, sub)
    decreases i
  {
    if i == 0 {
      assert s[..|sub|] == sub;
    } else {
      assert s[1..][i - 1..i - 1 + |sub|] == s[i..i + |sub|];
      ContainsAt(s[1..], sub, i - 1);
    }
  }

  /** Containment always has a witness position. */
  lemma {:induction false} ContainsWitness(s: string, sub: string) returns (i: nat)
    requires Contains(s, sub)
    ensures i + |sub| <= |s| && s[i..i + |sub|] == sub
    decreases |s|
  {
    if StartsWith(s, sub) {
      i := 0;
    } else {
      var j := ContainsWitness(s[1..], sub);
      assert s[1..][j..j + |sub|] == s[j + 1..j + 1 + |sub|];
      i := j + 1;
    }
  }

  /** `sub` occurs in `s` at position `i`. */
  predicate OccursAt(s: string, sub: string, i: int) {
    0 <= i <= |s| - |sub| && s[i..i + |sub|] == sub
  }

  /** `sub` occurs in `s` at some position. */
  ghost predicate HasWindow(s: string, sub: string) {
    exists i :: OccursAt(s, sub, i)
  }

  /** Containment is exactly an occurrence at some position. */
  lemma ContainsIffWindow(s: string, sub: string)
    ensures Contains(s, sub) <==> HasWindow(s, sub)
  {
    if Contains(s, sub) {
      var i := ContainsWitness(s, sub);
      assert OccursAt(s, sub, i);
    }
    if HasWindow(s, sub) {
      var i :| OccursAt(s, sub, i);
      ContainsAt(s, sub, i);
    }
  }

  /** A string contains every one of its infixes. */
  lemma ContainsInfix(a: string, b: string, c: string)
    ensures Contains(a + b + c, b)
  {
    assert (a + b + c)[|a|..|a| + |b|] == b;
    ContainsAt(a + b + c, b, |a|);
  }

  // ---------------------------------------------------------------------------
  // Case-insensitive containment (StringComparison.OrdinalIgnoreCase)
  // ---------------------------------------------------------------------------

  /** Upper-casing of one character; only the ASCII letters are mapped. */
  function UpperAscii(c: char): char {
    if 'a' <= c <= 'z' then (c as int - 32) as char else c
  }

  function UpperAll(s: string): (r: string)
    ensures |r| == |s|
    ensures forall i :: 0 <= i < |s| ==> r[i] == UpperAscii(s[i])
  {
    if s == [] then [] else [UpperAscii(s[0])] + UpperAll(s[1..])
  }

  /** `s.Contains(sub, StringComparison.OrdinalIgnoreCase)`: some window of `s`
      equals `sub` character by character once both are upper-cased. */
  predicate ContainsIgnoreCase(s: string, sub: string) {
    Contains(UpperAll(s), UpperAll(sub))
  }

  // ---------------------------------------------------------------------------
  // Decimal rendering of integers (interpolating an int into a string)
  // ---------------------------------------------------------------------------

  function DigitChar(d: nat): char
    requires d < 10
  {
    "0123456789"[d]
  }

  predicate IsDigit(c: char) {
    '0' <= c <= '9'
  }

  /** The decimal text of a natural number, without leading zeros. */
  function NatToString(n: nat): (s: string)
    ensures |s| > 0
    ensures forall i :: 0 <= i < |s| ==> IsDigit(s[i])
    decreases n
  {
    if n < 10 then [DigitChar(n)] else NatToString(n / 10) + [DigitChar(n % 10)]
  }

  /** The decimal text of an integer, with a leading '-' when negative. */
  function IntToString(i: int): string {
    if i < 0 then "-" + NatToString(-i) else NatToString(i)
  }

  /** The value a string of decimal digits denotes: the inverse of NatToString. */
  function DecimalValue(s: string): nat
    requires forall i :: 0 <= i < |s| ==> IsDigit(s[i])
  {
    if s == [] then 0 else 10 * DecimalValue(s[..|s| - 1]) + DigitValue(s[|s| - 1])
  }

  function DigitValue(c: char): nat
    requires IsDigit(c)
  {
    c as int - '0' as int
  }

  /** Rendering a natural number in decimal loses nothing. */
  lemma {:induction false} NatToStringRoundTrip(n: nat)
    ensures DecimalValue(NatToString(n)) == n
    decreases n
  {
    if n >= 10 {
      var s := NatToString(n);
      assert s[..|s| - 1] == NatToString(n / 10);
      NatToStringRoundTrip(n / 10);
    }
  }

  /** Distinct numbers have distinct decimal texts. */
  lemma NatToStringInjective(m: nat, n: nat)
    requires NatToString(m) == NatToString(n)
    ensures m == n
  {
    NatToStringRoundTrip(m);
    NatToStringRoundTrip(n);
  }

  /** The decimal text starts with '-' exactly for negative integers. */
  lemma IntToStringSign(i: int)
    ensures |IntToString(i)| > 0
    ensures IntToString(i)[0] == '-' <==> i < 0
  {
    if i >= 0 {
      assert IsDigit(NatToString(i)[0]);
    }
  }

  /** Distinct integers have distinct decimal texts. */
  lemma IntToStringInjective(a: int, b: int)
    requires IntToString(a) == IntToString(b)
    ensures a == b
  {
    IntToStringSign(a);
    IntToStringSign(b);
    var s := IntToString(a);
    if a < 0 {
      assert NatToString(-a) == s[1..] == NatToString(-b);
      NatToStringInjective(-a, -b);
    } else {
      NatToStringInjective(a, b);
    }
  }

  // ---------------------------------------------------------------------------
  // string.Join(' ', args) and its inverse split
  // ---------------------------------------------------------------------------

  /** `string.Join(' ', parts)`. */
  function JoinWithSpace(parts: seq<string>): string
    decreases |parts|
  {
    if parts == [] then ""
    else if |parts| == 1 then parts[0]
    else parts[0] + " " + JoinWithSpace(parts[1..])
  }

  /** The position of the first space, if any. */
  function IndexOfSpace(s: string): (r: nat)
    ensures r <= |s|
    ensures r < |s| ==> s[r] == ' '
    ensures forall i :: 0 <= i < r ==> s[i] != ' '
  {
    if s == [] then 0 else if s[0] == ' ' then 0 else 1 + IndexOfSpace(s[1..])
  }

  /** The inverse of `JoinWithSpace` on space-free pieces: the pieces between
      spaces (one piece when there is none). The bridge itself never splits an
      argument string; this serves only to state what joining preserves. */
  function SplitOnSpace(s: string): (r: seq<string>)
    ensures |r| > 0
    decreases |s|
  {
    var i := IndexOfSpace(s);
    if i == |s| then [s] else [s[..i]] + SplitOnSpace(s[i + 1..])
  }

  predicate HasNoSpace(s: string) {
    forall i :: 0 <= i < |s| ==> s[i] != ' '
  }

  /** Splitting a joined argument list on single spaces gives the arguments
      back, provided there is at least one argument and none of them contains a
      space. `SplitOnSpace` is this model's own inverse of the join, not the
      runtime's command-line parsing. */
  lemma {:induction false} SplitJoinRoundTrip(parts: seq<string>)
    requires parts != []
    requires forall k :: 0 <= k < |parts| ==> HasNoSpace(parts[k])
    ensures SplitOnSpace(JoinWithSpace(parts)) == parts
    decreases |parts|
  {
    var s := JoinWithSpace(parts);
    if |parts| == 1 {
      assert IndexOfSpace(s) == |s|;
    } else {
      var p := parts[0];
      assert s == p + " " + JoinWithSpace(parts[1..]);
      assert s[|p|] == ' ';
      assert IndexOfSpace(s) == |p|;
      assert s[..|p|] == p;
      assert s[|p| + 1..] == JoinWithSpace(parts[1..]);
      SplitJoinRoundTrip(parts[1..]);
      assert [p] + parts[1..] == parts;
    }
  }

  /** Distinct argument lists give distinct argument strings, as long as each
      list has at least one argument and no argument contains a space: the
      joined text determines the arguments. */
  lemma JoinWithSpaceInjective(a: seq<string>, b: seq<string>)
    requires a != [] && b != []
    requires forall k :: 0 <= k < |a| ==> HasNoSpace(a[k])
    requires forall k :: 0 <= k < |b| ==> HasNoSpace(b[k])
    requires JoinWithSpace(a) == JoinWithSpace(b)
    ensures a == b
  {
    SplitJoinRoundTrip(a);
    SplitJoinRoundTrip(b);
  }

  // ---------------------------------------------------------------------------
  // Truncation with an ellipsis: `s.Length > max ? s[..max] + "..." : s`
  // ---------------------------------------------------------------------------

  function Truncate(s: string, max: nat): (r: string)
    ensures |r| <= max + 3
    ensures |s| <= max ==> r == s
    ensures |s| > max ==> |r| == max + 3 && r[..max] == s[..max] && r[max..] == "..."
  {
    if |s| > max then s[..max] + "..." else s
  }
}
