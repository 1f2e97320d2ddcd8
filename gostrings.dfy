/** The few functions of Go's `strings` and `bytes` packages that the core
    relies on, over byte strings. */
module GoStrings {
  import opened Common

  /** `pat` occurs in `s` starting at byte `k`. */
  predicate OccursAt(s: Bytes, pat: Bytes, k: int) {
    0 <= k && k + |pat| <= |s| && s[k..k + |pat|] == pat
  }

  /** `strings.Contains` / `bytes.Contains`. */
  predicate Contains(s: Bytes, pat: Bytes) {
    exists k | 0 <= k <= |s| - |pat| :: OccursAt(s, pat, k)
  }

  function IndexFrom(s: Bytes, pat: Bytes, k: nat): (r: int)
    ensures r == -1 || (k <= r && OccursAt(s, pat, r))
    ensures r == -1 ==> forall j :: k <= j ==> !OccursAt(s, pat, j)
    ensures r >= 0 ==> forall j :: k <= j < r ==> !OccursAt(s, pat, j)
    decreases |s| - k
  {
    if k + |pat| > |s| then -1
    else if s[k..k + |pat|] == pat then k
    else IndexFrom(s, pat, k + 1)
  }

  /** `bytes.Index`: the first occurrence of `pat` in `s`, or -1. */
  function Index(s: Bytes, pat: Bytes): (r: int)
    ensures r == -1 <==> !Contains(s, pat)
    ensures r >= 0 ==> OccursAt(s, pat, r) && forall j :: 0 <= j < r ==> !OccursAt(s, pat, j)
  {
    IndexFrom(s, pat, 0)
  }

  /** `bytes.IndexByte`: the first position of `c` in `s`, or -1. */
  function IndexByte(s: Bytes, c: char): (r: int)
    ensures -1 <= r < |s|
    ensures r == -1 <==> c !in s
    ensures r >= 0 ==> s[r] == c && c !in s[..r]
  {
    if s == [] then -1
    else if s[0] == c then 0
    else
      var r := IndexByte(s[1..], c);
      assert s == [s[0]] + s[1..];
      if r == -1 then -1
      else
        assert s[..r + 1] == [s[0]] + s[1..][..r];
        r + 1
  }

  predicate HasSuffix(s: string, suffix: string) {
    |suffix| <= |s| && s[|s| - |suffix|..] == suffix
  }

  function TrimSuffix(s: string, suffix: string): string {
    if HasSuffix(s, suffix) then s[..|s| - |suffix|] else s
  }

  /** `strings.ReplaceAll(s, from, to)` for one-byte `from` and `to`. */
  function ReplaceByte(s: string, from: char, to: char): string {
    seq(|s|, k requires 0 <= k < |s| => if s[k] == from then to else s[k])
  }

  function LowerByte(c: char): char {
    if 'A' <= c <= 'Z' then (c as int + 32) as char else c
  }

  /** `strings.ToLower`, restricted to ASCII letters. */
  function ToLower(s: string): string {
    seq(|s|, k requires 0 <= k < |s| => LowerByte(s[k]))
  }

  /** The ASCII white space of `bytes.TrimSpace`. */
  predicate IsSpace(c: char) {
    c == ' ' || c == '\t' || c == '\n' || c == '\U{000B}' || c == '\U{000C}' || c == '\r'
  }

  /** The first position at or after `i` that is not white space. */
  function SpanStart(s: Bytes, i: nat): (n: nat)
    requires i <= |s|
    ensures i <= n <= |s|
    ensures forall k :: i <= k < n ==> IsSpace(s[k])
    ensures n < |s| ==> !IsSpace(s[n])
    decreases |s| - i
  {
    if i < |s| && IsSpace(s[i]) then SpanStart(s, i + 1) else i
  }

  /** The end of `s[lo..j]` once trailing white space is dropped. */
  function SpanEnd(s: Bytes, lo: nat, j: nat): (m: nat)
    requires lo <= j <= |s|
    ensures lo <= m <= j
    ensures forall k :: m <= k < j ==> IsSpace(s[k])
    ensures m > lo ==> !IsSpace(s[m - 1])
    decreases j
  {
    if j > lo && IsSpace(s[j - 1]) then SpanEnd(s, lo, j - 1) else j
  }

  /** `bytes.TrimSpace`: the slice of `s` left once leading and trailing
      white space is dropped; it is empty exactly when `s` is all white
      space. */
  function TrimSpace(s: Bytes): (r: Bytes)
    ensures var a := SpanStart(s, 0);
            && a + |r| <= |s| && r == s[a..a + |r|]
            && (forall k :: 0 <= k < a ==> IsSpace(s[k]))
            && (forall k :: a + |r| <= k < |s| ==> IsSpace(s[k]))
    ensures r == [] <==> forall k :: 0 <= k < |s| ==> IsSpace(s[k])
    ensures r != [] ==> !IsSpace(r[0]) && !IsSpace(r[|r| - 1])
  {
    var a := SpanStart(s, 0);
    var b := SpanEnd(s, a, |s|);
    s[a..b]
  }
}
