/** Byte-wise lexicographic order of strings, as used by `sort.Strings`. */
module StringOrder {
  import opened Common

  /** `a < b` in Go's string comparison. */
  predicate Less(a: string, b: string)
    decreases |a|
  {
    |b| > 0 && (|a| == 0 || a[0] < b[0] || (a[0] == b[0] && Less(a[1..], b[1..])))
  }

  lemma {:induction false} LessIrreflexive(a: string)
    ensures !Less(a, a)
    decreases |a|
  {
    if |a| > 0 {
      LessIrreflexive(a[1..]);
    }
  }

  lemma {:induction false} LessTransitive(a: string, b: string, c: string)
    requires Less(a, b) && Less(b, c)
    ensures Less(a, c)
    decreases |a|
  {
    if |a| > 0 && a[0] == b[0] && b[0] == c[0] {
      LessTransitive(a[1..], b[1..], c[1..]);
    }
  }

  lemma {:induction false} LessTotal(a: string, b: string)
    requires a != b
    ensures Less(a, b) || Less(b, a)
    decreases |a|
  {
    if |a| > 0 && |b| > 0 && a[0] == b[0] {
      assert a == [a[0]] + a[1..] && b == [b[0]] + b[1..];
      LessTotal(a[1..], b[1..]);
    }
  }

  predicate StrictlySorted(s: seq<string>) {
    forall i, j :: 0 <= i < j < |s| ==> Less(s[i], s[j])
  }

  /** Insertion of a new string into a sorted list, one step of `sort.Strings`. */
  function Insert(s: seq<string>, x: string): (r: seq<string>)
    requires StrictlySorted(s) && x !in s
    ensures StrictlySorted(r)
    ensures Elements(r) == Elements(s) + {x} && |r| == |s| + 1
  {
    if s == [] then [x]
    else if Less(x, s[0]) then
      forall j | 0 <= j < |s| ensures Less(x, s[j]) {
        if j > 0 { LessTransitive(x, s[0], s[j]); }
      }
      [x] + s
    else
      LessTotal(x, s[0]);
      var rest := Insert(s[1..], x);
      assert s == [s[0]] + s[1..];
      assert Elements(s) == {s[0]} + Elements(s[1..]);
      forall j | 0 <= j < |rest| ensures Less(s[0], rest[j]) {
        assert rest[j] in Elements(rest);
        if rest[j] != x {
          var i :| 0 <= i < |s[1..]| && s[1..][i] == rest[j];
          assert s[i + 1] == rest[j];
        }
      }
      [s[0]] + rest
  }

  /** The sorted listing of a finite set of strings. */
  ghost function SortedOf(keys: set<string>): (s: seq<string>)
    ensures StrictlySorted(s) && Elements(s) == keys
    decreases keys
  {
    if keys == {} then []
    else
      var k :| k in keys;
      Insert(SortedOf(keys - {k}), k)
  }

  lemma FirstIsElement(s: seq<string>)
    ensures s != [] ==> s[0] in Elements(s)
  {
  }

  /** A set has exactly one strictly sorted listing. */
  lemma {:induction false} SortedUnique(a: seq<string>, b: seq<string>)
    requires StrictlySorted(a) && StrictlySorted(b) && Elements(a) == Elements(b)
    ensures a == b
    decreases |a|
  {
    if a != [] {
      assert a[0] in Elements(b);
      assert b != [];
      assert b[0] in Elements(a);
      if a[0] != b[0] {
        var i :| 0 <= i < |a| && a[i] == b[0];
        var j :| 0 <= j < |b| && b[j] == a[0];
        assert Less(a[0], a[i]) && Less(b[0], b[j]);
        LessTransitive(a[0], b[0], a[0]);
        LessIrreflexive(a[0]);
      }
      forall y | y in a[1..] ensures y in b[1..] {
        var i :| 1 <= i < |a| && a[i] == y;
        assert y in Elements(b);
        var j :| 0 <= j < |b| && b[j] == y;
        if j == 0 { LessIrreflexive(a[0]); }
        assert b[1..][j - 1] == y;
      }
      forall y | y in b[1..] ensures y in a[1..] {
        var j :| 1 <= j < |b| && b[j] == y;
        assert y in Elements(a);
        var i :| 0 <= i < |a| && a[i] == y;
        if i == 0 { LessIrreflexive(b[0]); }
        assert a[1..][i - 1] == y;
      }
      SortedUnique(a[1..], b[1..]);
      assert a == [a[0]] + a[1..] && b == [b[0]] + b[1..];
    } else {
      FirstIsElement(b);
    }
  }
}
