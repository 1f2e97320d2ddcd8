/** Shared vocabulary: optional values, results, the error taxonomy and
    Go maps represented as sequences of key/value entries. */
module Common {

  /** Go's byte slices and strings: one `char` stands for one byte. */
  type Bytes = seq<char>

  datatype Option<T> = None | Some(value: T)

  /** The errors the builder can return. */
  datatype Error =
    | MalformedDocument                       // yaml.Unmarshal failed
    | InvalidBase64(key: string)              // base64 decoding of a payload failed
    | NoUniqueObjectFilenames                 // "no unique filename for k8s objects"
    | NoUniqueConfigMapFilenames              // "no unique filename for config map objects"
    | NoUniqueSecretFilenames                 // "no unique filename for secret objects"
    | WriteFailed(dir: string, name: string)  // the file sink refused a write

  datatype Result<T> = Ok(value: T) | Err(error: Error)

  /** One key/value pair of a Go map; the sequence order stands for the
      (unspecified) iteration order of the map. */
  datatype Entry<V> = Entry(key: string, value: V)

  predicate DistinctKeys<V>(es: seq<Entry<V>>) {
    forall i, j :: 0 <= i < j < |es| ==> es[i].key != es[j].key
  }

  predicate HasKey<V>(es: seq<Entry<V>>, k: string) {
    exists i :: 0 <= i < |es| && es[i].key == k
  }

  /** `m[k]` with the comma-ok form: the first entry with key `k`. */
  function Lookup<V>(es: seq<Entry<V>>, k: string): (r: Option<V>)
    ensures r.None? <==> !HasKey(es, k)
    ensures r.Some? ==> exists i :: 0 <= i < |es| && es[i].key == k && es[i].value == r.value
    ensures DistinctKeys(es) ==> forall i :: 0 <= i < |es| && es[i].key == k ==> r == Some(es[i].value)
  {
    if es == [] then None
    else if es[0].key == k then Some(es[0].value)
    else
      var r := Lookup(es[1..], k);
      assert forall i :: 1 <= i < |es| ==> es[i] == es[1..][i - 1];
      r
  }

  predicate Distinct<T(==)>(s: seq<T>) {
    forall i, j :: 0 <= i < j < |s| ==> s[i] != s[j]
  }

  function Elements<T(==)>(s: seq<T>): set<T> {
    set x | x in s
  }

  lemma InElements<T>(s: seq<T>, x: T)
    ensures x in s <==> x in Elements(s)
  {
  }

  lemma ConcatAssoc<T>(a: seq<T>, b: seq<T>, c: seq<T>)
    ensures (a + b) + c == a + (b + c)
  {
  }

  /** The element at `f` of the middle part, with what surrounds it. */
  lemma SplitAround<T>(front: seq<T>, mid: seq<T>, tail: seq<T>, f: nat)
    requires f < |mid|
    ensures front + mid + tail == front + mid[..f] + [mid[f]] + (mid[f + 1..] + tail)
  {
    assert mid == mid[..f] + [mid[f]] + mid[f + 1..];
  }
}
