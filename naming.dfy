/** File-name strategies and the string helpers they use
    (kustomization.go:290-407). */
module Naming {
  import opened Common
  import opened GoStrings
  import opened Objects

  const InstanceLabel: string := "app.kubernetes.io/instance"

  // ---------------------------------------------------------------------
  // Loose comparison: '-' and '_' are interchangeable

  /** `charEqual`. */
  predicate CharEqual(a: char, b: char) {
    a == b || (a == '-' && b == '_') || (a == '_' && b == '-')
  }

  lemma CharEqualIsEquivalence(a: char, b: char, c: char)
    ensures CharEqual(a, a)
    ensures CharEqual(a, b) ==> CharEqual(b, a)
    ensures CharEqual(a, b) && CharEqual(b, c) ==> CharEqual(a, c)
  {
  }

  /** `s` starts with `prefix` up to `charEqual`. */
  predicate HasLoosePrefix(s: string, prefix: string) {
    |prefix| <= |s| && forall i :: 0 <= i < |prefix| ==> CharEqual(s[i], prefix[i])
  }

  /** What `trimPrefix` returns: a suffix of `s`, shorter by exactly the
      prefix when `s` loosely starts with it, and `s` itself otherwise. */
  function Trimmed(s: string, prefix: string): (r: string)
    ensures |r| <= |s| && r == s[|s| - |r|..]
    ensures HasLoosePrefix(s, prefix) ==> |r| == |s| - |prefix|
    ensures !HasLoosePrefix(s, prefix) ==> r == s
  {
    if HasLoosePrefix(s, prefix) then s[|prefix|..] else s
  }

  /** `trimPrefix`. */
  method TrimPrefix(s: string, prefix: string) returns (r: string)
    ensures r == Trimmed(s, prefix)
  {
    if |s| < |prefix| {
      return s;
    }
    var l := |prefix|;
    var i := 0;
    while i < l
      invariant 0 <= i <= l
      invariant forall j :: 0 <= j < i ==> CharEqual(s[j], prefix[j])
    {
      if !CharEqual(s[i], prefix[i]) {
        return s;
      }
      i := i + 1;
    }
    return s[l..];
  }

  // ---------------------------------------------------------------------
  // Separators and common prefixes

  predicate IsSeparator(c: char) {
    c == '-' || c == '_'
  }

  /** `indexOfSeparator`: one past the last '-' or '_', or -1 if there is none. */
  function IndexOfSeparator(s: string): (r: int)
    ensures r == -1 <==> forall k :: 0 <= k < |s| ==> !IsSeparator(s[k])
    ensures r != -1 ==> 1 <= r <= |s| && IsSeparator(s[r - 1])
    ensures r != -1 ==> forall k :: r <= k < |s| ==> !IsSeparator(s[k])
  {
    if s == [] then -1
    else if IsSeparator(s[|s| - 1]) then |s|
    else IndexOfSeparator(s[..|s| - 1])
  }

  /** The length of the shortest string. */
  function MinLen(strs: seq<string>): (m: nat)
    requires |strs| > 0
    ensures forall k :: 0 <= k < |strs| ==> m <= |strs[k]|
    ensures exists k :: 0 <= k < |strs| && m == |strs[k]|
  {
    if |strs| == 1 then |strs[0]|
    else
      var m := MinLen(strs[..|strs| - 1]);
      var last := |strs[|strs| - 1]|;
      assert forall k :: 0 <= k < |strs| - 1 ==> strs[..|strs| - 1][k] == strs[k];
      if last < m then last else m
  }

  /** Every string agrees with the first one at byte `i`, up to `charEqual`. */
  predicate AllMatchAt(strs: seq<string>, i: nat) {
    |strs| > 0 && i < MinLen(strs)
    && forall k :: 1 <= k < |strs| ==> CharEqual(strs[k][i], strs[0][i])
  }

  function MatchLength(strs: seq<string>, i: nat): (n: nat)
    requires |strs| > 0 && i <= MinLen(strs)
    ensures i <= n <= MinLen(strs)
    ensures forall j :: i <= j < n ==> AllMatchAt(strs, j)
    ensures n < MinLen(strs) ==> !AllMatchAt(strs, n)
    decreases MinLen(strs) - i
  {
    if i < MinLen(strs) && AllMatchAt(strs, i) then MatchLength(strs, i + 1) else i
  }

  /** What `longestCommonPrefix` returns: nothing for fewer than two strings;
      otherwise the longest prefix of the first string that every string
      starts with, up to `charEqual`. */
  function CommonPrefix(strs: seq<string>): (p: string)
    ensures |strs| < 2 ==> p == ""
    ensures |strs| >= 2 ==> |p| <= MinLen(strs) && p == strs[0][..|p|]
    ensures |strs| >= 2 ==> forall k :: 0 <= k < |strs| ==> HasLoosePrefix(strs[k], p)
    ensures |strs| >= 2 ==> forall i :: 0 <= i < |p| ==> AllMatchAt(strs, i)
    ensures |strs| >= 2 && |p| < MinLen(strs) ==> !AllMatchAt(strs, |p|)
  {
    if |strs| < 2 then ""
    else
      var p := strs[0][..MatchLength(strs, 0)];
      forall k | 0 <= k < |strs| ensures HasLoosePrefix(strs[k], p) {
        forall i | 0 <= i < |p| ensures CharEqual(strs[k][i], p[i]) {
          assert AllMatchAt(strs, i);
        }
      }
      p
  }

  /** A length up to which all strings match, and not one byte further, is
      the length of the common prefix. */
  lemma CommonPrefixLength(strs: seq<string>, n: nat)
    requires |strs| >= 2 && n <= MinLen(strs)
    requires forall i :: 0 <= i < n ==> AllMatchAt(strs, i)
    requires n < MinLen(strs) ==> !AllMatchAt(strs, n)
    ensures CommonPrefix(strs) == strs[0][..n]
  {
    var p := CommonPrefix(strs);
    assert |p| <= n || AllMatchAt(strs, n);
  }

  /** `longestCommonPrefix`. */
  method LongestCommonPrefix(strs: seq<string>) returns (p: string)
    ensures p == CommonPrefix(strs)
  {
    if |strs| == 0 {
      return "";
    }
    if |strs| == 1 {
      return "";
    }
    var minLen := |strs[0]|;
    var k := 1;
    while k < |strs|
      invariant 1 <= k <= |strs|
      invariant forall j :: 0 <= j < k ==> minLen <= |strs[j]|
      invariant exists j :: 0 <= j < k && minLen == |strs[j]|
    {
      if |strs[k]| < minLen {
        minLen := |strs[k]|;
      }
      k := k + 1;
    }
    assert minLen == MinLen(strs);
    var i := 0;
    while i < minLen
      invariant 0 <= i <= minLen
      invariant forall j :: 0 <= j < i ==> AllMatchAt(strs, j)
    {
      var c := strs[0][i];
      k := 1;
      while k < |strs|
        invariant 1 <= k <= |strs|
        invariant forall m :: 1 <= m < k ==> CharEqual(strs[m][i], c)
      {
        if !CharEqual(strs[k][i], c) {
          CommonPrefixLength(strs, i);
          return strs[0][..i];
        }
        k := k + 1;
      }
      i := i + 1;
    }
    CommonPrefixLength(strs, minLen);
    return strs[0][..minLen];
  }

  // ---------------------------------------------------------------------
  // Names derived from an object

  /** `getShortName`: the object's name, without a leading `<instance>-`
      when the instance label is set, with ':' replaced by '_'. */
  function ShortName(obj: K8sObject): string {
    var name := obj.metadata.name;
    var instance := Label(obj, InstanceLabel);
    var stripped := if instance != "" then Trimmed(name, instance + "-") else name;
    ReplaceByte(stripped, ':', '_')
  }

  /** The short name holds no ':'; it is the tail of the object's name with
      ':' replaced, shorter by exactly `<instance>-` when the name starts
      with it (taking - and _ as equal) and as long as the name otherwise. */
  lemma ShortNameShape(obj: K8sObject)
    ensures var r := ShortName(obj);
            && ':' !in r
            && var name := obj.metadata.name; |r| <= |name| && r == ReplaceByte(name[|name| - |r|..], ':', '_')
    ensures var r := ShortName(obj); var instance := Label(obj, InstanceLabel);
            instance != "" && HasLoosePrefix(obj.metadata.name, instance + "-")
            ==> |r| == |obj.metadata.name| - |instance| - 1
    ensures var r := ShortName(obj); var instance := Label(obj, InstanceLabel);
            instance == "" || !HasLoosePrefix(obj.metadata.name, instance + "-")
            ==> |r| == |obj.metadata.name|
  {
  }

  /** The strategies for plain objects, in the order they are tried. */
  datatype ObjectStrategy =
    | CRDFilename            // getCRDFilename
    | ShortFilenameByKind    // getK8sObjectShortFilenameByKind
    | ShortFilenameByName    // getK8sObjectShortFilenameByName
    | ShortFilenameByNameAndKind // getK8sObjectShortFilenameByNameAndKind
    | FilenameFull           // getK8sObjectFilenameFull

  const ObjectStrategies: seq<ObjectStrategy> :=
    [CRDFilename, ShortFilenameByKind, ShortFilenameByName, ShortFilenameByNameAndKind, FilenameFull]

  /** The strategies for the files of ConfigMap and Secret generators. */
  datatype FileStrategy =
    | ShortFilenameByKey         // getGeneratorObjectShortFilenameByKey
    | ShortFilenameByKeyAndKind  // getGeneratorObjectShortFilenameByKeyAndKind
    | FilenameByKeyAndName       // getGeneratorObjectFilenameByKeyAndName
    | GeneratorFilenameFull      // getGeneratorObjectFilenameFull

  const FileStrategies: seq<FileStrategy> :=
    [ShortFilenameByKey, ShortFilenameByKeyAndKind, FilenameByKeyAndName, GeneratorFilenameFull]

  /** The kind qualified by the API group, as `getK8sObjectFilenameFull`
      builds it: core `v1` objects keep the bare kind. */
  function QualifiedKind(obj: K8sObject): string {
    var kind := ToLower(obj.kind);
    if '.' !in obj.apiVersion && HasSuffix(obj.apiVersion, "/v1") then
      TrimSuffix(obj.apiVersion, "/v1") + "_" + kind
    else if obj.apiVersion != "v1" then
      ReplaceByte(obj.apiVersion, '/', '_') + "_" + kind
    else kind
  }

  function ObjectFilename(s: ObjectStrategy, obj: K8sObject): string {
    match s
    case CRDFilename =>
      if obj.spec.group == "" || obj.spec.names.plural == "" then ""
      else obj.spec.group + "_" + obj.spec.names.plural + ".yaml"
    case ShortFilenameByKind => ToLower(obj.kind) + ".yaml"
    case ShortFilenameByName => ShortName(obj) + ".yaml"
    case ShortFilenameByNameAndKind => ShortName(obj) + "_" + ToLower(obj.kind) + ".yaml"
    case FilenameFull => ShortName(obj) + "_" + QualifiedKind(obj) + ".yaml"
  }

  function FileFilename(s: FileStrategy, obj: K8sObject, key: string): string {
    match s
    case ShortFilenameByKey => key
    case ShortFilenameByKeyAndKind => ToLower(obj.kind) + "_" + key
    case FilenameByKeyAndName => ShortName(obj) + "_" + key
    case GeneratorFilenameFull => ShortName(obj) + "_" + ToLower(obj.kind) + "_" + key
  }

  /** Only the CRD strategy can produce an empty name, and it does exactly
      when the group or the plural is missing; so it rejects every batch
      holding an object that is not a complete CRD. */
  lemma ObjectFilenameEmpty(s: ObjectStrategy, obj: K8sObject)
    ensures ObjectFilename(s, obj) == ""
            <==> s == CRDFilename && (obj.spec.group == "" || obj.spec.names.plural == "")
  {
    if s != CRDFilename || (obj.spec.group != "" && obj.spec.names.plural != "") {
      assert |ObjectFilename(s, obj)| >= 5;
    }
  }

  /** Every non-empty object file name, of any strategy, ends in ".yaml". */
  lemma ObjectFilenameIsYaml(s: ObjectStrategy, obj: K8sObject)
    requires ObjectFilename(s, obj) != ""
    ensures HasSuffix(ObjectFilename(s, obj), ".yaml")
  {
  }

  /** A file name is empty only under the by-key strategy with an empty key. */
  lemma FileFilenameEmpty(s: FileStrategy, obj: K8sObject, key: string)
    ensures FileFilename(s, obj, key) == "" <==> s == ShortFilenameByKey && key == ""
  {
    if s != ShortFilenameByKey {
      assert |FileFilename(s, obj, key)| > 0;
    }
  }
}
