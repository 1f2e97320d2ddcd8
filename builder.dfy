/** The builder of builder.go: it reads the documents of a stream, routes
    each object to the directory its labels name, turns ConfigMaps and
    Secrets into file groups, and builds every directory in sorted order.
    The state is a map from directory to `KustomizationBuilder`; its
    abstract value is a map from directory to `DirContents`. */
module Builder {
  import opened Common
  import opened GoStrings
  import opened Objects
  import opened Scanner
  import opened StringOrder
  import opened Base64
  import opened Output
  import opened Kustomization

  // ---------------------------------------------------------------------
  // Routing

  const CrdDir: string := "crd"

  /** The labels that name a directory, in order of priority. */
  const DirLabels: seq<string> := ["app.kubernetes.io/component", "component", "app.kubernetes.io/name", "app"]

  predicate IsCRD(obj: K8sObject) {
    obj.apiVersion == "apiextensions.k8s.io/v1" && obj.kind == "CustomResourceDefinition"
  }

  predicate IsConfigMap(obj: K8sObject) {
    obj.apiVersion == "v1" && obj.kind == "ConfigMap"
  }

  predicate IsSecret(obj: K8sObject) {
    obj.apiVersion == "v1" && obj.kind == "Secret"
  }

  /** The first of the labels `keys` that is set on the object, or "". */
  function FirstSetLabel(obj: K8sObject, keys: seq<string>): string
    decreases |keys|
  {
    if keys == [] then ""
    else if Label(obj, keys[0]) != "" then Label(obj, keys[0])
    else FirstSetLabel(obj, keys[1..])
  }

  /** `getTargetDir`. */
  function TargetDir(obj: K8sObject): string {
    if IsCRD(obj) then CrdDir else FirstSetLabel(obj, DirLabels)
  }

  /** The label chosen is set, and every label before it is not; "" means
      no label of the list is set. */
  lemma {:induction false} FirstSetLabelIsFirst(obj: K8sObject, keys: seq<string>)
    ensures FirstSetLabel(obj, keys) == "" <==> forall k :: 0 <= k < |keys| ==> Label(obj, keys[k]) == ""
    ensures FirstSetLabel(obj, keys) != "" ==>
              exists k :: 0 <= k < |keys| && FirstSetLabel(obj, keys) == Label(obj, keys[k])
                          && forall j :: 0 <= j < k ==> Label(obj, keys[j]) == ""
    decreases |keys|
  {
    if keys == [] {
    } else if Label(obj, keys[0]) != "" {
      assert FirstSetLabel(obj, keys) == Label(obj, keys[0]);
    } else {
      var rest := keys[1..];
      FirstSetLabelIsFirst(obj, rest);
      assert FirstSetLabel(obj, keys) == FirstSetLabel(obj, rest);
      assert forall k :: 1 <= k < |keys| ==> keys[k] == rest[k - 1];
      if FirstSetLabel(obj, rest) != "" {
        var k :| 0 <= k < |rest| && FirstSetLabel(obj, rest) == Label(obj, rest[k])
                 && forall j :: 0 <= j < k ==> Label(obj, rest[j]) == "";
        assert keys[k + 1] == rest[k];
        assert forall j :: 0 <= j < k + 1 ==> Label(obj, keys[j]) == "" by {
          forall j | 1 <= j < k + 1 ensures Label(obj, keys[j]) == "" {
            assert keys[j] == rest[j - 1];
          }
        }
      }
    }
  }

  /** CustomResourceDefinitions go to `crd` whatever their labels; any other
      object goes to the first directory label that is set, in priority
      order, and to the root when none is. */
  lemma TargetDirIsFirstSetLabel(obj: K8sObject)
    ensures IsCRD(obj) ==> TargetDir(obj) == CrdDir
    ensures !IsCRD(obj) ==>
              (TargetDir(obj) == "" <==> forall k :: 0 <= k < |DirLabels| ==> Label(obj, DirLabels[k]) == "")
    ensures !IsCRD(obj) && TargetDir(obj) != "" ==>
              exists k :: 0 <= k < |DirLabels| && TargetDir(obj) == Label(obj, DirLabels[k])
                          && forall j :: 0 <= j < k ==> Label(obj, DirLabels[j]) == ""
  {
    FirstSetLabelIsFirst(obj, DirLabels);
  }

  // ---------------------------------------------------------------------
  // File groups

  /** `files[key] = value` on a Go map held as entries: an existing key keeps
      its place and takes the new value, a new key is appended. */
  function Put(files: seq<Entry<Bytes>>, key: string, value: Bytes): (r: seq<Entry<Bytes>>)
    ensures forall x :: Lookup(r, x) == if x == key then Some(value) else Lookup(files, x)
  {
    if files == [] then [Entry(key, value)]
    else if files[0].key == key then
      var r := [Entry(key, value)] + files[1..];
      assert forall i :: 1 <= i < |files| ==> r[i] == files[i];
      r
    else
      var rest := Put(files[1..], key, value);
      assert forall i :: 1 <= i < |files| ==> files[i] == files[1..][i - 1];
      var r := [files[0]] + rest;
      assert forall i :: 1 <= i < |r| ==> r[i] == rest[i - 1];
      r
  }

  /** Putting a key keeps the keys of a map distinct. */
  lemma {:induction false} PutDistinct(files: seq<Entry<Bytes>>, key: string, value: Bytes)
    requires DistinctKeys(files)
    ensures DistinctKeys(Put(files, key, value))
    decreases |files|
  {
    var r := Put(files, key, value);
    if files != [] && files[0].key == key {
      assert forall i :: 0 <= i < |r| ==> r[i].key == files[i].key;
    } else if files != [] {
      var head := files[0];
      var tail := files[1..];
      var rest := Put(tail, key, value);
      assert DistinctKeys(tail);
      PutDistinct(tail, key, value);
      assert !HasKey(tail, head.key);
      assert Lookup(rest, head.key) == Lookup(tail, head.key);
      assert !HasKey(rest, head.key);
      assert r == [head] + rest;
      forall i, j | 0 <= i < j < |r| ensures r[i].key != r[j].key {
        if i > 0 {
          assert r[i] == rest[i - 1] && r[j] == rest[j - 1];
        } else {
          assert r[j] == rest[j - 1];
        }
      }
    }
  }

  /** The bytes a map value stands for: the string itself, or its standard
      base64 decoding (`None` when that fails). */
  function Payload(value: string, decode: bool): Option<Bytes> {
    if decode then DecodeString(value) else Some(value)
  }

  /** A `for key, value := range` loop that fills a file group, stopping at
      the first value that does not decode. */
  function PutEntries(files: seq<Entry<Bytes>>, es: seq<Entry<string>>, decode: bool): Result<seq<Entry<Bytes>>>
    decreases |es|
  {
    if es == [] then Ok(files)
    else
      match PutEntries(files, es[..|es| - 1], decode)
      case Err(e) => Err(e)
      case Ok(f) =>
        var e := es[|es| - 1];
        match Payload(e.value, decode)
        case None => Err(InvalidBase64(e.key))
        case Some(b) => Ok(Put(f, e.key, b))
  }

  /** Filling succeeds exactly when every value decodes. */
  lemma {:induction false} PutEntriesOk(files: seq<Entry<Bytes>>, es: seq<Entry<string>>, decode: bool)
    ensures PutEntries(files, es, decode).Ok? <==> forall i :: 0 <= i < |es| ==> Payload(es[i].value, decode).Some?
    decreases |es|
  {
    if es != [] {
      var init := es[..|es| - 1];
      PutEntriesOk(files, init, decode);
      assert forall i :: 0 <= i < |init| ==> init[i] == es[i];
    }
  }

  /** A failed filling names the first value that does not decode. */
  lemma {:induction false} PutEntriesErr(files: seq<Entry<Bytes>>, es: seq<Entry<string>>, decode: bool)
    requires PutEntries(files, es, decode).Err?
    ensures exists i :: 0 <= i < |es| && Payload(es[i].value, decode).None?
                        && PutEntries(files, es, decode).error == InvalidBase64(es[i].key)
                        && forall j :: 0 <= j < i ==> Payload(es[j].value, decode).Some?
    decreases |es|
  {
    var init := es[..|es| - 1];
    var i := |es| - 1;
    if PutEntries(files, init, decode).Err? {
      PutEntriesErr(files, init, decode);
      i :| 0 <= i < |init| && Payload(init[i].value, decode).None?
           && PutEntries(files, init, decode).error == InvalidBase64(init[i].key)
           && forall j :: 0 <= j < i ==> Payload(init[j].value, decode).Some?;
      assert forall j :: 0 <= j <= i ==> init[j] == es[j];
    } else {
      PutEntriesOk(files, init, decode);
      assert forall j :: 0 <= j < i ==> init[j] == es[j];
    }
  }

  /** The last of distinct keys is found in its own place. */
  lemma LookupSnoc<V>(es: seq<Entry<V>>, x: string)
    requires es != [] && DistinctKeys(es)
    ensures var init := es[..|es| - 1]; var e := es[|es| - 1];
            Lookup(es, x) == if x == e.key then Some(e.value) else Lookup(init, x)
  {
    var init := es[..|es| - 1];
    assert forall i :: 0 <= i < |init| ==> init[i] == es[i];
    if x != es[|es| - 1].key && HasKey(es, x) {
      var i :| 0 <= i < |es| && es[i].key == x;
      assert init[i].key == x;
    }
  }

  /** After filling, a key of the entries maps to its payload and any other
      key keeps its earlier value; keys stay distinct. */
  lemma {:induction false} PutEntriesLookup(files: seq<Entry<Bytes>>, es: seq<Entry<string>>, decode: bool)
    requires DistinctKeys(es)
    requires PutEntries(files, es, decode).Ok?
    ensures var r := PutEntries(files, es, decode).value;
            && (DistinctKeys(files) ==> DistinctKeys(r))
            && forall x :: Lookup(r, x) == match Lookup(es, x)
                                             case None => Lookup(files, x)
                                             case Some(v) => Payload(v, decode)
    decreases |es|
  {
    if es != [] {
      var init := es[..|es| - 1];
      var e := es[|es| - 1];
      assert DistinctKeys(init);
      PutEntriesLookup(files, init, decode);
      var f := PutEntries(files, init, decode).value;
      if DistinctKeys(files) {
        PutDistinct(f, e.key, Payload(e.value, decode).value);
      }
      forall x ensures Lookup(es, x) == if x == e.key then Some(e.value) else Lookup(init, x) {
        LookupSnoc(es, x);
      }
    }
  }

  /** The files of a ConfigMap: its `data` as bytes, then its decoded
      `binaryData`. */
  function ConfigMapFiles(obj: K8sObject): Result<seq<Entry<Bytes>>> {
    match PutEntries([], obj.data, false)
    case Err(e) => Err(e)
    case Ok(f) => PutEntries(f, obj.binaryData, true)
  }

  /** The files of a Secret: its decoded `data`, then its `stringData` as
      bytes. */
  function SecretFiles(obj: K8sObject): Result<seq<Entry<Bytes>>> {
    match PutEntries([], obj.data, true)
    case Err(e) => Err(e)
    case Ok(f) => PutEntries(f, obj.stringData, false)
  }

  /** A ConfigMap's group exists exactly when all of `binaryData` decodes; it
      maps each key to its decoded `binaryData` value, which wins over a
      `data` value of the same key, and else to its `data` value. */
  lemma ConfigMapFilesLookup(obj: K8sObject)
    requires DistinctKeys(obj.data) && DistinctKeys(obj.binaryData)
    ensures ConfigMapFiles(obj).Ok? <==>
              forall i :: 0 <= i < |obj.binaryData| ==> DecodeString(obj.binaryData[i].value).Some?
    ensures ConfigMapFiles(obj).Ok? ==>
              var files := ConfigMapFiles(obj).value;
              && DistinctKeys(files)
              && forall x :: Lookup(files, x) == match Lookup(obj.binaryData, x)
                                                 case Some(v) => DecodeString(v)
                                                 case None => Lookup(obj.data, x)
  {
    PutEntriesOk([], obj.data, false);
    PutEntriesLookup([], obj.data, false);
    var f := PutEntries([], obj.data, false).value;
    PutEntriesOk(f, obj.binaryData, true);
    if PutEntries(f, obj.binaryData, true).Ok? {
      PutEntriesLookup(f, obj.binaryData, true);
    }
  }

  /** A Secret's group exists exactly when all of `data` decodes; it maps
      each key to its `stringData` value, which wins over a `data` value of
      the same key, and else to its decoded `data` value. */
  lemma SecretFilesLookup(obj: K8sObject)
    requires DistinctKeys(obj.data) && DistinctKeys(obj.stringData)
    ensures SecretFiles(obj).Ok? <==>
              forall i :: 0 <= i < |obj.data| ==> DecodeString(obj.data[i].value).Some?
    ensures SecretFiles(obj).Ok? ==>
              var files := SecretFiles(obj).value;
              && DistinctKeys(files)
              && forall x :: Lookup(files, x) == match Lookup(obj.stringData, x)
                                                 case Some(v) => Some(v)
                                                 case None => match Lookup(obj.data, x)
                                                              case Some(v) => DecodeString(v)
                                                              case None => None
  {
    PutEntriesOk([], obj.data, true);
    if PutEntries([], obj.data, true).Ok? {
      PutEntriesLookup([], obj.data, true);
      var f := PutEntries([], obj.data, true).value;
      PutEntriesOk(f, obj.stringData, false);
      PutEntriesLookup(f, obj.stringData, false);
    }
  }

  // ---------------------------------------------------------------------
  // The directories and what each object adds to them

  /** What an object becomes in its directory. */
  datatype Item = Resource(obj: K8sObject) | ConfigMapGroup(group: FilesObject) | SecretGroup(group: FilesObject)

  /** `handleResourceType`: v1 ConfigMaps and Secrets become file groups (or
      the decoding error); every other object, CRDs included, is a plain
      resource. */
  function Classify(obj: K8sObject): Result<Item> {
    if IsConfigMap(obj) then
      match ConfigMapFiles(obj)
      case Err(e) => Err(e)
      case Ok(files) => Ok(ConfigMapGroup(FilesObject(obj, files)))
    else if IsSecret(obj) then
      match SecretFiles(obj)
      case Err(e) => Err(e)
      case Ok(files) => Ok(SecretGroup(FilesObject(obj, files)))
    else Ok(Resource(obj))
  }

  /** Only a ConfigMap or a Secret can fail, and only on a payload that does
      not decode; the item always carries the object itself. */
  lemma ClassifyOutcome(obj: K8sObject)
    ensures Classify(obj).Err? ==> (IsConfigMap(obj) || IsSecret(obj)) && Classify(obj).error.InvalidBase64?
    ensures Classify(obj).Ok? ==>
              match Classify(obj).value
              case Resource(o) => o == obj && !IsConfigMap(obj) && !IsSecret(obj)
              case ConfigMapGroup(g) => g.k8sObject == obj && IsConfigMap(obj)
              case SecretGroup(g) => g.k8sObject == obj && IsSecret(obj)
  {
    if IsConfigMap(obj) {
      FillingFails([], obj.data, false, obj.binaryData, true);
    } else if IsSecret(obj) {
      FillingFails([], obj.data, true, obj.stringData, false);
    }
  }

  /** Two fillings in a row can only fail on a payload. */
  lemma FillingFails(files: seq<Entry<Bytes>>, first: seq<Entry<string>>, d1: bool, second: seq<Entry<string>>, d2: bool)
    ensures PutEntries(files, first, d1).Err? ==> PutEntries(files, first, d1).error.InvalidBase64?
    ensures PutEntries(files, first, d1).Ok? && PutEntries(PutEntries(files, first, d1).value, second, d2).Err? ==>
              PutEntries(PutEntries(files, first, d1).value, second, d2).error.InvalidBase64?
  {
    var f := PutEntries(files, first, d1);
    if f.Err? {
      PutEntriesErr(files, first, d1);
    } else if PutEntries(f.value, second, d2).Err? {
      PutEntriesErr(f.value, second, d2);
    }
  }

  /** The matching `Add*` of `kustomizationBuilder`. */
  function AddItem(c: DirContents, item: Item): (r: DirContents)
    ensures r.resources == c.resources
  {
    match item
    case Resource(obj) => c.(objects := c.objects + [obj])
    case ConfigMapGroup(g) => c.(configMaps := c.configMaps + [g])
    case SecretGroup(g) => c.(secrets := c.secrets + [g])
  }

  /** Each list of `c` is a prefix of the same list of `d`. */
  predicate Extends(c: DirContents, d: DirContents) {
    && |c.objects| <= |d.objects| && d.objects[..|c.objects|] == c.objects
    && |c.configMaps| <= |d.configMaps| && d.configMaps[..|c.configMaps|] == c.configMaps
    && |c.secrets| <= |d.secrets| && d.secrets[..|c.secrets|] == c.secrets
    && |c.resources| <= |d.resources| && d.resources[..|c.resources|] == c.resources
  }

  /** No directory is lost and no list shrinks. */
  predicate Grows(st: map<string, DirContents>, st': map<string, DirContents>) {
    st.Keys <= st'.Keys && forall d :: d in st ==> Extends(st[d], st'[d])
  }

  lemma GrowsTransitive(a: map<string, DirContents>, b: map<string, DirContents>, c: map<string, DirContents>)
    requires Grows(a, b) && Grows(b, c)
    ensures Grows(a, c)
  {
    forall d | d in a ensures Extends(a[d], c[d]) {
      var x, y, z := a[d], b[d], c[d];
      assert c[d].objects[..|x.objects|] == z.objects[..|y.objects|][..|x.objects|];
      assert c[d].configMaps[..|x.configMaps|] == z.configMaps[..|y.configMaps|][..|x.configMaps|];
      assert c[d].secrets[..|x.secrets|] == z.secrets[..|y.secrets|][..|x.secrets|];
      assert c[d].resources[..|x.resources|] == z.resources[..|y.resources|][..|x.resources|];
    }
  }

  /** The registry invariant: the root exists, and its `resources` list
      every other directory exactly once and never the root itself. */
  predicate Registry(st: map<string, DirContents>) {
    "" in st && Distinct(st[""].resources) && Elements(st[""].resources) == st.Keys - {""}
  }

  /** The directories of a fresh `Builder`. */
  const InitialDirs: map<string, DirContents> := map["" := EmptyDir]

  lemma InitialRegistry()
    ensures Registry(InitialDirs)
  {
  }

  /** `getKustomization`'s effect: a directory seen for the first time is
      created empty and appended to the root's `resources`. */
  function Ensure(st: map<string, DirContents>, dir: string): (r: map<string, DirContents>)
    requires Registry(st)
    ensures Registry(r)
  {
    if dir in st then st
    else
      var root := st[""];
      assert Elements(root.resources + [dir]) == Elements(root.resources) + {dir};
      st[dir := EmptyDir][""  := root.(resources := root.resources + [dir])]
  }

  /** Only the new directory and the root's `resources` change; nothing is
      lost. */
  lemma EnsureEffect(st: map<string, DirContents>, dir: string)
    requires Registry(st)
    ensures var r := Ensure(st, dir);
            && r.Keys == st.Keys + {dir}
            && (dir !in st ==> r[dir] == EmptyDir && r[""].resources == st[""].resources + [dir])
            && (forall d :: d in st && d != "" ==> r[d] == st[d])
            && Grows(st, r)
  {
    var r := Ensure(st, dir);
    if dir !in st {
      var root := st[""];
      assert r[""].resources[..|root.resources|] == root.resources;
      assert r[""] == root.(resources := root.resources + [dir]);
      forall d | d in st ensures Extends(st[d], r[d]) {
        if d != "" {
          ExtendsReflexive(st[d]);
        }
      }
    } else {
      forall d | d in st ensures Extends(st[d], r[d]) {
        ExtendsReflexive(st[d]);
      }
    }
  }

  lemma ExtendsReflexive(c: DirContents)
    ensures Extends(c, c)
  {
    assert c.objects[..|c.objects|] == c.objects;
    assert c.configMaps[..|c.configMaps|] == c.configMaps;
    assert c.secrets[..|c.secrets|] == c.secrets;
    assert c.resources[..|c.resources|] == c.resources;
  }

  /** A second object for the same directory registers nothing new. */
  lemma EnsureIdempotent(st: map<string, DirContents>, dir: string)
    requires Registry(st)
    ensures Ensure(Ensure(st, dir), dir) == Ensure(st, dir)
  {
  }

  /** The item placed in its directory, created first if need be. */
  function Place(st: map<string, DirContents>, dir: string, item: Item): (r: map<string, DirContents>)
    requires Registry(st)
    ensures Registry(r)
  {
    var s := Ensure(st, dir);
    EnsureEffect(st, dir);
    s[dir := AddItem(s[dir], item)]
  }

  lemma PlaceGrows(st: map<string, DirContents>, dir: string, item: Item)
    requires Registry(st)
    ensures Grows(st, Place(st, dir, item)) && Place(st, dir, item).Keys == st.Keys + {dir}
  {
    var s := Ensure(st, dir);
    EnsureEffect(st, dir);
    AddItemGrows(s, dir, item);
    GrowsTransitive(st, s, Place(st, dir, item));
  }

  lemma AddItemGrows(s: map<string, DirContents>, dir: string, item: Item)
    requires dir in s
    ensures Grows(s, s[dir := AddItem(s[dir], item)])
  {
    var r := s[dir := AddItem(s[dir], item)];
    var c := s[dir];
    assert r[dir].objects[..|c.objects|] == c.objects;
    assert r[dir].configMaps[..|c.configMaps|] == c.configMaps;
    assert r[dir].secrets[..|c.secrets|] == c.secrets;
    assert forall d :: d in s ==> Extends(s[d], r[d]) by {
      forall d | d in s ensures Extends(s[d], r[d]) {
        if d != dir {
          ExtendsReflexive(s[d]);
        }
      }
    }
  }

  /** `handleResourceType` on the abstract state. */
  function Handle(st: map<string, DirContents>, obj: K8sObject): (r: Result<map<string, DirContents>>)
    requires Registry(st)
    ensures r.Ok? ==> Registry(r.value)
  {
    match Classify(obj)
    case Err(e) => Err(e)
    case Ok(item) => Ok(Place(st, TargetDir(obj), item))
  }

  /** Adding an object touches its own directory and, when that directory is
      new, the root; every other directory is left as it was. */
  lemma HandleTouchesOneDirectory(st: map<string, DirContents>, obj: K8sObject)
    requires Registry(st) && Handle(st, obj).Ok?
    ensures var r := Handle(st, obj).value;
            && Grows(st, r) && r.Keys == st.Keys + {TargetDir(obj)}
            && forall d :: d in st && d != TargetDir(obj) && d != "" ==> r[d] == st[d]
    ensures var r := Handle(st, obj).value; var dir := TargetDir(obj);
            dir != "" ==> r[""].objects == st[""].objects && r[""].configMaps == st[""].configMaps
                          && r[""].secrets == st[""].secrets
  {
    var dir := TargetDir(obj);
    EnsureEffect(st, dir);
    PlaceGrows(st, dir, Classify(obj).value);
  }

  // ---------------------------------------------------------------------
  // Processing a stream

  /** An object is kept when it has a kind, an API version and a name. */
  predicate Kept(obj: K8sObject) {
    obj.kind != "" && obj.apiVersion != "" && obj.metadata.name != ""
  }

  /** `parseYAMLObject`, with `yaml.Unmarshal` given as `decode`: `Ok(None)`
      is a document to skip. */
  function ParseYAMLObject(decode: Bytes -> Option<K8sObject>, data: Bytes): (r: Result<Option<K8sObject>>)
    ensures r.Err? <==> decode(data).None?
    ensures r.Err? ==> r.error == MalformedDocument
    ensures r.Ok? && r.value.Some? <==> decode(data).Some? && Kept(decode(data).value)
    ensures r.Ok? && r.value.Some? ==> r.value.value == decode(data).value
  {
    match decode(data)
    case None => Err(MalformedDocument)
    case Some(obj) => if obj.kind == "" || obj.apiVersion == "" || obj.metadata.name == "" then Ok(None) else Ok(Some(obj))
  }

  /** One iteration of `Process` on a document the scanner yielded. */
  function Step(decode: Bytes -> Option<K8sObject>, st: map<string, DirContents>, doc: Bytes): (r: Result<map<string, DirContents>>)
    requires Registry(st)
    ensures r.Ok? ==> Registry(r.value)
  {
    var data := TrimSpace(doc);
    if |data| == 0 then Ok(st)
    else
      match ParseYAMLObject(decode, data)
      case Err(e) => Err(e)
      case Ok(None) => Ok(st)
      case Ok(Some(obj)) => Handle(st, obj.(raw := data))
  }

  /** Blank documents and objects without kind, API version or name are
      skipped without error; a kept object is handled with its trimmed text
      as `raw`. */
  lemma StepSkipsOrKeeps(decode: Bytes -> Option<K8sObject>, st: map<string, DirContents>, doc: Bytes)
    requires Registry(st)
    ensures (forall k :: 0 <= k < |doc| ==> IsSpace(doc[k])) ==> Step(decode, st, doc) == Ok(st)
    ensures var data := TrimSpace(doc);
            data != [] && decode(data).Some? && !Kept(decode(data).value) ==> Step(decode, st, doc) == Ok(st)
    ensures var data := TrimSpace(doc);
            data != [] && decode(data).Some? && Kept(decode(data).value) ==>
              && !IsSpace(data[0]) && !IsSpace(data[|data| - 1])
              && Step(decode, st, doc) == Handle(st, decode(data).value.(raw := data))
  {
  }

  /** Where `Process` stands: the directories so far and the error that
      stopped it, if any. */
  datatype Progress = Progress(state: map<string, DirContents>, err: Option<Error>)

  /** `Process` over a list of documents, stopping at the first error with
      the state the earlier documents left. */
  function ProcessDocs(decode: Bytes -> Option<K8sObject>, st: map<string, DirContents>, docs: seq<Bytes>): (p: Progress)
    requires Registry(st)
    ensures Registry(p.state)
    decreases |docs|
  {
    if docs == [] then Progress(st, None)
    else
      var p := ProcessDocs(decode, st, docs[..|docs| - 1]);
      if p.err.Some? then p
      else
        match Step(decode, p.state, docs[|docs| - 1])
        case Err(e) => Progress(p.state, Some(e))
        case Ok(s) => Progress(s, None)
  }

  /** One more document: processing goes on from where the others left it,
      unless they already failed. */
  lemma ProcessDocsSnoc(decode: Bytes -> Option<K8sObject>, st: map<string, DirContents>, docs: seq<Bytes>, d: Bytes)
    requires Registry(st)
    ensures var p := ProcessDocs(decode, st, docs);
            ProcessDocs(decode, st, docs + [d])
            == if p.err.Some? then p
               else match Step(decode, p.state, d)
                    case Err(e) => Progress(p.state, Some(e))
                    case Ok(s) => Progress(s, None)
  {
    assert (docs + [d])[..|docs|] == docs;
  }

  /** Processing never loses a directory nor shortens a list. */
  lemma {:induction false} ProcessDocsGrows(decode: Bytes -> Option<K8sObject>, st: map<string, DirContents>, docs: seq<Bytes>)
    requires Registry(st)
    ensures Grows(st, ProcessDocs(decode, st, docs).state)
    decreases |docs|
  {
    if docs == [] {
      forall d | d in st ensures Extends(st[d], st[d]) {
        ExtendsReflexive(st[d]);
      }
    } else {
      var init := docs[..|docs| - 1];
      ProcessDocsGrows(decode, st, init);
      var p := ProcessDocs(decode, st, init);
      if p.err.None? && Step(decode, p.state, docs[|docs| - 1]).Ok? {
        StepGrows(decode, p.state, docs[|docs| - 1]);
        GrowsTransitive(st, p.state, Step(decode, p.state, docs[|docs| - 1]).value);
      }
    }
  }

  lemma StepGrows(decode: Bytes -> Option<K8sObject>, st: map<string, DirContents>, doc: Bytes)
    requires Registry(st) && Step(decode, st, doc).Ok?
    ensures Grows(st, Step(decode, st, doc).value)
  {
    var data := TrimSpace(doc);
    if |data| != 0 && ParseYAMLObject(decode, data) != Ok(None) {
      HandleTouchesOneDirectory(st, ParseYAMLObject(decode, data).value.value.(raw := data));
    } else {
      forall d | d in st ensures Extends(st[d], st[d]) {
        ExtendsReflexive(st[d]);
      }
    }
  }

  /** Processing two streams in a row is processing the first and, if that
      succeeded, the second from where the first left off. */
  lemma {:induction false} ProcessDocsAppend(decode: Bytes -> Option<K8sObject>, st: map<string, DirContents>, a: seq<Bytes>, b: seq<Bytes>)
    requires Registry(st)
    ensures var p := ProcessDocs(decode, st, a);
            ProcessDocs(decode, st, a + b) == if p.err.Some? then p else ProcessDocs(decode, p.state, b)
    decreases |b|
  {
    if b == [] {
      assert a + b == a;
    } else {
      var init := b[..|b| - 1];
      assert (a + b)[..|a + b| - 1] == a + init;
      ProcessDocsAppend(decode, st, a, init);
    }
  }

  /** The scanner's next token, when there is one, is the next document. */
  lemma DocumentsNext(input: Bytes, seen: seq<Bytes>, rest: Bytes)
    requires |rest| > 0 && SplitYAMLDocument(rest, true).token.Some?
    requires Documents(input) == seen + Documents(rest)
    ensures var split := SplitYAMLDocument(rest, true);
            Documents(input) == (seen + [split.token.value]) + Documents(rest[split.advance..])
  {
  }

  // ---------------------------------------------------------------------
  // Building every directory

  datatype BuildOutcome = BuildOutcome(written: seq<FileWrite>, err: Option<Error>)

  /** What each directory's `Build` attempts, in the order given. */
  function DirPlans(st: map<string, DirContents>, ds: seq<string>): (plans: seq<Result<seq<FileWrite>>>)
    requires forall k :: 0 <= k < |ds| ==> ds[k] in st
    ensures |plans| == |ds|
  {
    seq(|ds|, k requires 0 <= k < |ds| => Plan(ds[k], st[ds[k]]))
  }

  /** The directories' plans carried out in order, stopping at the first
      error; what earlier directories wrote stays written. */
  function BuildRun(fails: FileWrite -> bool, plans: seq<Result<seq<FileWrite>>>): BuildOutcome
    decreases |plans|
  {
    if plans == [] then BuildOutcome([], None)
    else
      var p := BuildRun(fails, plans[..|plans| - 1]);
      if p.err.Some? then p
      else
        match plans[|plans| - 1]
        case Err(e) => BuildOutcome(p.written, Some(e))
        case Ok(ws) =>
          var o := Perform(fails, ws);
          BuildOutcome(p.written + o.written, FailureError(o))
  }

  /** One more directory built after the earlier ones succeeded: the record
      and the error are those of the run one plan longer. */
  lemma BuildRunNext(fails: FileWrite -> bool, plans: seq<Result<seq<FileWrite>>>, i: nat, base: seq<FileWrite>,
                     before: seq<FileWrite>, after: seq<FileWrite>, err: Option<Error>)
    requires i < |plans| && BuildRun(fails, plans[..i]).err.None?
    requires before == base + BuildRun(fails, plans[..i]).written
    requires plans[i].Err? ==> err == Some(plans[i].error) && after == before
    requires plans[i].Ok? ==>
               after == before + Perform(fails, plans[i].value).written && err == FailureError(Perform(fails, plans[i].value))
    ensures after == base + BuildRun(fails, plans[..i + 1]).written
    ensures err == BuildRun(fails, plans[..i + 1]).err
  {
    var p := BuildRun(fails, plans[..i]);
    var q := plans[..i + 1];
    assert q[..|q| - 1] == plans[..i] && q[|q| - 1] == plans[i];
    if plans[i].Ok? {
      var o := Perform(fails, plans[i].value);
      assert BuildRun(fails, q) == BuildOutcome(p.written + o.written, FailureError(o));
      ConcatAssoc(base, p.written, o.written);
    } else {
      assert BuildRun(fails, q) == BuildOutcome(p.written, Some(plans[i].error));
    }
  }

  /** Once a prefix of the plans fails, the run stops there. */
  lemma {:induction false} BuildRunStops(fails: FileWrite -> bool, plans: seq<Result<seq<FileWrite>>>, k: nat)
    requires k <= |plans| && BuildRun(fails, plans[..k]).err.Some?
    ensures BuildRun(fails, plans) == BuildRun(fails, plans[..k])
    decreases |plans|
  {
    if k == |plans| {
      assert plans[..k] == plans;
    } else {
      var n := |plans| - 1;
      assert plans[..n][..k] == plans[..k];
      BuildRunStops(fails, plans[..n], k);
    }
  }

  /** Each plan writes into its own directory under distinct names. */
  predicate PlansConfined(plans: seq<Result<seq<FileWrite>>>, ds: seq<string>)
    requires |plans| == |ds|
  {
    forall k :: 0 <= k < |plans| && plans[k].Ok? ==> InDir(plans[k].value, ds[k]) && Distinct(WriteNames(plans[k].value))
  }

  lemma DirPlansConfined(st: map<string, DirContents>, ds: seq<string>)
    requires forall k :: 0 <= k < |ds| ==> ds[k] in st
    ensures PlansConfined(DirPlans(st, ds), ds)
  {
    forall k | 0 <= k < |ds| && Plan(ds[k], st[ds[k]]).Ok?
      ensures InDir(Plan(ds[k], st[ds[k]]).value, ds[k]) && Distinct(WriteNames(Plan(ds[k], st[ds[k]]).value))
    {
      PlanWritesDistinct(ds[k], st[ds[k]]);
    }
  }

  /** Where a write lands. */
  datatype Target = Target(dir: string, name: string)

  function Targets(ws: seq<FileWrite>): seq<Target> {
    seq(|ws|, i requires 0 <= i < |ws| => Target(ws[i].dir, ws[i].name))
  }

  /** Every write of a run goes to one of the directories built. */
  lemma {:induction false} BuildRunInDirs(fails: FileWrite -> bool, plans: seq<Result<seq<FileWrite>>>, ds: seq<string>)
    requires |plans| == |ds| && PlansConfined(plans, ds)
    ensures forall i :: 0 <= i < |BuildRun(fails, plans).written| ==> BuildRun(fails, plans).written[i].dir in ds
    decreases |plans|
  {
    if plans != [] {
      var n := |plans| - 1;
      var front, init := plans[..n], ds[..n];
      forall k | 0 <= k < n && front[k].Ok?
        ensures InDir(front[k].value, init[k]) && Distinct(WriteNames(front[k].value))
      {
        assert front[k] == plans[k] && init[k] == ds[k];
      }
      BuildRunInDirs(fails, front, init);
      var p := BuildRun(fails, front);
      var ws := BuildRun(fails, plans).written;
      forall i | 0 <= i < |ws| ensures ws[i].dir in ds {
        if i < |p.written| {
          assert ws[i] == p.written[i] && p.written[i].dir in init;
          var j :| 0 <= j < n && init[j] == ws[i].dir;
          assert ds[j] == init[j];
        } else {
          assert p.err.None? && plans[n].Ok?;
          var o := Perform(fails, plans[n].value);
          assert ws == p.written + o.written;
          assert ws[i] == o.written[i - |p.written|] == plans[n].value[i - |p.written|];
          assert ws[i].dir == ds[n];
        }
      }
    }
  }

  /** Over distinct directories, no file is written twice. */
  lemma {:induction false} BuildRunDistinct(fails: FileWrite -> bool, plans: seq<Result<seq<FileWrite>>>, ds: seq<string>)
    requires |plans| == |ds| && PlansConfined(plans, ds) && Distinct(ds)
    ensures Distinct(Targets(BuildRun(fails, plans).written))
    decreases |plans|
  {
    if plans != [] {
      var n := |plans| - 1;
      var init := ds[..n];
      assert forall k :: 0 <= k < n ==> plans[..n][k] == plans[k] && init[k] == ds[k];
      BuildRunDistinct(fails, plans[..n], init);
      var p := BuildRun(fails, plans[..n]);
      if p.err.None? && plans[n].Ok? {
        BuildRunInDirs(fails, plans[..n], init);
        assert forall i :: 0 <= i < |BuildRun(fails, plans[..n]).written| ==> BuildRun(fails, plans[..n]).written[i].dir in init;
        var ws := plans[n].value;
        var o := Perform(fails, ws);
        assert ds[n] !in init;
        assert forall i :: 0 <= i < |p.written| ==> p.written[i].dir in init;
        DistinctTargetsAppend(p.written, o.written, ws, ds[n]);
      }
    }
  }

  lemma DistinctTargetsAppend(a: seq<FileWrite>, b: seq<FileWrite>, ws: seq<FileWrite>, dir: string)
    requires Distinct(Targets(a)) && forall i :: 0 <= i < |a| ==> a[i].dir != dir
    requires InDir(ws, dir) && Distinct(WriteNames(ws))
    requires |b| <= |ws| && b == ws[..|b|]
    ensures Distinct(Targets(a + b))
  {
    var t := Targets(a + b);
    forall i, j | 0 <= i < j < |t| ensures t[i] != t[j] {
      if j >= |a| {
        assert t[j] == Target(ws[j - |a|].dir, ws[j - |a|].name);
        if i >= |a| {
          assert WriteNames(ws)[i - |a|] != WriteNames(ws)[j - |a|];
        } else {
          assert a[i].dir != dir;
        }
      } else {
        assert Targets(a)[i] != Targets(a)[j];
      }
    }
  }

  /** A run without error carried out every plan, and every write it made
      succeeded. */
  lemma {:induction false} BuildRunSucceeded(fails: FileWrite -> bool, plans: seq<Result<seq<FileWrite>>>)
    requires BuildRun(fails, plans).err.None?
    ensures forall k :: 0 <= k < |plans| ==> plans[k].Ok?
    ensures forall i :: 0 <= i < |BuildRun(fails, plans).written| ==> !fails(BuildRun(fails, plans).written[i])
    decreases |plans|
  {
    if plans != [] {
      var n := |plans| - 1;
      BuildRunSucceeded(fails, plans[..n]);
      assert forall k :: 0 <= k < n ==> plans[..n][k] == plans[k];
      var o := Perform(fails, plans[n].value);
      var w := BuildRun(fails, plans[..n]).written;
      assert forall i :: |w| <= i < |w + o.written| ==> (w + o.written)[i] == o.written[i - |w|];
    }
  }

  /** Building the directories in sorted order writes no file twice, and
      without error every directory was built completely. */
  lemma BuildAllDirs(fails: FileWrite -> bool, st: map<string, DirContents>)
    ensures var ds := SortedOf(st.Keys); var o := BuildRun(fails, DirPlans(st, ds));
            && Distinct(Targets(o.written))
            && (o.err.None? ==> forall d :: d in st ==> Plan(d, st[d]).Ok?)
  {
    var ds := SortedOf(st.Keys);
    var plans := DirPlans(st, ds);
    assert forall x :: x in ds <==> x in st;
    DirPlansConfined(st, ds);
    assert Distinct(ds) by {
      forall i, j | 0 <= i < j < |ds| ensures ds[i] != ds[j] {
        LessIrreflexive(ds[i]);
      }
    }
    BuildRunDistinct(fails, plans, ds);
    if BuildRun(fails, plans).err.None? {
      BuildRunSucceeded(fails, plans);
      forall d | d in st ensures Plan(d, st[d]).Ok? {
        var k :| 0 <= k < |ds| && ds[k] == d;
        assert plans[k].Ok?;
      }
    }
  }

  // ---------------------------------------------------------------------
  // The builder

  /** A `for key, value := range es` loop of `handleConfigMap` or
      `handleSecret`, decoding each value when `decode` is set. */
  method FillFiles(files: seq<Entry<Bytes>>, es: seq<Entry<string>>, decode: bool) returns (r: Result<seq<Entry<Bytes>>>)
    ensures r == PutEntries(files, es, decode)
  {
    var acc := files;
    var i := 0;
    while i < |es|
      invariant 0 <= i <= |es|
      invariant PutEntries(files, es[..i], decode) == Ok(acc)
    {
      var key, value := es[i].key, es[i].value;
      PutEntriesNext(files, es, i, decode);
      var data: Bytes;
      if decode {
        var d := DecodeString(value);
        if d.None? {
          PutEntriesStops(files, es, i + 1, decode);
          return Err(InvalidBase64(key));
        }
        data := d.value;
      } else {
        data := value;
      }
      assert Payload(value, decode) == Some(data);
      acc := Put(acc, key, data);
      i := i + 1;
    }
    assert es[..|es|] == es;
    r := Ok(acc);
  }

  /** One more entry of the filling loop. */
  lemma PutEntriesNext(files: seq<Entry<Bytes>>, es: seq<Entry<string>>, i: nat, decode: bool)
    requires i < |es| && PutEntries(files, es[..i], decode).Ok?
    ensures var p := Payload(es[i].value, decode);
            PutEntries(files, es[..i + 1], decode)
            == if p.None? then Err(InvalidBase64(es[i].key))
               else Ok(Put(PutEntries(files, es[..i], decode).value, es[i].key, p.value))
  {
    assert es[..i + 1][..i] == es[..i];
  }

  /** Once a prefix of the entries fails, so does the whole loop, with the
      same error. */
  lemma {:induction false} PutEntriesStops(files: seq<Entry<Bytes>>, es: seq<Entry<string>>, k: nat, decode: bool)
    requires k <= |es| && PutEntries(files, es[..k], decode).Err?
    ensures PutEntries(files, es, decode) == PutEntries(files, es[..k], decode)
    decreases |es|
  {
    if k == |es| {
      assert es[..k] == es;
    } else {
      var n := |es| - 1;
      assert es[..n][..k] == es[..k];
      PutEntriesStops(files, es[..n], k, decode);
    }
  }

  /** `Builder`. */
  class Builder {
    var dirs: map<string, KustomizationBuilder>
    /** The contents of every directory. */
    ghost var state: map<string, DirContents>
    /** The directory builders. */
    ghost var Repr: set<KustomizationBuilder>

    /** `state` is what the builders hold; distinct directories have
        distinct builders; the registry invariant holds. */
    ghost predicate Valid()
      reads this, Repr
    {
      && dirs.Keys == state.Keys
      && (forall d :: d in dirs ==> dirs[d] in Repr && dirs[d].dir == d && dirs[d].Contents() == state[d])
      && Registry(state)
    }

    /** `NewBuilder`: only the root directory, empty. */
    constructor ()
      ensures Valid() && state == InitialDirs
      ensures fresh(Repr)
    {
      var root := new KustomizationBuilder("");
      dirs := map["" := root];
      state := InitialDirs;
      Repr := {root};
    }

    /** `getKustomization`. */
    method GetKustomization(obj: K8sObject) returns (kb: KustomizationBuilder)
      requires Valid()
      modifies this, Repr
      ensures Valid() && fresh(Repr - old(Repr))
      ensures state == Ensure(old(state), TargetDir(obj))
      ensures TargetDir(obj) in dirs && kb == dirs[TargetDir(obj)]
    {
      var dir := TargetDir(obj);
      if dir !in dirs {
        AddDirectory(dir);
      }
      kb := dirs[dir];
    }

    /** The new directory's builder, registered in the root's `resources`. */
    method AddDirectory(dir: string)
      requires Valid() && dir !in dirs
      modifies this, Repr
      ensures Valid() && state == Ensure(old(state), dir)
      ensures dir in dirs && fresh(dirs[dir]) && Repr == old(Repr) + {dirs[dir]}
    {
      var k := new KustomizationBuilder(dir);
      var root := dirs[""];
      root.AddResource(dir);
      forall d | d in dirs && d != "" ensures dirs[d].Contents() == state[d] {
        assert dirs[d] != root;
      }
      Register(dir, k);
    }

    /** `b.dirs[dir] = k` once the root lists `dir`: the invariant holds
        again. */
    method Register(dir: string, k: KustomizationBuilder)
      requires dir !in dirs && k.dir == dir && k.Contents() == EmptyDir
      requires dirs.Keys == state.Keys && Registry(state)
      requires forall d :: d in dirs ==> dirs[d] in Repr && dirs[d].dir == d
      requires forall d :: d in dirs && d != "" ==> dirs[d].Contents() == state[d]
      requires dirs[""].Contents() == state[""].(resources := state[""].resources + [dir])
      modifies this
      ensures Valid() && state == Ensure(old(state), dir)
      ensures dir in dirs && dirs[dir] == k && Repr == old(Repr) + {k}
    {
      ghost var st := state;
      dirs, Repr, state := dirs[dir := k], Repr + {k}, Ensure(st, dir);
      EnsureEffect(st, dir);
    }

    /** `handleGenericResource`: the object is added to its directory. */
    method HandleGenericResource(obj: K8sObject)
      requires Valid()
      modifies this, Repr
      ensures Valid() && fresh(Repr - old(Repr))
      ensures state == Place(old(state), TargetDir(obj), Resource(obj))
    {
      var dir := TargetDir(obj);
      ghost var st0 := state;
      var kb := GetKustomization(obj);
      ghost var st1 := state;
      kb.AddK8sObject(obj);
      state := Place(st0, dir, Resource(obj));
      assert state == st1[dir := kb.Contents()];
      forall d | d in dirs ensures dirs[d].Contents() == state[d] {
        if d != dir {
          assert dirs[d] != kb;
        }
      }
    }

    /** `b.getKustomization(obj).AddConfigMapObjects(fileGroup)`. */
    method AddConfigMapGroup(obj: K8sObject, g: FilesObject)
      requires Valid()
      modifies this, Repr
      ensures Valid() && fresh(Repr - old(Repr))
      ensures state == Place(old(state), TargetDir(obj), ConfigMapGroup(g))
    {
      var dir := TargetDir(obj);
      ghost var st0 := state;
      var kb := GetKustomization(obj);
      ghost var st1 := state;
      kb.AddConfigMapObjects(g);
      state := Place(st0, dir, ConfigMapGroup(g));
      assert state == st1[dir := kb.Contents()];
      forall d | d in dirs ensures dirs[d].Contents() == state[d] {
        if d != dir {
          assert dirs[d] != kb;
        }
      }
    }

    /** `b.getKustomization(obj).AddSecretObjects(fileGroup)`. */
    method AddSecretGroup(obj: K8sObject, g: FilesObject)
      requires Valid()
      modifies this, Repr
      ensures Valid() && fresh(Repr - old(Repr))
      ensures state == Place(old(state), TargetDir(obj), SecretGroup(g))
    {
      var dir := TargetDir(obj);
      ghost var st0 := state;
      var kb := GetKustomization(obj);
      ghost var st1 := state;
      kb.AddSecretObjects(g);
      state := Place(st0, dir, SecretGroup(g));
      assert state == st1[dir := kb.Contents()];
      forall d | d in dirs ensures dirs[d].Contents() == state[d] {
        if d != dir {
          assert dirs[d] != kb;
        }
      }
    }

    /** `handleConfigMap`: the files are `data` as bytes, then `binaryData`
        decoded; a value that does not decode is returned as the error and
        nothing is added. */
    method HandleConfigMap(obj: K8sObject) returns (err: Option<Error>)
      requires Valid()
      modifies this, Repr
      ensures Valid() && fresh(Repr - old(Repr))
      ensures ConfigMapFiles(obj).Err? ==> err == Some(ConfigMapFiles(obj).error) && state == old(state)
      ensures ConfigMapFiles(obj).Ok? ==>
                err.None? && state == Place(old(state), TargetDir(obj), ConfigMapGroup(FilesObject(obj, ConfigMapFiles(obj).value)))
    {
      var files := FillFiles([], obj.data, false);
      if files.Ok? {
        files := FillFiles(files.value, obj.binaryData, true);
      }
      if files.Err? {
        return Some(files.error);
      }
      AddConfigMapGroup(obj, FilesObject(obj, files.value));
      return None;
    }

    /** `handleSecret`: the files are `data` decoded, then `stringData` as
        bytes. */
    method HandleSecret(obj: K8sObject) returns (err: Option<Error>)
      requires Valid()
      modifies this, Repr
      ensures Valid() && fresh(Repr - old(Repr))
      ensures SecretFiles(obj).Err? ==> err == Some(SecretFiles(obj).error) && state == old(state)
      ensures SecretFiles(obj).Ok? ==>
                err.None? && state == Place(old(state), TargetDir(obj), SecretGroup(FilesObject(obj, SecretFiles(obj).value)))
    {
      var files := FillFiles([], obj.data, true);
      if files.Ok? {
        files := FillFiles(files.value, obj.stringData, false);
      }
      if files.Err? {
        return Some(files.error);
      }
      AddSecretGroup(obj, FilesObject(obj, files.value));
      return None;
    }

    /** `handleResourceType`: the new directories are `Handle`'s, or the
        error is returned and nothing changes. */
    method HandleResourceType(obj: K8sObject) returns (err: Option<Error>)
      requires Valid()
      modifies this, Repr
      ensures Valid() && fresh(Repr - old(Repr))
      ensures Handle(old(state), obj).Err? ==> err == Some(Handle(old(state), obj).error) && state == old(state)
      ensures Handle(old(state), obj).Ok? ==> err.None? && state == Handle(old(state), obj).value
    {
      if obj.apiVersion == "v1" && obj.kind == "ConfigMap" {
        err := HandleConfigMap(obj);
      } else if obj.apiVersion == "v1" && obj.kind == "Secret" {
        err := HandleSecret(obj);
      } else {
        HandleGenericResource(obj);
        err := None;
      }
    }

    /** The body of `Process`'s loop for one document the scanner yielded. */
    method ProcessDocument(doc: Bytes, decode: Bytes -> Option<K8sObject>) returns (err: Option<Error>)
      requires Valid()
      modifies this, Repr
      ensures Valid() && fresh(Repr - old(Repr))
      ensures Step(decode, old(state), doc).Err? ==> err == Some(Step(decode, old(state), doc).error) && state == old(state)
      ensures Step(decode, old(state), doc).Ok? ==> err.None? && state == Step(decode, old(state), doc).value
    {
      var data := TrimSpace(doc);
      if |data| == 0 {
        return None;
      }
      var parsed := ParseYAMLObject(decode, data);
      if parsed.Err? {
        return Some(parsed.error);
      }
      if parsed.value.None? {
        return None;
      }
      var obj := parsed.value.value.(raw := data);
      err := HandleResourceType(obj);
    }

    /** `Process`: the documents of `input`, handled in order; the first error
        stops processing and is returned, and what the earlier documents
        added stays. */
    method Process(input: Bytes, decode: Bytes -> Option<K8sObject>) returns (err: Option<Error>)
      requires Valid()
      modifies this, Repr
      ensures Valid() && fresh(Repr - old(Repr))
      ensures state == ProcessDocs(decode, old(state), Documents(input)).state
      ensures err == ProcessDocs(decode, old(state), Documents(input)).err
    {
      ghost var st0 := state;
      ghost var seen: seq<Bytes> := [];
      var rest := input;
      err := None;
      while |rest| > 0 && err.None?
        invariant Valid() && fresh(Repr - old(Repr))
        invariant Documents(input) == seen + Documents(rest)
        invariant ProcessDocs(decode, st0, seen) == Progress(state, err)
        decreases |rest|
      {
        var split := SplitYAMLDocument(rest, true);
        if split.token.None? {
          break;
        }
        var doc := split.token.value;
        DocumentsNext(input, seen, rest);
        ProcessDocsSnoc(decode, st0, seen, doc);
        seen, rest := seen + [doc], rest[split.advance..];
        err := ProcessDocument(doc, decode);
      }
      ProcessDocsAppend(decode, st0, seen, Documents(rest));
    }

    /** The directory names of `Build`, in the order `sort.Strings` gives. */
    method SortedDirs() returns (sorted: seq<string>)
      ensures sorted == SortedOf(dirs.Keys)
    {
      sorted := [];
      var keys := dirs.Keys;
      while keys != {}
        invariant StrictlySorted(sorted)
        invariant Elements(sorted) + keys == dirs.Keys && Elements(sorted) !! keys
        decreases keys
      {
        var d :| d in keys;
        InElements(sorted, d);
        sorted := Insert(sorted, d);
        keys := keys - {d};
      }
      SortedUnique(sorted, SortedOf(dirs.Keys));
    }

    /** One iteration of `Build`'s loop: `b.dirs[dir].Build(...)` for the
        next directory, with the callback bound to it. */
    method BuildNext(ds: seq<string>, i: nat, sink: Sink, ghost base: seq<FileWrite>) returns (err: Option<Error>)
      requires Valid() && i < |ds| && forall k :: 0 <= k < |ds| ==> ds[k] in state
      requires BuildRun(sink.fails, DirPlans(state, ds)[..i]).err.None?
      requires sink.written == base + BuildRun(sink.fails, DirPlans(state, ds)[..i]).written
      modifies sink
      ensures sink.written == base + BuildRun(sink.fails, DirPlans(state, ds)[..i + 1]).written
      ensures err == BuildRun(sink.fails, DirPlans(state, ds)[..i + 1]).err
    {
      var dir := ds[i];
      ghost var before := sink.written;
      err := dirs[dir].Build(dir, sink);
      BuildRunNext(sink.fails, DirPlans(state, ds), i, base, before, sink.written, err);
    }

    /** `Build`: every directory's builder runs, in sorted order, with the
        write callback bound to that directory; the first error stops the
        run and is returned. */
    method Build(sink: Sink) returns (err: Option<Error>)
      requires Valid()
      modifies sink
      ensures sink.written == old(sink.written) + BuildRun(sink.fails, DirPlans(state, SortedOf(state.Keys))).written
      ensures err == BuildRun(sink.fails, DirPlans(state, SortedOf(state.Keys))).err
    {
      var sortedDirs := SortedDirs();
      assert forall k :: 0 <= k < |sortedDirs| ==> sortedDirs[k] in Elements(sortedDirs);
      ghost var plans := DirPlans(state, sortedDirs);
      var i := 0;
      err := None;
      while i < |sortedDirs| && err.None?
        invariant 0 <= i <= |sortedDirs|
        invariant sink.written == old(sink.written) + BuildRun(sink.fails, plans[..i]).written
        invariant err == BuildRun(sink.fails, plans[..i]).err
      {
        err := BuildNext(sortedDirs, i, sink, old(sink.written));
        i := i + 1;
      }
      if i < |sortedDirs| {
        BuildRunStops(sink.fails, plans, i);
      } else {
        assert plans[..i] == plans;
      }
    }
  }
}
