/** Choosing one naming strategy for a batch of objects or generator files
    (kustomization.go:80-220): the strategies are tried in order, the first
    one whose names are all usable wins, and its names may then be shortened
    by a common prefix ending in a separator. */
module Selection {
  import opened Common
  import opened Objects
  import opened Naming

  // ---------------------------------------------------------------------
  // Naming functions and the names they give a batch

  /** A filename function: a strategy, possibly wrapped by
      `removeK8sObjectsPrefix` / `removeGeneratorObjectPrefix`. */
  datatype Namer<S> = Namer(strategy: S, trim: Option<string>)

  function ApplyTrim(trim: Option<string>, name: string): string {
    match trim
    case None => name
    case Some(prefix) => Trimmed(name, prefix)
  }

  function ObjectName(n: Namer<ObjectStrategy>, obj: K8sObject): string {
    ApplyTrim(n.trim, ObjectFilename(n.strategy, obj))
  }

  function FileName(n: Namer<FileStrategy>, obj: K8sObject, key: string): string {
    ApplyTrim(n.trim, FileFilename(n.strategy, obj, key))
  }

  /** The names of a batch of objects, one per object, in order. */
  function ObjectNames(n: Namer<ObjectStrategy>, objects: seq<K8sObject>): seq<string> {
    seq(|objects|, i requires 0 <= i < |objects| => ObjectName(n, objects[i]))
  }

  lemma ObjectNamesSnoc(n: Namer<ObjectStrategy>, objects: seq<K8sObject>)
    requires objects != []
    ensures ObjectNames(n, objects)
            == ObjectNames(n, objects[..|objects| - 1]) + [ObjectName(n, objects[|objects| - 1])]
  {
    var init := objects[..|objects| - 1];
    var all, front := ObjectNames(n, objects), ObjectNames(n, init);
    forall k | 0 <= k < |front| ensures all[k] == front[k] {
      assert init[k] == objects[k];
    }
    assert all == front + [all[|front|]];
  }

  /** The names of one generator's files, one per key, in map order. */
  function GroupNames(n: Namer<FileStrategy>, g: FilesObject): seq<string> {
    seq(|g.files|, i requires 0 <= i < |g.files| => FileName(n, g.k8sObject, g.files[i].key))
  }

  /** The names of all files of a batch of generators, group after group. */
  function FileNames(n: Namer<FileStrategy>, groups: seq<FilesObject>): seq<string> {
    if groups == [] then []
    else FileNames(n, groups[..|groups| - 1]) + GroupNames(n, groups[|groups| - 1])
  }

  function TrimAll(names: seq<string>, prefix: string): seq<string> {
    seq(|names|, i requires 0 <= i < |names| => Trimmed(names[i], prefix))
  }

  lemma {:induction false} FileNamesAppend(n: Namer<FileStrategy>, a: seq<FilesObject>, b: seq<FilesObject>)
    ensures FileNames(n, a + b) == FileNames(n, a) + FileNames(n, b)
    decreases |b|
  {
    if b == [] {
      assert a + b == a;
    } else {
      var b' := b[..|b| - 1];
      assert (a + b)[..|a + b| - 1] == a + b';
      FileNamesAppend(n, a, b');
    }
  }

  /** Wrapping a strategy in a prefix trim trims each of its names. */
  lemma ObjectNamesTrimmed(s: ObjectStrategy, prefix: string, objects: seq<K8sObject>)
    ensures ObjectNames(Namer(s, Some(prefix)), objects)
            == TrimAll(ObjectNames(Namer(s, None), objects), prefix)
  {
  }

  lemma {:induction false} FileNamesTrimmed(s: FileStrategy, prefix: string, groups: seq<FilesObject>)
    ensures FileNames(Namer(s, Some(prefix)), groups)
            == TrimAll(FileNames(Namer(s, None), groups), prefix)
    decreases |groups|
  {
    if groups != [] {
      var init := groups[..|groups| - 1];
      FileNamesTrimmed(s, prefix, init);
      var a := FileNames(Namer(s, None), init);
      var b := GroupNames(Namer(s, None), groups[|groups| - 1]);
      assert TrimAll(a + b, prefix) == TrimAll(a, prefix) + TrimAll(b, prefix);
    }
  }

  // ---------------------------------------------------------------------
  // Acceptance of a strategy

  /** `isUniqueFilenameFunc*` succeeds: every name is non-empty, none is
      reserved, and no two are equal. */
  predicate Acceptable(names: seq<string>, reserved: set<string>) {
    && (forall k :: 0 <= k < |names| ==> names[k] != "" && names[k] !in reserved)
    && Distinct(names)
  }

  lemma AcceptablePrefix(a: seq<string>, b: seq<string>, reserved: set<string>)
    requires Acceptable(a + b, reserved)
    ensures Acceptable(a, reserved)
  {
    assert forall k :: 0 <= k < |a| ==> (a + b)[k] == a[k];
  }

  /** A name that is empty, reserved or already given makes every batch
      that gives it next unacceptable. */
  lemma Rejected(items: seq<string>, name: string, rest: seq<string>, reserved: set<string>)
    requires name == "" || name in reserved || name in Elements(items)
    ensures !Acceptable(items + [name] + rest, reserved)
  {
    var all := items + [name] + rest;
    assert all[|items|] == name;
    if name in Elements(items) {
      var j :| 0 <= j < |items| && items[j] == name;
      assert all[j] == name;
    }
  }

  /** The names up to position `i` are acceptable and the name at `i`
      is not: then the whole batch is not. */
  lemma RejectedAt(all: seq<string>, i: nat, reserved: set<string>)
    requires i < |all|
    requires all[i] == "" || all[i] in reserved || all[i] in Elements(all[..i])
    ensures !Acceptable(all, reserved)
  {
    assert all == all[..i] + [all[i]] + all[i + 1..];
    Rejected(all[..i], all[i], all[i + 1..], reserved);
  }

  /** An acceptable prefix grows by one usable, new name. */
  lemma AcceptedNext(all: seq<string>, i: nat, reserved: set<string>)
    requires i < |all| && Acceptable(all[..i], reserved)
    requires all[i] != "" && all[i] !in reserved && all[i] !in Elements(all[..i])
    ensures all[..i + 1] == all[..i] + [all[i]]
    ensures Acceptable(all[..i + 1], reserved)
  {
    assert all[..i + 1] == all[..i] + [all[i]];
    AcceptableConcat(all[..i], [all[i]], reserved);
  }

  /** Two batches accepted one after the other, the second against the
      reserved names grown by the first, are accepted together. */
  lemma AcceptableConcat(a: seq<string>, b: seq<string>, reserved: set<string>)
    requires Acceptable(a, reserved) && Acceptable(b, reserved + Elements(a))
    ensures Acceptable(a + b, reserved)
  {
    var ab := a + b;
    forall i, j | 0 <= i < j < |ab| ensures ab[i] != ab[j] {
      if j < |a| {
        assert ab[i] == a[i] && ab[j] == a[j];
      } else if i >= |a| {
        assert ab[i] == b[i - |a|] && ab[j] == b[j - |a|];
      } else {
        assert ab[i] == a[i] && a[i] in Elements(a);
        assert ab[j] == b[j - |a|];
      }
    }
  }

  // ---------------------------------------------------------------------
  // The selection, stated on the candidate names of each strategy

  /** The strategy chosen (by its position) and the prefix trimmed from its
      names, if any. */
  datatype Choice = Choice(index: nat, trim: Option<string>)

  /** The prefix refinement of an accepted batch: the common prefix cut
      back to its last separator, used only if the shortened names are
      still acceptable. */
  function Refinement(names: seq<string>, reserved: set<string>): Option<string> {
    var prefix := CommonPrefix(names);
    if prefix == "" then None
    else
      var index := IndexOfSeparator(prefix);
      if index <= 0 then None
      else if Acceptable(TrimAll(names, prefix[..index]), reserved) then Some(prefix[..index])
      else None
  }

  /** The names a choice gives the batch. */
  function ChosenNames(candidates: seq<seq<string>>, c: Choice): seq<string>
    requires c.index < |candidates|
  {
    match c.trim
    case None => candidates[c.index]
    case Some(prefix) => TrimAll(candidates[c.index], prefix)
  }

  /** Trying the strategies from position `i` on; `candidates[k]` holds the
      names strategy `k` gives the batch. With `firstIsFinal`, strategy 0
      is never refined. */
  function ChooseFrom(candidates: seq<seq<string>>, reserved: set<string>, firstIsFinal: bool, i: nat)
    : (c: Option<Choice>)
    ensures c.Some? <==> exists k :: i <= k < |candidates| && Acceptable(candidates[k], reserved)
    ensures c.Some? ==> i <= c.value.index < |candidates| && Acceptable(candidates[c.value.index], reserved)
    ensures c.Some? ==> forall k :: i <= k < c.value.index ==> !Acceptable(candidates[k], reserved)
    ensures c.Some? ==> Acceptable(ChosenNames(candidates, c.value), reserved)
    ensures c.Some? ==> |ChosenNames(candidates, c.value)| == |candidates[c.value.index]|
    ensures c.Some? && firstIsFinal && c.value.index == 0 ==> c.value.trim.None?
    decreases |candidates| - i
  {
    if i >= |candidates| then None
    else if !Acceptable(candidates[i], reserved) then ChooseFrom(candidates, reserved, firstIsFinal, i + 1)
    else if i == 0 && firstIsFinal then Some(Choice(0, None))
    else Some(Choice(i, Refinement(candidates[i], reserved)))
  }

  /** A refinement trims a non-empty prefix that ends in a separator, that
      every name loosely starts with, and that leaves the names acceptable;
      there is one only for two or more names. */
  lemma RefinementShape(names: seq<string>, reserved: set<string>)
    requires Refinement(names, reserved).Some?
    ensures var prefix := Refinement(names, reserved).value;
            && |names| >= 2
            && prefix != "" && IsSeparator(prefix[|prefix| - 1])
            && (forall k :: 0 <= k < |names| ==> HasLoosePrefix(names[k], prefix))
            && Acceptable(TrimAll(names, prefix), reserved)
  {
    var common := CommonPrefix(names);
    var index := IndexOfSeparator(common);
    forall k | 0 <= k < |names| ensures HasLoosePrefix(names[k], common[..index]) {
      assert HasLoosePrefix(names[k], common);
    }
  }

  /** Without a separator in the common prefix the names are kept as they are. */
  lemma NoSeparatorNoRefinement(names: seq<string>, reserved: set<string>)
    requires forall k :: 0 <= k < |CommonPrefix(names)| ==> !IsSeparator(CommonPrefix(names)[k])
    ensures Refinement(names, reserved).None?
  {
  }

  /** The first acceptable strategy is the one chosen. Unless it is a final
      first strategy, its names are cut back to the last separator of their
      common prefix whenever the cut names are still acceptable, and are
      kept whole otherwise. */
  lemma {:induction false} FirstAcceptableChosen(candidates: seq<seq<string>>, reserved: set<string>,
                                                 firstIsFinal: bool, i: nat, k: nat)
    requires i <= k < |candidates| && Acceptable(candidates[k], reserved)
    requires forall j :: i <= j < k ==> !Acceptable(candidates[j], reserved)
    requires !(firstIsFinal && k == 0)
    ensures var p := CommonPrefix(candidates[k]); var n := IndexOfSeparator(p);
            p != "" && n > 0 && Acceptable(TrimAll(candidates[k], p[..n]), reserved)
            ==> ChooseFrom(candidates, reserved, firstIsFinal, i) == Some(Choice(k, Some(p[..n])))
    ensures var p := CommonPrefix(candidates[k]); var n := IndexOfSeparator(p);
            !(p != "" && n > 0 && Acceptable(TrimAll(candidates[k], p[..n]), reserved))
            ==> ChooseFrom(candidates, reserved, firstIsFinal, i) == Some(Choice(k, None))
    decreases k - i
  {
    if i < k {
      FirstAcceptableChosen(candidates, reserved, firstIsFinal, i + 1, k);
    }
  }

  /** Two names sharing `svc-` are both shortened by it. */
  lemma SharedPrefixIsStripped()
    ensures Refinement(["svc-deploy_deployment.yaml", "svc-cm_configmap.yaml"], {"kustomization.yaml"})
            == Some("svc-")
  {
    var names: seq<string> := ["svc-deploy_deployment.yaml", "svc-cm_configmap.yaml"];
    ExamplePrefix(names);
    assert IndexOfSeparator("svc-") == 4 by { assert IsSeparator("svc-"[3]); }
    assert "svc-"[..4] == "svc-";
    ExampleTrimmed(names);
  }

  lemma ExamplePrefix(names: seq<string>)
    requires names == ["svc-deploy_deployment.yaml", "svc-cm_configmap.yaml"]
    ensures CommonPrefix(names) == "svc-"
  {
    assert names[0][4] == 'd';
    assert names[1][4] == 'c';
    assert !AllMatchAt(names, 4);
    CommonPrefixLength(names, 4);
    assert names[0][..4] == "svc-";
  }

  lemma ExampleTrimmed(names: seq<string>)
    requires names == ["svc-deploy_deployment.yaml", "svc-cm_configmap.yaml"]
    ensures Acceptable(TrimAll(names, "svc-"), {"kustomization.yaml"})
  {
    var trimmed := TrimAll(names, "svc-");
    assert HasLoosePrefix(names[0], "svc-") && HasLoosePrefix(names[1], "svc-");
    assert |names[0]| == 26 && |names[1]| == 21;
    assert |"kustomization.yaml"| == 18;
    forall k | 0 <= k < |trimmed| ensures trimmed[k] != "" && trimmed[k] !in {"kustomization.yaml"} {
      assert |trimmed[k]| == |names[k]| - 4;
    }
    assert Distinct(trimmed) by {
      forall i, j | 0 <= i < j < |trimmed| ensures trimmed[i] != trimmed[j] {
        assert |trimmed[i]| == |names[i]| - 4 && |trimmed[j]| == |names[j]| - 4;
      }
    }
  }

  // ---------------------------------------------------------------------
  // The two selectors, as specifications

  function ObjectCandidates(objects: seq<K8sObject>): seq<seq<string>> {
    seq(|ObjectStrategies|, i requires 0 <= i < |ObjectStrategies| =>
      ObjectNames(Namer(ObjectStrategies[i], None), objects))
  }

  function FileCandidates(groups: seq<FilesObject>): seq<seq<string>> {
    seq(|FileStrategies|, i requires 0 <= i < |FileStrategies| =>
      FileNames(Namer(FileStrategies[i], None), groups))
  }

  function SelectObjectNamer(objects: seq<K8sObject>, reserved: set<string>): Option<Namer<ObjectStrategy>> {
    match ChooseFrom(ObjectCandidates(objects), reserved, true, 0)
    case None => None
    case Some(c) => Some(Namer(ObjectStrategies[c.index], c.trim))
  }

  function SelectFileNamer(groups: seq<FilesObject>, reserved: set<string>): Option<Namer<FileStrategy>> {
    match ChooseFrom(FileCandidates(groups), reserved, false, 0)
    case None => None
    case Some(c) => Some(Namer(FileStrategies[c.index], c.trim))
  }

  /** The selected namer gives every object its own usable name. */
  lemma SelectedObjectNamesAcceptable(objects: seq<K8sObject>, reserved: set<string>)
    requires SelectObjectNamer(objects, reserved).Some?
    ensures Acceptable(ObjectNames(SelectObjectNamer(objects, reserved).value, objects), reserved)
  {
    var c := ChooseFrom(ObjectCandidates(objects), reserved, true, 0).value;
    if c.trim.Some? {
      ObjectNamesTrimmed(ObjectStrategies[c.index], c.trim.value, objects);
    }
  }

  /** The selected namer gives every generator file its own usable name. */
  lemma SelectedFileNamesAcceptable(groups: seq<FilesObject>, reserved: set<string>)
    requires SelectFileNamer(groups, reserved).Some?
    ensures Acceptable(FileNames(SelectFileNamer(groups, reserved).value, groups), reserved)
  {
    var c := ChooseFrom(FileCandidates(groups), reserved, false, 0).value;
    if c.trim.Some? {
      FileNamesTrimmed(FileStrategies[c.index], c.trim.value, groups);
    }
  }

  /** A batch of complete CRDs keeps the CRD names whenever those are
      usable: the first strategy is never refined. */
  lemma CRDNamesKept(objects: seq<K8sObject>, reserved: set<string>)
    requires Acceptable(ObjectNames(Namer(CRDFilename, None), objects), reserved)
    ensures SelectObjectNamer(objects, reserved) == Some(Namer(CRDFilename, None))
  {
    assert ObjectCandidates(objects)[0] == ObjectNames(Namer(CRDFilename, None), objects);
  }

  /** When the first acceptable object strategy is not the CRD one, its
      names are trimmed by the common prefix up to its last separator
      whenever the trimmed names are acceptable, and kept whole otherwise. */
  lemma ObjectPrefixTrimmedWhenAcceptable(objects: seq<K8sObject>, reserved: set<string>, k: nat)
    requires 1 <= k < |ObjectStrategies|
    requires Acceptable(ObjectNames(Namer(ObjectStrategies[k], None), objects), reserved)
    requires forall j :: 0 <= j < k ==> !Acceptable(ObjectNames(Namer(ObjectStrategies[j], None), objects), reserved)
    ensures var names := ObjectNames(Namer(ObjectStrategies[k], None), objects);
            var p := CommonPrefix(names); var n := IndexOfSeparator(p);
            p != "" && n > 0 && Acceptable(TrimAll(names, p[..n]), reserved)
            ==> && SelectObjectNamer(objects, reserved) == Some(Namer(ObjectStrategies[k], Some(p[..n])))
                && ObjectNames(Namer(ObjectStrategies[k], Some(p[..n])), objects) == TrimAll(names, p[..n])
    ensures var names := ObjectNames(Namer(ObjectStrategies[k], None), objects);
            var p := CommonPrefix(names); var n := IndexOfSeparator(p);
            !(p != "" && n > 0 && Acceptable(TrimAll(names, p[..n]), reserved))
            ==> SelectObjectNamer(objects, reserved) == Some(Namer(ObjectStrategies[k], None))
  {
    var candidates := ObjectCandidates(objects);
    forall j | 0 <= j < k ensures !Acceptable(candidates[j], reserved) {
      assert candidates[j] == ObjectNames(Namer(ObjectStrategies[j], None), objects);
    }
    FirstAcceptableChosen(candidates, reserved, true, 0, k);
    var names := candidates[k];
    var p := CommonPrefix(names);
    var n := IndexOfSeparator(p);
    if p != "" && n > 0 {
      ObjectNamesTrimmed(ObjectStrategies[k], p[..n], objects);
    }
  }

  /** The same for generator files, where every strategy may be trimmed. */
  lemma FilePrefixTrimmedWhenAcceptable(groups: seq<FilesObject>, reserved: set<string>, k: nat)
    requires k < |FileStrategies|
    requires Acceptable(FileNames(Namer(FileStrategies[k], None), groups), reserved)
    requires forall j :: 0 <= j < k ==> !Acceptable(FileNames(Namer(FileStrategies[j], None), groups), reserved)
    ensures var names := FileNames(Namer(FileStrategies[k], None), groups);
            var p := CommonPrefix(names); var n := IndexOfSeparator(p);
            p != "" && n > 0 && Acceptable(TrimAll(names, p[..n]), reserved)
            ==> && SelectFileNamer(groups, reserved) == Some(Namer(FileStrategies[k], Some(p[..n])))
                && FileNames(Namer(FileStrategies[k], Some(p[..n])), groups) == TrimAll(names, p[..n])
    ensures var names := FileNames(Namer(FileStrategies[k], None), groups);
            var p := CommonPrefix(names); var n := IndexOfSeparator(p);
            !(p != "" && n > 0 && Acceptable(TrimAll(names, p[..n]), reserved))
            ==> SelectFileNamer(groups, reserved) == Some(Namer(FileStrategies[k], None))
  {
    var candidates := FileCandidates(groups);
    forall j | 0 <= j < k ensures !Acceptable(candidates[j], reserved) {
      assert candidates[j] == FileNames(Namer(FileStrategies[j], None), groups);
    }
    FirstAcceptableChosen(candidates, reserved, false, 0, k);
    var names := candidates[k];
    var p := CommonPrefix(names);
    var n := IndexOfSeparator(p);
    if p != "" && n > 0 {
      FileNamesTrimmed(FileStrategies[k], p[..n], groups);
    }
  }

  // ---------------------------------------------------------------------
  // The reserved names and the methods that mirror the Go code

  /** The `uniq` set shared by the selectors of one directory. */
  class ReservedNames {
    var names: set<string>

    constructor (initial: set<string>)
      ensures names == initial
    {
      names := initial;
    }

    /** `fillMap`. */
    method Fill(items: seq<string>)
      modifies this
      ensures names == old(names) + Elements(items)
    {
      var k := 0;
      while k < |items|
        invariant 0 <= k <= |items|
        invariant names == old(names) + Elements(items[..k])
      {
        assert items[..k + 1] == items[..k] + [items[k]];
        names := names + {items[k]};
        k := k + 1;
      }
      assert items[..k] == items;
    }
  }

  /** The filename function applied to one object (the closure's call). */
  method NameObject(n: Namer<ObjectStrategy>, obj: K8sObject) returns (name: string)
    ensures name == ObjectName(n, obj)
  {
    name := ObjectFilename(n.strategy, obj);
    if n.trim.Some? {
      name := TrimPrefix(name, n.trim.value);
    }
  }

  method NameFile(n: Namer<FileStrategy>, obj: K8sObject, key: string) returns (name: string)
    ensures name == FileName(n, obj, key)
  {
    name := FileFilename(n.strategy, obj, key);
    if n.trim.Some? {
      name := TrimPrefix(name, n.trim.value);
    }
  }

  /** `isUniqueFilenameFuncForK8sObjects`. */
  method IsUniqueFilenameFuncForK8sObjects(objects: seq<K8sObject>, uniq: ReservedNames, fun: Namer<ObjectStrategy>)
    returns (items: seq<string>, ok: bool)
    ensures ok <==> Acceptable(ObjectNames(fun, objects), uniq.names)
    ensures ok ==> items == ObjectNames(fun, objects)
  {
    var all := ObjectNames(fun, objects);
    items := [];
    var localUniq: set<string> := {};
    var i := 0;
    while i < |objects|
      invariant 0 <= i <= |objects|
      invariant items == all[..i]
      invariant Acceptable(items, uniq.names)
      invariant localUniq == Elements(items)
    {
      var name := NameObject(fun, objects[i]);
      assert all[i] == name;
      if name == "" || name in uniq.names || name in localUniq {
        RejectedAt(all, i, uniq.names);
        return [], false;
      }
      AcceptedNext(all, i, uniq.names);
      items := items + [name];
      localUniq := localUniq + {name};
      i := i + 1;
    }
    assert all[..i] == all;
    return items, true;
  }

  /** `isUniqueFilenameFunc`, over every key of every generator. */
  method IsUniqueFilenameFunc(objects: seq<FilesObject>, uniq: ReservedNames, fun: Namer<FileStrategy>)
    returns (items: seq<string>, ok: bool)
    ensures ok <==> Acceptable(FileNames(fun, objects), uniq.names)
    ensures ok ==> items == FileNames(fun, objects)
  {
    var all := FileNames(fun, objects);
    items := [];
    var localUniq: set<string> := {};
    var g := 0;
    while g < |objects|
      invariant 0 <= g <= |objects|
      invariant items == FileNames(fun, objects[..g])
      invariant Acceptable(items, uniq.names)
      invariant localUniq == Elements(items)
    {
      var obj := objects[g];
      var group := GroupNames(fun, obj);
      var f := 0;
      while f < |obj.files|
        invariant 0 <= f <= |obj.files|
        invariant items == FileNames(fun, objects[..g]) + group[..f]
        invariant Acceptable(items, uniq.names)
        invariant localUniq == Elements(items)
      {
        var name := NameFile(fun, obj.k8sObject, obj.files[f].key);
        if name == "" || name in uniq.names || name in localUniq {
          FileNamesPrefix(fun, objects, g, f);
          var rest :| all == items + [name] + rest;
          Rejected(items, name, rest, uniq.names);
          return [], false;
        }
        AcceptableConcat(items, [name], uniq.names);
        assert group[..f + 1] == group[..f] + [name];
        items := items + [name];
        localUniq := localUniq + {name};
        f := f + 1;
      }
      assert objects[..g + 1][..g] == objects[..g];
      assert group[..f] == group;
      g := g + 1;
    }
    assert objects[..g] == objects;
    return items, true;
  }

  /** The names given so far, followed by the next one, start the names of
      the whole batch. */
  lemma FileNamesPrefix(n: Namer<FileStrategy>, groups: seq<FilesObject>, g: nat, f: nat)
    requires g < |groups| && f < |groups[g].files|
    ensures exists rest ::
              FileNames(n, groups)
              == FileNames(n, groups[..g]) + GroupNames(n, groups[g])[..f] + [GroupNames(n, groups[g])[f]] + rest
  {
    var upto := groups[..g + 1];
    assert groups == upto + groups[g + 1..];
    FileNamesAppend(n, upto, groups[g + 1..]);
    assert upto[..g] == groups[..g] && upto[g] == groups[g];
    SplitAround(FileNames(n, groups[..g]), GroupNames(n, groups[g]), FileNames(n, groups[g + 1..]), f);
  }

  /** A strategy refused at position `i` is skipped. */
  lemma ChooseFromSkips(candidates: seq<seq<string>>, reserved: set<string>, firstIsFinal: bool, i: nat)
    requires i < |candidates| && !Acceptable(candidates[i], reserved)
    ensures ChooseFrom(candidates, reserved, firstIsFinal, i)
            == ChooseFrom(candidates, reserved, firstIsFinal, i + 1)
  {
  }

  /** `selectUniqueFilenameFuncForK8sObjects`: returns the namer of the
      specification and reserves exactly the names it gives. */
  method SelectUniqueFilenameFuncForK8sObjects(objects: seq<K8sObject>, uniq: ReservedNames)
    returns (namer: Option<Namer<ObjectStrategy>>)
    modifies uniq
    ensures namer == SelectObjectNamer(objects, old(uniq.names))
    ensures namer.Some? ==> uniq.names == old(uniq.names) + Elements(ObjectNames(namer.value, objects))
    ensures namer.None? ==> uniq.names == old(uniq.names)
  {
    var funcs := ObjectStrategies;
    ghost var candidates := ObjectCandidates(objects);
    ghost var reserved := uniq.names;
    var i := 0;
    while i < |funcs|
      invariant 0 <= i <= |funcs|
      invariant uniq.names == reserved
      invariant ChooseFrom(candidates, reserved, true, 0) == ChooseFrom(candidates, reserved, true, i)
    {
      var fun := Namer(funcs[i], None);
      assert candidates[i] == ObjectNames(fun, objects);
      var items, ok := IsUniqueFilenameFuncForK8sObjects(objects, uniq, fun);
      if !ok {
        ChooseFromSkips(candidates, reserved, true, i);
        i := i + 1;
      } else {
        if i == 0 {
          uniq.Fill(items);
          return Some(fun);
        }
        var prefix := LongestCommonPrefix(items);
        if prefix == "" {
          uniq.Fill(items);
          return Some(fun);
        }
        var index := IndexOfSeparator(prefix);
        if index <= 0 {
          uniq.Fill(items);
          return Some(fun);
        }
        var newFunc := Namer(funcs[i], Some(prefix[..index]));
        ObjectNamesTrimmed(funcs[i], prefix[..index], objects);
        var newItems, newOk := IsUniqueFilenameFuncForK8sObjects(objects, uniq, newFunc);
        if newOk {
          uniq.Fill(newItems);
          return Some(newFunc);
        }
        uniq.Fill(items);
        return Some(fun);
      }
    }
    return None;
  }

  /** `selectUniqueFilenameFuncForFiles`: as above, without the special
      first strategy. */
  method SelectUniqueFilenameFuncForFiles(objects: seq<FilesObject>, uniq: ReservedNames)
    returns (namer: Option<Namer<FileStrategy>>)
    modifies uniq
    ensures namer == SelectFileNamer(objects, old(uniq.names))
    ensures namer.Some? ==> uniq.names == old(uniq.names) + Elements(FileNames(namer.value, objects))
    ensures namer.None? ==> uniq.names == old(uniq.names)
  {
    var funcs := FileStrategies;
    ghost var candidates := FileCandidates(objects);
    ghost var reserved := uniq.names;
    var i := 0;
    while i < |funcs|
      invariant 0 <= i <= |funcs|
      invariant uniq.names == reserved
      invariant ChooseFrom(candidates, reserved, false, 0) == ChooseFrom(candidates, reserved, false, i)
    {
      var fun := Namer(funcs[i], None);
      assert candidates[i] == FileNames(fun, objects);
      var items, ok := IsUniqueFilenameFunc(objects, uniq, fun);
      if !ok {
        ChooseFromSkips(candidates, reserved, false, i);
        i := i + 1;
      } else {
        var prefix := LongestCommonPrefix(items);
        if prefix == "" {
          uniq.Fill(items);
          return Some(fun);
        }
        var index := IndexOfSeparator(prefix);
        if index <= 0 {
          uniq.Fill(items);
          return Some(fun);
        }
        var newFunc := Namer(funcs[i], Some(prefix[..index]));
        FileNamesTrimmed(funcs[i], prefix[..index], objects);
        var newItems, newOk := IsUniqueFilenameFunc(objects, uniq, newFunc);
        if newOk {
          uniq.Fill(newItems);
          return Some(newFunc);
        }
        uniq.Fill(items);
        return Some(fun);
      }
    }
    return None;
  }
}
