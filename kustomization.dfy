/** One directory's kustomization (kustomization.go:9-78, 222-288): the
    objects, generators and sub-directories collected for it, and `Build`,
    which names their files, writes them and then writes the directory's
    `kustomization.yaml`. */
module Kustomization {
  import opened Common
  import opened Objects
  import opened Naming
  import opened Selection
  import opened Manifest
  import opened Output

  const KustomizationFile: string := "kustomization.yaml"

  /** The four lists a `kustomizationBuilder` holds. */
  datatype DirContents = DirContents(
    objects: seq<K8sObject>,
    configMaps: seq<FilesObject>,
    secrets: seq<FilesObject>,
    resources: seq<string>)

  const EmptyDir := DirContents([], [], [], [])

  // ---------------------------------------------------------------------
  // Naming a directory's files

  /** The filename functions `Build` selects for its three batches. */
  datatype Namers = Namers(
    objects: Namer<ObjectStrategy>,
    configMaps: Namer<FileStrategy>,
    secrets: Namer<FileStrategy>)

  /** The names reserved before any batch is named. */
  function InitialReserved(c: DirContents): set<string> {
    {KustomizationFile} + Elements(c.resources)
  }

  /** The three selections, each against the names reserved before it. */
  function ResolveNames(c: DirContents): Result<Namers> {
    var r0 := InitialReserved(c);
    match SelectObjectNamer(c.objects, r0)
    case None => Err(NoUniqueObjectFilenames)
    case Some(on) =>
      var r1 := r0 + Elements(ObjectNames(on, c.objects));
      match SelectFileNamer(c.configMaps, r1)
      case None => Err(NoUniqueConfigMapFilenames)
      case Some(cn) =>
        var r2 := r1 + Elements(FileNames(cn, c.configMaps));
        match SelectFileNamer(c.secrets, r2)
        case None => Err(NoUniqueSecretFilenames)
        case Some(sn) => Ok(Namers(on, cn, sn))
  }

  /** Every file name of the directory, objects first. */
  function AllNames(c: DirContents, n: Namers): seq<string> {
    ObjectNames(n.objects, c.objects) + FileNames(n.configMaps, c.configMaps) + FileNames(n.secrets, c.secrets)
  }

  lemma ElementsAppend(a: seq<string>, b: seq<string>)
    ensures Elements(a + b) == Elements(a) + Elements(b)
  {
    forall x | x in Elements(a) ensures x in Elements(a + b) {
      var i :| 0 <= i < |a| && a[i] == x;
      assert (a + b)[i] == x;
    }
    forall x | x in Elements(b) ensures x in Elements(a + b) {
      var i :| 0 <= i < |b| && b[i] == x;
      assert (a + b)[|a| + i] == x;
    }
  }

  /** All names given in one directory are non-empty and pairwise distinct,
      and none is `kustomization.yaml` or a sub-directory entry. */
  lemma ResolvedNamesUnique(c: DirContents)
    requires ResolveNames(c).Ok?
    ensures var names := AllNames(c, ResolveNames(c).value);
            && Distinct(names)
            && forall k :: 0 <= k < |names| ==>
                 names[k] != "" && names[k] != KustomizationFile && names[k] !in c.resources
  {
    var n := ResolveNames(c).value;
    var r0 := InitialReserved(c);
    var a := ObjectNames(n.objects, c.objects);
    var b := FileNames(n.configMaps, c.configMaps);
    var d := FileNames(n.secrets, c.secrets);
    SelectedObjectNamesAcceptable(c.objects, r0);
    SelectedFileNamesAcceptable(c.configMaps, r0 + Elements(a));
    SelectedFileNamesAcceptable(c.secrets, r0 + Elements(a) + Elements(b));
    AcceptableConcat(a, b, r0);
    ElementsAppend(a, b);
    AcceptableConcat(a + b, d, r0);
    var names := a + b + d;
    forall k | 0 <= k < |names|
      ensures names[k] != KustomizationFile && names[k] !in c.resources
    {
      assert names[k] !in r0;
      InElements(c.resources, names[k]);
    }
  }

  // ---------------------------------------------------------------------
  // The files a directory's Build writes, in order

  function ObjectWrite(dir: string, n: Namer<ObjectStrategy>, obj: K8sObject): FileWrite {
    FileWrite(dir, ObjectName(n, obj), obj.raw)
  }

  function ResourceWrites(dir: string, objects: seq<K8sObject>, n: Namer<ObjectStrategy>): seq<FileWrite> {
    if objects == [] then []
    else ResourceWrites(dir, objects[..|objects| - 1], n) + [ObjectWrite(dir, n, objects[|objects| - 1])]
  }

  function GroupWrites(dir: string, n: Namer<FileStrategy>, obj: K8sObject, files: seq<Entry<Bytes>>): seq<FileWrite> {
    seq(|files|, i requires 0 <= i < |files| => FileWrite(dir, FileName(n, obj, files[i].key), files[i].value))
  }

  function GeneratorWrites(dir: string, n: Namer<FileStrategy>, groups: seq<FilesObject>): seq<FileWrite> {
    if groups == [] then []
    else
      var g := groups[|groups| - 1];
      GeneratorWrites(dir, n, groups[..|groups| - 1]) + GroupWrites(dir, n, g.k8sObject, g.files)
  }

  function ManifestText(c: DirContents, n: Namers): string {
    Header
    + ResourcesSection(c.resources, c.objects, n.objects)
    + GeneratorSection("configMapGenerator", n.configMaps, c.configMaps)
    + GeneratorSection("secretGenerator", n.secrets, c.secrets)
  }

  /** What `Build` attempts: the object files, the ConfigMap files, the
      Secret files and last the manifest; or the naming error, before any
      write. */
  function Plan(dir: string, c: DirContents): Result<seq<FileWrite>> {
    match ResolveNames(c)
    case Err(e) => Err(e)
    case Ok(n) => Ok(DirWrites(dir, c, n))
  }

  /** The writes of a directory whose files are named by `n`. */
  function DirWrites(dir: string, c: DirContents, n: Namers): seq<FileWrite> {
    ResourceWrites(dir, c.objects, n.objects)
    + GeneratorWrites(dir, n.configMaps, c.configMaps)
    + GeneratorWrites(dir, n.secrets, c.secrets)
    + [FileWrite(dir, KustomizationFile, ManifestText(c, n))]
  }

  function WriteNames(ws: seq<FileWrite>): seq<string> {
    seq(|ws|, i requires 0 <= i < |ws| => ws[i].name)
  }

  predicate InDir(ws: seq<FileWrite>, dir: string) {
    forall i :: 0 <= i < |ws| ==> ws[i].dir == dir
  }

  lemma {:induction false} GeneratorWritesAppend(dir: string, n: Namer<FileStrategy>, a: seq<FilesObject>, b: seq<FilesObject>)
    ensures GeneratorWrites(dir, n, a + b) == GeneratorWrites(dir, n, a) + GeneratorWrites(dir, n, b)
    decreases |b|
  {
    if b == [] {
      assert a + b == a;
    } else {
      var init := b[..|b| - 1];
      assert (a + b)[..|a + b| - 1] == a + init;
      GeneratorWritesAppend(dir, n, a, init);
    }
  }

  lemma {:induction false} GeneratorWritesNames(dir: string, n: Namer<FileStrategy>, groups: seq<FilesObject>)
    ensures WriteNames(GeneratorWrites(dir, n, groups)) == FileNames(n, groups)
    ensures InDir(GeneratorWrites(dir, n, groups), dir)
    decreases |groups|
  {
    if groups != [] {
      var init := groups[..|groups| - 1];
      var g := groups[|groups| - 1];
      GeneratorWritesNames(dir, n, init);
      var a := GeneratorWrites(dir, n, init);
      var b := GroupWrites(dir, n, g.k8sObject, g.files);
      assert WriteNames(a + b) == WriteNames(a) + WriteNames(b);
      assert WriteNames(b) == GroupNames(n, g);
    }
  }

  lemma {:induction false} ResourceWritesAppend(dir: string, n: Namer<ObjectStrategy>, a: seq<K8sObject>, b: seq<K8sObject>)
    ensures ResourceWrites(dir, a + b, n) == ResourceWrites(dir, a, n) + ResourceWrites(dir, b, n)
    decreases |b|
  {
    if b == [] {
      assert a + b == a;
    } else {
      var init := b[..|b| - 1];
      assert (a + b)[..|a + b| - 1] == a + init;
      ResourceWritesAppend(dir, n, a, init);
    }
  }

  /** The writes of the objects before `j`, of object `j`, and of the rest. */
  lemma ResourceWritesSplit(dir: string, n: Namer<ObjectStrategy>, objects: seq<K8sObject>, j: nat)
    requires j < |objects|
    ensures var done := ResourceWrites(dir, objects[..j], n);
            var mine := [ObjectWrite(dir, n, objects[j])];
            && ResourceWrites(dir, objects[..j + 1], n) == done + mine
            && ResourceWrites(dir, objects, n) == done + mine + ResourceWrites(dir, objects[j + 1..], n)
  {
    assert objects[..j + 1][..j] == objects[..j];
    assert objects == objects[..j + 1] + objects[j + 1..];
    ResourceWritesAppend(dir, n, objects[..j + 1], objects[j + 1..]);
  }

  lemma {:induction false} ResourceWritesNames(dir: string, n: Namer<ObjectStrategy>, objects: seq<K8sObject>)
    ensures WriteNames(ResourceWrites(dir, objects, n)) == ObjectNames(n, objects)
    decreases |objects|
  {
    if objects != [] {
      var init := objects[..|objects| - 1];
      ResourceWritesNames(dir, n, init);
      WriteNamesAppend(ResourceWrites(dir, init, n), [ObjectWrite(dir, n, objects[|objects| - 1])]);
      ObjectNamesSnoc(n, objects);
    }
  }

  lemma {:induction false} ResourceWritesInDir(dir: string, n: Namer<ObjectStrategy>, objects: seq<K8sObject>)
    ensures InDir(ResourceWrites(dir, objects, n), dir)
    decreases |objects|
  {
    if objects != [] {
      ResourceWritesInDir(dir, n, objects[..|objects| - 1]);
    }
  }

  lemma WriteNamesAppend(a: seq<FileWrite>, b: seq<FileWrite>)
    ensures WriteNames(a + b) == WriteNames(a) + WriteNames(b)
  {
  }

  lemma GroupWriteAt(dir: string, n: Namer<FileStrategy>, obj: K8sObject, files: seq<Entry<Bytes>>, i: nat)
    requires i < |files|
    ensures GroupWrites(dir, n, obj, files)[i] == FileWrite(dir, FileName(n, obj, files[i].key), files[i].value)
  {
  }

  /** The writes of the groups before `g`, of group `g`, and of the rest. */
  lemma GeneratorWritesSplit(dir: string, n: Namer<FileStrategy>, groups: seq<FilesObject>, g: nat)
    requires g < |groups|
    ensures var done := GeneratorWrites(dir, n, groups[..g]);
            var mine := GroupWrites(dir, n, groups[g].k8sObject, groups[g].files);
            && GeneratorWrites(dir, n, groups[..g + 1]) == done + mine
            && GeneratorWrites(dir, n, groups) == done + mine + GeneratorWrites(dir, n, groups[g + 1..])
  {
    assert groups[..g + 1][..g] == groups[..g];
    assert groups == groups[..g + 1] + groups[g + 1..];
    GeneratorWritesAppend(dir, n, groups[..g + 1], groups[g + 1..]);
  }

  /** A directory's writes all go to that directory, under pairwise
      distinct names, the manifest last. */
  lemma PlanWritesDistinct(dir: string, c: DirContents)
    requires Plan(dir, c).Ok?
    ensures var ws := Plan(dir, c).value;
            && InDir(ws, dir)
            && Distinct(WriteNames(ws))
            && |ws| > 0 && ws[|ws| - 1].name == KustomizationFile
  {
    var n := ResolveNames(c).value;
    var names := AllNames(c, n);
    ResolvedNamesUnique(c);
    PlanNames(dir, c);
    PlanInDir(dir, c);
    assert KustomizationFile !in names;
    DistinctSnoc(names, KustomizationFile);
  }

  lemma PlanNames(dir: string, c: DirContents)
    requires Plan(dir, c).Ok?
    ensures WriteNames(Plan(dir, c).value) == AllNames(c, ResolveNames(c).value) + [KustomizationFile]
  {
    var n := ResolveNames(c).value;
    var rw := ResourceWrites(dir, c.objects, n.objects);
    var cw := GeneratorWrites(dir, n.configMaps, c.configMaps);
    var sw := GeneratorWrites(dir, n.secrets, c.secrets);
    var last := [FileWrite(dir, KustomizationFile, ManifestText(c, n))];
    GeneratorWritesNames(dir, n.configMaps, c.configMaps);
    GeneratorWritesNames(dir, n.secrets, c.secrets);
    ResourceWritesNames(dir, n.objects, c.objects);
    WriteNamesAppend(rw, cw);
    WriteNamesAppend(rw + cw, sw);
    WriteNamesAppend(rw + cw + sw, last);
  }

  lemma PlanInDir(dir: string, c: DirContents)
    requires Plan(dir, c).Ok?
    ensures InDir(Plan(dir, c).value, dir)
  {
    var n := ResolveNames(c).value;
    var rw := ResourceWrites(dir, c.objects, n.objects);
    var cw := GeneratorWrites(dir, n.configMaps, c.configMaps);
    var sw := GeneratorWrites(dir, n.secrets, c.secrets);
    var last := [FileWrite(dir, KustomizationFile, ManifestText(c, n))];
    GeneratorWritesNames(dir, n.configMaps, c.configMaps);
    GeneratorWritesNames(dir, n.secrets, c.secrets);
    ResourceWritesInDir(dir, n.objects, c.objects);
    InDirAppend(rw, cw, dir);
    InDirAppend(rw + cw, sw, dir);
    InDirAppend(rw + cw + sw, last, dir);
  }

  lemma InDirAppend(a: seq<FileWrite>, b: seq<FileWrite>, dir: string)
    requires InDir(a, dir) && InDir(b, dir)
    ensures InDir(a + b, dir)
  {
  }

  lemma DistinctSnoc(s: seq<string>, x: string)
    requires Distinct(s) && x !in s
    ensures Distinct(s + [x])
  {
  }

  // ---------------------------------------------------------------------
  // The builder

  /** `kustomizationBuilder`. */
  class KustomizationBuilder {
    var k8sObjects: seq<K8sObject>
    var configMapObjects: seq<FilesObject>
    var secretObjects: seq<FilesObject>
    var resources: seq<string>

    /** The directory this builder is for. */
    ghost const dir: string

    function Contents(): DirContents
      reads this
    {
      DirContents(k8sObjects, configMapObjects, secretObjects, resources)
    }

    /** `newKustomizationBuilder`, for the directory `dir`. */
    constructor (ghost dir: string)
      ensures Contents() == EmptyDir && this.dir == dir
    {
      this.dir := dir;
      k8sObjects := [];
      configMapObjects := [];
      secretObjects := [];
      resources := [];
    }

    method AddK8sObject(obj: K8sObject)
      modifies this
      ensures Contents() == old(Contents()).(objects := old(Contents()).objects + [obj])
    {
      k8sObjects := k8sObjects + [obj];
    }

    method AddConfigMapObjects(obj: FilesObject)
      modifies this
      ensures Contents() == old(Contents()).(configMaps := old(Contents()).configMaps + [obj])
    {
      configMapObjects := configMapObjects + [obj];
    }

    method AddSecretObjects(obj: FilesObject)
      modifies this
      ensures Contents() == old(Contents()).(secrets := old(Contents()).secrets + [obj])
    {
      secretObjects := secretObjects + [obj];
    }

    method AddResource(resource: string)
      modifies this
      ensures Contents() == old(Contents()).(resources := old(Contents()).resources + [resource])
    {
      resources := resources + [resource];
    }

    /** `Build`, with the directory the write callback is bound to: either
        the naming error with nothing written, or the planned writes up to
        the first failure. */
    method Build(dir: string, sink: Sink) returns (err: Option<Error>)
      modifies sink
      ensures Plan(dir, Contents()).Err? ==>
                err == Some(Plan(dir, Contents()).error) && sink.written == old(sink.written)
      ensures Plan(dir, Contents()).Ok? ==>
                var o := Perform(sink.fails, Plan(dir, Contents()).value);
                sink.written == old(sink.written) + o.written && err == FailureError(o)
    {
      var namers := SelectFilenameFuncs();
      if namers.Err? {
        return Some(namers.error);
      }
      err := WriteAll(dir, namers.value, sink);
    }

    /** The three selections of `Build`, each reserving the names it gave
        before the next one runs. */
    method SelectFilenameFuncs() returns (r: Result<Namers>)
      ensures r == ResolveNames(Contents())
    {
      var uniq := new ReservedNames({KustomizationFile});
      uniq.Fill(resources);
      assert uniq.names == InitialReserved(Contents());
      var k8sObjectFilenameFunc := SelectUniqueFilenameFuncForK8sObjects(k8sObjects, uniq);
      if k8sObjectFilenameFunc.None? {
        return Err(NoUniqueObjectFilenames);
      }
      var configMapObjectFilenameFunc := SelectUniqueFilenameFuncForFiles(configMapObjects, uniq);
      if configMapObjectFilenameFunc.None? {
        return Err(NoUniqueConfigMapFilenames);
      }
      var secretObjectFilenameFunc := SelectUniqueFilenameFuncForFiles(secretObjects, uniq);
      if secretObjectFilenameFunc.None? {
        return Err(NoUniqueSecretFilenames);
      }
      return Ok(Namers(k8sObjectFilenameFunc.value, configMapObjectFilenameFunc.value, secretObjectFilenameFunc.value));
    }

    /** The writes of `Build` once the names are chosen: the object files,
        the generator files, then the manifest, stopping at the first
        failure. */
    method WriteAll(dir: string, n: Namers, sink: Sink) returns (err: Option<Error>)
      modifies sink
      ensures var o := Perform(sink.fails, DirWrites(dir, Contents(), n));
              sink.written == old(sink.written) + o.written && err == FailureError(o)
    {
      ghost var c := Contents();
      ghost var fails := sink.fails;
      ghost var w0 := sink.written;
      ghost var rw := ResourceWrites(dir, k8sObjects, n.objects);
      ghost var cw := GeneratorWrites(dir, n.configMaps, configMapObjects);
      ghost var sw := GeneratorWrites(dir, n.secrets, secretObjects);
      ghost var last := [FileWrite(dir, KustomizationFile, ManifestText(c, n))];
      ghost var plan := DirWrites(dir, c, n);
      assert plan == rw + cw + sw + last;
      ConcatAssoc(rw + cw, sw, last);
      ConcatAssoc(rw, cw, sw + last);
      assert plan == rw + (cw + (sw + last));
      PerformAppend(fails, rw, cw + (sw + last));
      PerformAppend(fails, cw, sw + last);
      PerformAppend(fails, sw, last);

      var buf := Header;
      buf, err := WriteResources(buf, dir, resources, k8sObjects, n.objects, sink);
      if err.Some? {
        return err;
      }
      ghost var w1 := sink.written;
      assert w1 == w0 + rw;
      buf, err := WriteGenerators(buf, "configMapGenerator", dir, configMapObjects, n.configMaps, sink);
      if err.Some? {
        ConcatAssoc(w0, rw, Perform(fails, cw).written);
        return err;
      }
      ghost var w2 := sink.written;
      assert w2 == w1 + cw;
      buf, err := WriteGenerators(buf, "secretGenerator", dir, secretObjects, n.secrets, sink);
      if err.Some? {
        ghost var x := Perform(fails, sw).written;
        ConcatAssoc(w1, cw, x);
        ConcatAssoc(w0, rw, cw + x);
        return err;
      }
      ghost var w3 := sink.written;
      assert w3 == w2 + sw;
      assert buf == ManifestText(c, n);
      var ok := sink.WriteFile(dir, KustomizationFile, buf);
      ghost var y := Perform(fails, last).written;
      assert sink.written == w3 + y;
      ConcatAssoc(w2, sw, y);
      ConcatAssoc(w1, cw, sw + y);
      ConcatAssoc(w0, rw, cw + (sw + y));
      if !ok {
        return Some(WriteFailed(dir, KustomizationFile));
      }
      return None;
    }

    /** `writeResources`: the resource list, writing each object's file. */
    method WriteResources(buf: string, dir: string, resources: seq<string>, objects: seq<K8sObject>,
                          filenameFunc: Namer<ObjectStrategy>, sink: Sink)
      returns (out: string, err: Option<Error>)
      modifies sink
      ensures var o := Perform(sink.fails, ResourceWrites(dir, objects, filenameFunc));
              sink.written == old(sink.written) + o.written && err == FailureError(o)
      ensures err.None? ==> out == buf + ResourcesSection(resources, objects, filenameFunc)
    {
      if |resources| == 0 && |objects| == 0 {
        return buf, None;
      }
      ghost var names := ObjectNames(filenameFunc, objects);
      var resourceLines := ListResources(resources);
      var objectLines := "";
      var j := 0;
      while j < |objects|
        invariant 0 <= j <= |objects|
        invariant objectLines == ListLines(names[..j])
        invariant sink.written == old(sink.written) + ResourceWrites(dir, objects[..j], filenameFunc)
        invariant Perform(sink.fails, ResourceWrites(dir, objects[..j], filenameFunc)).failure.None?
      {
        ghost var done := ResourceWrites(dir, objects[..j], filenameFunc);
        ghost var mine := [ObjectWrite(dir, filenameFunc, objects[j])];
        ghost var rest := ResourceWrites(dir, objects[j + 1..], filenameFunc);
        ResourceWritesSplit(dir, filenameFunc, objects, j);
        var name := NameObject(filenameFunc, objects[j]);
        assert mine == [FileWrite(dir, name, objects[j].raw)];
        ghost var before := sink.written;
        var ok := sink.WriteFile(dir, name, objects[j].raw);
        if !ok {
          PerformFailsWithin(sink.fails, done, mine, rest);
          assert done + [] == done;
          return buf, Some(WriteFailed(dir, name));
        }
        assert sink.written == before + mine;
        ConcatAssoc(old(sink.written), done, mine);
        PerformSucceedsBoth(sink.fails, done, mine);
        ListLinesStep(names, j);
        objectLines := objectLines + ListLine(name);
        j := j + 1;
      }
      assert names[..j] == names;
      assert objects[..j] == objects;
      return buf + ("\nresources:\n" + resourceLines + objectLines), None;
    }

    /** The first loop of `writeResources`: one line per sub-directory. */
    method ListResources(resources: seq<string>) returns (lines: string)
      ensures lines == ListLines(resources)
    {
      lines := "";
      var i := 0;
      while i < |resources|
        invariant 0 <= i <= |resources|
        invariant lines == ListLines(resources[..i])
      {
        ListLinesStep(resources, i);
        lines := lines + ListLine(resources[i]);
        i := i + 1;
      }
      assert resources[..i] == resources;
    }

    /** `writeGenerators`: one generator entry per group, writing its files. */
    method WriteGenerators(buf: string, generatorType: string, dir: string, objects: seq<FilesObject>,
                           filenameFunc: Namer<FileStrategy>, sink: Sink)
      returns (out: string, err: Option<Error>)
      modifies sink
      ensures var o := Perform(sink.fails, GeneratorWrites(dir, filenameFunc, objects));
              sink.written == old(sink.written) + o.written && err == FailureError(o)
      ensures err.None? ==> out == buf + GeneratorSection(generatorType, filenameFunc, objects)
    {
      if |objects| == 0 {
        return buf, None;
      }
      var text := "";
      var g := 0;
      while g < |objects|
        invariant 0 <= g <= |objects|
        invariant text == GroupsText(generatorType, filenameFunc, objects[..g])
        invariant sink.written == old(sink.written) + GeneratorWrites(dir, filenameFunc, objects[..g])
        invariant Perform(sink.fails, GeneratorWrites(dir, filenameFunc, objects[..g])).failure.None?
      {
        var obj := objects[g];
        ghost var done := GeneratorWrites(dir, filenameFunc, objects[..g]);
        ghost var mine := GroupWrites(dir, filenameFunc, obj.k8sObject, obj.files);
        ghost var rest := GeneratorWrites(dir, filenameFunc, objects[g + 1..]);
        GeneratorWritesSplit(dir, filenameFunc, objects, g);
        var group;
        group, err := WriteGroup(generatorType, dir, obj, filenameFunc, sink);
        PerformStep(sink.fails, old(sink.written), done, mine, rest, sink.written);
        if err.Some? {
          return buf, err;
        }
        GroupsTextStep(generatorType, filenameFunc, objects, g);
        text := text + group;
        g := g + 1;
      }
      assert objects[..g] == objects;
      return buf + ("\n" + generatorType + ":\n" + text), None;
    }

    /** One generator entry of `writeGenerators`: its lines, writing its files. */
    method WriteGroup(generatorType: string, dir: string, obj: FilesObject, filenameFunc: Namer<FileStrategy>, sink: Sink)
      returns (group: string, err: Option<Error>)
      modifies sink
      ensures var o := Perform(sink.fails, GroupWrites(dir, filenameFunc, obj.k8sObject, obj.files));
              sink.written == old(sink.written) + o.written && err == FailureError(o)
      ensures err.None? ==> group == GroupText(generatorType, filenameFunc, obj)
    {
      group := WriteGroupHead("", generatorType, obj.k8sObject);
      assert group == GroupHead(generatorType, obj.k8sObject);
      group, err := WriteFiles(group, dir, obj.files, filenameFunc, obj.k8sObject, sink);
    }

    /** The lines `writeGenerators` writes for one generator before its files. */
    method WriteGroupHead(buf: string, generatorType: string, k8sObj: K8sObject) returns (out: string)
      ensures out == buf + GroupHead(generatorType, k8sObj)
    {
      var nameLine := "- name: " + k8sObj.metadata.name + "\n";
      out := buf + nameLine;
      ghost var h := nameLine;
      if k8sObj.metadata.namespace != "" {
        ConcatAssoc(buf, h, NamespaceLine(k8sObj));
        out := out + ("  namespace: " + k8sObj.metadata.namespace + "\n");
      }
      assert h + NamespaceLine(k8sObj) == h || NamespaceLine(k8sObj) != "";
      h := h + NamespaceLine(k8sObj);
      assert out == buf + h;
      if generatorType == "secretGenerator" && k8sObj.secretType != "" {
        ConcatAssoc(buf, h, TypeLine(generatorType, k8sObj));
        out := out + ("  type: " + k8sObj.secretType + "\n");
      }
      assert h + TypeLine(generatorType, k8sObj) == h || TypeLine(generatorType, k8sObj) != "";
      h := h + TypeLine(generatorType, k8sObj);
      assert out == buf + h;
      ConcatAssoc(buf, h, OptionsLines);
      out := out + OptionsLines;
      h := h + OptionsLines;
      ghost var before := out;
      out := WriteMapFields(out, "annotations", k8sObj.metadata.annotations);
      ConcatAssoc(buf, h, MapFields("annotations", k8sObj.metadata.annotations));
      h := h + MapFields("annotations", k8sObj.metadata.annotations);
      out := WriteMapFields(out, "labels", k8sObj.metadata.labels);
      ConcatAssoc(buf, h, MapFields("labels", k8sObj.metadata.labels));
      h := h + MapFields("labels", k8sObj.metadata.labels);
      if k8sObj.immutable {
        ConcatAssoc(buf, h, ImmutableLine(k8sObj));
        out := out + "    immutable: true\n";
      }
      assert h + ImmutableLine(k8sObj) == h || ImmutableLine(k8sObj) != "";
      h := h + ImmutableLine(k8sObj);
      assert out == buf + h;
    }

    /** `writeFiles`: one line per file, writing each file. */
    method WriteFiles(buf: string, dir: string, files: seq<Entry<Bytes>>, filenameFunc: Namer<FileStrategy>,
                      k8sObj: K8sObject, sink: Sink)
      returns (out: string, err: Option<Error>)
      modifies sink
      ensures var o := Perform(sink.fails, GroupWrites(dir, filenameFunc, k8sObj, files));
              sink.written == old(sink.written) + o.written && err == FailureError(o)
      ensures err.None? ==> out == buf + "  files:\n" + FileLines(filenameFunc, k8sObj, files)
    {
      ghost var ws := GroupWrites(dir, filenameFunc, k8sObj, files);
      var lines := "";
      var i := 0;
      while i < |files|
        invariant 0 <= i <= |files|
        invariant lines == FileLines(filenameFunc, k8sObj, files[..i])
        invariant sink.written == old(sink.written) + ws[..i]
        invariant forall k :: 0 <= k < i ==> !sink.fails(ws[k])
      {
        var key, data := files[i].key, files[i].value;
        var name := NameFile(filenameFunc, k8sObj, key);
        GroupWriteAt(dir, filenameFunc, k8sObj, files, i);
        var ok := sink.WriteFile(dir, name, data);
        if !ok {
          PerformStops(sink.fails, ws, i);
          return buf, Some(WriteFailed(dir, name));
        }
        WrittenExtend(old(sink.written), ws, i, ws[i]);
        PassesExtend(sink.fails, ws, i);
        FileLinesStep(filenameFunc, k8sObj, files, i);
        lines := lines + FileLine(key, name);
        i := i + 1;
      }
      assert files[..i] == files;
      assert ws[..i] == ws;
      return buf + "  files:\n" + lines, None;
    }

    /** `writeMapFields`. */
    method WriteMapFields(buf: string, fieldName: string, data: seq<Entry<string>>) returns (out: string)
      ensures out == buf + MapFields(fieldName, data)
    {
      out := buf;
      if |data| > 0 {
        out := out + ("    " + fieldName + ":\n");
        ghost var head := out;
        var i := 0;
        while i < |data|
          invariant 0 <= i <= |data|
          invariant out == head + EntryLines(data[..i])
        {
          EntryLinesStep(data, i);
          ConcatAssoc(head, EntryLines(data[..i]), EntryLine(data[i]));
          out := out + EntryLine(data[i]);
          i := i + 1;
        }
        assert data[..i] == data;
        ConcatAssoc(buf, "    " + fieldName + ":\n", EntryLines(data));
      }
    }
  }
}
