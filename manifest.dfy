/** The text of a directory's `kustomization.yaml`, as `Build` and the
    `write*` methods append it to their buffer (kustomization.go:63-288). */
module Manifest {
  import opened Common
  import opened Objects
  import opened Naming
  import opened Quoting
  import opened Selection

  const Header: string := "apiVersion: kustomize.config.k8s.io/v1beta1\nkind: Kustomization\n"

  function ListLine(x: string): string {
    "- " + x + "\n"
  }

  /** One "- x" line per entry, in order. */
  function ListLines(xs: seq<string>): string {
    if xs == [] then "" else ListLines(xs[..|xs| - 1]) + ListLine(xs[|xs| - 1])
  }

  /** The `resources:` list: sub-directories first, then the object files. */
  function ResourcesSection(resources: seq<string>, objects: seq<K8sObject>, n: Namer<ObjectStrategy>): string {
    if |resources| > 0 || |objects| > 0 then
      "\nresources:\n" + ListLines(resources) + ListLines(ObjectNames(n, objects))
    else ""
  }

  function EntryLine(e: Entry<string>): string {
    "      " + Quote(e.key) + ": " + Quote(e.value) + "\n"
  }

  function EntryLines(es: seq<Entry<string>>): string {
    if es == [] then "" else EntryLines(es[..|es| - 1]) + EntryLine(es[|es| - 1])
  }

  /** `writeMapFields`: nothing for an empty map. */
  function MapFields(fieldName: string, data: seq<Entry<string>>): string {
    if |data| > 0 then "    " + fieldName + ":\n" + EntryLines(data) else ""
  }

  /** The line of one generator file: `key=name`, or `key` when they agree. */
  function FileLine(key: string, name: string): string {
    if name != key then "  - " + key + "=" + name + "\n" else "  - " + key + "\n"
  }

  function FileLines(n: Namer<FileStrategy>, obj: K8sObject, files: seq<Entry<Bytes>>): string {
    if files == [] then ""
    else
      var key := files[|files| - 1].key;
      FileLines(n, obj, files[..|files| - 1]) + FileLine(key, FileName(n, obj, key))
  }

  function NamespaceLine(obj: K8sObject): string {
    if obj.metadata.namespace != "" then "  namespace: " + obj.metadata.namespace + "\n" else ""
  }

  function TypeLine(generatorType: string, obj: K8sObject): string {
    if generatorType == "secretGenerator" && obj.secretType != "" then "  type: " + obj.secretType + "\n" else ""
  }

  function ImmutableLine(obj: K8sObject): string {
    if obj.immutable then "    immutable: true\n" else ""
  }

  const OptionsLines: string := "  options:\n    disableNameSuffixHash: true\n"

  /** The entry of one generator before its file list. */
  function GroupHead(generatorType: string, obj: K8sObject): string {
    "- name: " + obj.metadata.name + "\n"
    + NamespaceLine(obj)
    + TypeLine(generatorType, obj)
    + OptionsLines
    + MapFields("annotations", obj.metadata.annotations)
    + MapFields("labels", obj.metadata.labels)
    + ImmutableLine(obj)
  }

  function GroupText(generatorType: string, n: Namer<FileStrategy>, g: FilesObject): string {
    GroupHead(generatorType, g.k8sObject) + "  files:\n" + FileLines(n, g.k8sObject, g.files)
  }

  function GroupsText(generatorType: string, n: Namer<FileStrategy>, groups: seq<FilesObject>): string {
    if groups == [] then ""
    else GroupsText(generatorType, n, groups[..|groups| - 1]) + GroupText(generatorType, n, groups[|groups| - 1])
  }

  /** The `configMapGenerator:` or `secretGenerator:` list; nothing when
      there are no generators. */
  function GeneratorSection(generatorType: string, n: Namer<FileStrategy>, groups: seq<FilesObject>): string {
    if |groups| > 0 then "\n" + generatorType + ":\n" + GroupsText(generatorType, n, groups) else ""
  }

  // ---------------------------------------------------------------------
  // One more entry appends one more line

  lemma ListLinesStep(xs: seq<string>, i: nat)
    requires i < |xs|
    ensures ListLines(xs[..i + 1]) == ListLines(xs[..i]) + ListLine(xs[i])
  {
    assert xs[..i + 1][..i] == xs[..i];
  }

  lemma EntryLinesStep(es: seq<Entry<string>>, i: nat)
    requires i < |es|
    ensures EntryLines(es[..i + 1]) == EntryLines(es[..i]) + EntryLine(es[i])
  {
    assert es[..i + 1][..i] == es[..i];
  }

  lemma FileLinesStep(n: Namer<FileStrategy>, obj: K8sObject, files: seq<Entry<Bytes>>, i: nat)
    requires i < |files|
    ensures FileLines(n, obj, files[..i + 1])
            == FileLines(n, obj, files[..i]) + FileLine(files[i].key, FileName(n, obj, files[i].key))
  {
    assert files[..i + 1][..i] == files[..i];
  }

  lemma GroupsTextStep(generatorType: string, n: Namer<FileStrategy>, groups: seq<FilesObject>, i: nat)
    requires i < |groups|
    ensures GroupsText(generatorType, n, groups[..i + 1])
            == GroupsText(generatorType, n, groups[..i]) + GroupText(generatorType, n, groups[i])
  {
    assert groups[..i + 1][..i] == groups[..i];
  }
}
