/** The decoded Kubernetes object (builder.go) and the file groups that
    ConfigMaps and Secrets become (kustomization.go). Only the fields the
    builder reads are kept; YAML decoding itself is an input. */
module Objects {
  import opened Common

  datatype Metadata = Metadata(
    namespace: string,
    name: string,
    labels: seq<Entry<string>>,
    annotations: seq<Entry<string>>)

  datatype SpecNames = SpecNames(plural: string)

  /** The part of `spec` that a CustomResourceDefinition uses. */
  datatype Spec = Spec(group: string, names: SpecNames)

  datatype K8sObject = K8sObject(
    kind: string,
    apiVersion: string,
    metadata: Metadata,
    spec: Spec,
    data: seq<Entry<string>>,
    binaryData: seq<Entry<string>>,
    stringData: seq<Entry<string>>,
    immutable: bool,
    secretType: string,
    raw: Bytes)

  /** A ConfigMap or Secret with the files its generator will reference. */
  datatype FilesObject = FilesObject(k8sObject: K8sObject, files: seq<Entry<Bytes>>)

  /** `obj.Metadata.Labels[key]`: the empty string when the label is unset. */
  function Label(obj: K8sObject, key: string): (v: string)
    ensures !HasKey(obj.metadata.labels, key) ==> v == ""
    ensures v != "" ==> exists i :: 0 <= i < |obj.metadata.labels|
                         && obj.metadata.labels[i] == Entry(key, v)
  {
    match Lookup(obj.metadata.labels, key)
    case None => ""
    case Some(v) => v
  }
}
