# kustomizily core, modelled in Dafny

kustomizily reads a stream of Kubernetes manifests and writes them out as a tree
of kustomize directories. Each object lands in a directory chosen by its labels,
or in `crd` for a CustomResourceDefinition. ConfigMaps and Secrets become
`configMapGenerator` / `secretGenerator` entries whose payloads are written as
separate files. Every directory gets a `kustomization.yaml` that lists its files.
Each file name is picked by trying naming strategies in order. The first
strategy that gives unique names wins, and a shared `-`/`_` prefix is then
stripped when that keeps the names unique.

This project models that core:

- the document splitter of `scanner.go`;
- the `Builder` of `builder.go`: routing, classification, the per-document
  loop and the sorted build;
- the per-directory `kustomizationBuilder` of `kustomization.go`: name
  selection, manifest rendering, and the order of file writes.

It proves what these promise.

Modules, one per file:

| file | module | what it holds |
|---|---|---|
| `common.dfy` | `Common` | `Option`, `Result`, the error kinds, Go maps as entry lists, `Lookup` |
| `objects.dfy` | `Objects` | `k8sObject` and its parts, `filesObject`, label lookup |
| `gostrings.dfy` | `GoStrings` | `bytes.Index`, `bytes.IndexByte`, `bytes.TrimSpace` and the string helpers the names use |
| `scanner.dfy` | `Scanner` | `splitYAMLDocument` and the documents it cuts a whole stream into |
| `base64.dfy` | `Base64` | `base64.StdEncoding.DecodeString`, with an encoder as its inverse |
| `quote.dfy` | `Quoting` | the `%q` verb, with an unquoter as its inverse |
| `order.dfy` | `StringOrder` | Go's byte-wise string order and the sorted listing `sort.Strings` gives |
| `naming.dfy` | `Naming` | `charEqual`, `trimPrefix`, `indexOfSeparator`, `longestCommonPrefix`, `getShortName` and the nine filename functions |
| `selection.dfy` | `Selection` | `isUniqueFilenameFunc*`, `selectUniqueFilenameFunc*` and the reserved-name set `uniq` |
| `manifest.dfy` | `Manifest` | the text of `kustomization.yaml` |
| `output.dfy` | `Output` | the `writeFile` callback as a sink that may refuse writes |
| `kustomization.dfy` | `Kustomization` | `kustomizationBuilder` as a class, and what its `Build` writes |
| `builder.dfy` | `Builder` | `Builder` as a class: routing, handlers, `Process`, `Build` |

Objects that the source changes in place are classes:

- `Builder` (the `dirs` map);
- `KustomizationBuilder` (its four lists);
- `ReservedNames` (the `uniq` map);
- `Sink` (the files written).

Their methods are proved against specification functions on values:

- `Handle`, `Step` and `ProcessDocs` for the processing loop;
- `ResolveNames`, `Plan` and `DirWrites` for what one directory writes;
- `BuildRun` and `DirPlans` for the whole build.

Lemmas then state what those functions promise.

Behaviour of the code worth knowing, which the model keeps:

- The reserved-name set is created afresh for each directory
  (kustomization.go:42-48). So names are unique within a directory, which
  `Kustomization.PlanWritesDistinct` proves. Across directories the files are
  still distinct because their directories differ (`Builder.BuildAllDirs`).
- A document ends at the first `"\n---"` (scanner.go:12, 36). The rest of that
  line, whatever it holds, is consumed and dropped
  (`Scanner.SplitAtSeparatorLine`). The line does not have to be exactly
  `---`.
- A separator line with text after the dashes and no final newline yields no
  token, even at end of input (scanner.go:47-50). The scanner then stops and
  the document before it is lost (`Scanner.TrailingSeparatorLineWithoutNewline`).
- `Process` never checks the scanner's error (builder.go:53). So a document
  larger than the scanner's 5 MiB limit ends the loop silently, and `Process`
  returns no error.

## Model

| member | source | states |
|---|---|---|
| Common.Lookup | builder.go:107-114 | a Go map read `m[k]` over an entry list: `None` exactly when no entry has the key, otherwise the value of an entry with that key, and the only one when keys are distinct |
| Objects.Label | kustomization.go:340 | an unset label reads as the empty string; a non-empty result is the value of an entry with that key |
| GoStrings.Index | scanner.go:36 | `bytes.Index`: -1 exactly when the pattern does not occur; otherwise an occurrence with none before it |
| GoStrings.IndexByte | scanner.go:47 | `bytes.IndexByte`: -1 exactly when the byte is absent; otherwise its first position |
| GoStrings.TrimSpace | builder.go:34 | the result is the slice left once leading and trailing white space is gone; it is empty exactly when the input is all white space, and otherwise starts and ends with non-space |
| Scanner.SplitYAMLDocument | scanner.go:31-58 | never consumes more than it has; no token means nothing is consumed; a token is a prefix of the data, no longer than what is consumed, and holds no separator |
| Scanner.Documents | scanner.go:20-28 | the tokens of the scanner over a whole stream; none holds a separator |
| Scanner.SplitAtEndOfInput | scanner.go:32-34 | empty data at end of input: no token, nothing consumed |
| Scanner.SplitAtSeparatorLine | scanner.go:36-48 | with a newline after the first separator, the token is everything before the separator; everything up to and including that newline is consumed, so the rest of the separator line is dropped |
| Scanner.SplitAtSeparatorAtEnd | scanner.go:39-45 | a separator that ends the data closes the last document at end of input; before the end of input it asks for more data |
| Scanner.SplitAtUnterminatedSeparator | scanner.go:47-50 | a separator followed by text without a newline yields nothing, even at end of input |
| Scanner.SplitWithoutSeparator | scanner.go:52-57 | without a separator the whole rest is the last document at end of input; before that, more data is requested |
| Scanner.LeadingDashesAreNotASeparator | scanner.go:36-57 | a stream that starts with `---` and holds no separator after that is one document, dashes included: the separator needs the newline in front of the dashes |
| Scanner.TrailingSeparatorLineWithoutNewline | scanner.go:47-50 | `"a\n--- x"` yields no document at all |
| Scanner.SplitIsStable | scanner.go:31-58 | a token found before the end of input stays the same, with the same advance, whatever data follows; so splitting the whole stream at end of input gives the tokens the buffered scanner returns |
| Scanner.DocumentsOfJoin | scanner.go:31-58 | documents without separators, joined by `---` lines, are split back into exactly those documents |
| Base64.DecodeString | builder.go:142 | a decoded payload consists of bytes |
| Base64.DecodeEncode | builder.go:160 | decoding undoes standard padded encoding for every byte string |
| Base64.EncodeLength | builder.go:160 | the encoding the decoder inverts is a whole number of 4-character quanta |
| Base64.RejectsForeignCharacter | builder.go:142-145 | for every input, a character outside the alphabet that is not padding, once line breaks are dropped, makes decoding fail |
| Base64.RejectsMissingPadding | builder.go:160-163 | for every input, a length that is not a whole number of 4-character quanta once line breaks are dropped makes decoding fail |
| Quoting.Quote | kustomization.go:285 | `%q` output is delimited by double quotes |
| Quoting.UnquoteQuote | kustomization.go:285 | unquoting gives back exactly the quoted string, so each key and value in the manifest is recoverable |
| StringOrder.LessIrreflexive | builder.go:78 | no string sorts before itself |
| StringOrder.LessTransitive | builder.go:78 | the string order is transitive |
| StringOrder.LessTotal | builder.go:78 | of two different strings, one sorts before the other |
| StringOrder.Insert | builder.go:78 | inserting a new string into a strictly sorted list keeps it strictly sorted and adds exactly that string |
| StringOrder.SortedOf | builder.go:74-78 | the listing of a set of directory names is strictly sorted and holds exactly the set |
| StringOrder.SortedUnique | builder.go:78 | a set has only one strictly sorted listing, so the order of `Build` does not depend on map iteration order |
| Naming.CharEqualIsEquivalence | kustomization.go:383-394 | `charEqual` is reflexive, symmetric and transitive |
| Naming.Trimmed | kustomization.go:396-407 | the result is a suffix of the input: shorter by exactly the prefix when the input starts with it, `-` and `_` taken as equal, and the input unchanged otherwise |
| Naming.TrimPrefix | kustomization.go:396-407 | the loop returns `Trimmed` |
| Naming.IndexOfSeparator | kustomization.go:348-354 | -1 exactly when there is no `-` or `_`; otherwise one past the last one |
| Naming.CommonPrefix | kustomization.go:356-381 | empty for fewer than two names; otherwise a prefix of the first name that every name starts with (`-` and `_` taken as equal), and as long as possible |
| Naming.LongestCommonPrefix | kustomization.go:356-381 | the loop returns `CommonPrefix` |
| Naming.ShortNameShape | kustomization.go:338-346 | the short name holds no `:`; it is the name's tail with `:` replaced by `_`, shorter by exactly `<instance>-` when the name starts with it, and as long as the name otherwise |
| Naming.ObjectFilenameEmpty | kustomization.go:308-336 | an object file name is empty exactly for the CRD strategy on an object without group or plural |
| Naming.ObjectFilenameIsYaml | kustomization.go:308-336 | every non-empty object file name ends in `.yaml` |
| Naming.FileFilenameEmpty | kustomization.go:290-306 | a generator file name is empty exactly for the by-key strategy and an empty key |
| Selection.ChooseFrom | kustomization.go:146-188 | a choice exists exactly when some candidate batch is acceptable; it is the first acceptable one; the names it gives, refined or not, are acceptable, one per item; the CRD strategy is never refined; that the trimmed names are chosen whenever they are acceptable is `Selection.FirstAcceptableChosen` |
| Selection.FirstAcceptableChosen | kustomization.go:87-114 | the first acceptable strategy is chosen; unless it is the final first strategy, its names are trimmed to after the last separator of their common prefix exactly when the trimmed names are acceptable, and kept whole otherwise |
| Selection.SharedPrefixIsStripped | kustomization.go:93-109 | `svc-deploy_deployment.yaml` and `svc-cm_configmap.yaml` share the prefix `svc-`, which is stripped |
| Selection.RefinementShape | kustomization.go:93-109 | a refinement happens only for at least two names; it strips a prefix ending in `-` or `_` that every name starts with, and the stripped names are acceptable |
| Selection.NoSeparatorNoRefinement | kustomization.go:99-103 | a common prefix without a separator is never stripped |
| Selection.SelectedObjectNamesAcceptable | kustomization.go:146-188 | the selected object namer gives non-empty, distinct, unreserved names |
| Selection.SelectedFileNamesAcceptable | kustomization.go:80-116 | the selected generator namer gives non-empty, distinct, unreserved names |
| Selection.CRDNamesKept | kustomization.go:160-163 | when the CRD names are acceptable, they are chosen and kept whole |
| Selection.AcceptableConcat | kustomization.go:196-200 | a batch accepted against the names reserved so far can follow an accepted batch without any clash |
| Selection.ObjectPrefixTrimmedWhenAcceptable | kustomization.go:154-186 | when the first acceptable object strategy is not the CRD one, the selected namer trims the common prefix up to its last separator whenever the trimmed names are acceptable, giving exactly the trimmed names, and keeps the names whole otherwise |
| Selection.FilePrefixTrimmedWhenAcceptable | kustomization.go:87-114 | the same for generator files, for every strategy |
| Selection.ReservedNames.Fill | kustomization.go:196-200 | `fillMap` adds exactly the items to the reserved set |
| Selection.NameObject | kustomization.go:190-194 | the chosen object namer (trimmed or not) returns the modelled name |
| Selection.NameFile | kustomization.go:118-122 | the chosen file namer (trimmed or not) returns the modelled name |
| Selection.IsUniqueFilenameFuncForK8sObjects | kustomization.go:202-220 | succeeds exactly when the names are non-empty, distinct and unreserved, and then returns them in order |
| Selection.IsUniqueFilenameFunc | kustomization.go:124-144 | the same over every file of every group, group after group |
| Selection.SelectUniqueFilenameFuncForK8sObjects | kustomization.go:146-188 | returns the specified choice, and reserves exactly the names it gives; nothing is reserved when there is no choice |
| Selection.SelectUniqueFilenameFuncForFiles | kustomization.go:80-116 | returns the specified choice, and reserves exactly the names it gives; nothing is reserved when there is no choice |
| Output.Perform | kustomization.go:65-77 | the writes made are a prefix of those attempted; all were made exactly when none fails; every write made was accepted, and otherwise the write right after them is refused and is the failure |
| Output.PerformStops | kustomization.go:228-233 | when every write before a refused one is accepted, exactly those are made and the refused one is the failure |
| Output.PerformAppend | kustomization.go:65-77 | two batches of writes in a row: the second runs only when the first succeeded |
| Output.Sink.WriteFile | builder.go:81-83 | a write is recorded exactly when the file system accepts it |
| Kustomization.ResolvedNamesUnique | kustomization.go:41-61 | the names of a directory's objects, ConfigMap files and Secret files are distinct, non-empty, and neither `kustomization.yaml` nor a listed resource |
| Kustomization.PlanWritesDistinct | kustomization.go:41-78 | every file a directory writes lands in that directory, no name is written twice, and `kustomization.yaml` is written last |
| Kustomization.PlanNames | kustomization.go:41-78 | the files are written in the order objects, ConfigMap files, Secret files, manifest |
| Kustomization.PlanInDir | builder.go:81-83 | every file of a directory's build is written into that directory |
| Kustomization.KustomizationBuilder.constructor | kustomization.go:21-23 | a new builder is empty |
| Kustomization.KustomizationBuilder.AddK8sObject | kustomization.go:25-27 | appends the object and changes nothing else |
| Kustomization.KustomizationBuilder.AddConfigMapObjects | kustomization.go:29-31 | appends the group and changes nothing else |
| Kustomization.KustomizationBuilder.AddSecretObjects | kustomization.go:33-35 | appends the group and changes nothing else |
| Kustomization.KustomizationBuilder.AddResource | kustomization.go:37-39 | appends the resource and changes nothing else |
| Kustomization.KustomizationBuilder.Build | kustomization.go:41-78 | a naming failure returns its error before any write; otherwise the planned writes are made in order up to the first refused one, whose error is returned |
| Kustomization.KustomizationBuilder.SelectFilenameFuncs | kustomization.go:42-61 | the three selections, each against the names reserved before it, or the first naming error |
| Kustomization.KustomizationBuilder.WriteAll | kustomization.go:63-77 | writes object files, generator files and then the manifest, stopping at the first refused write |
| Kustomization.KustomizationBuilder.WriteResources | kustomization.go:222-237 | writes each object's raw bytes under its name, stopping at a refused write; on success appends the `resources` section |
| Kustomization.KustomizationBuilder.ListResources | kustomization.go:225-227 | one `- <resource>` line per listed directory |
| Kustomization.KustomizationBuilder.WriteGenerators | kustomization.go:239-263 | writes every group's files in order, stopping at a refused write; on success appends the generator section |
| Kustomization.KustomizationBuilder.WriteGroup | kustomization.go:242-259 | one generator entry: writes its files and, on success, appends its text |
| Kustomization.KustomizationBuilder.WriteGroupHead | kustomization.go:243-256 | appends the entry's name, namespace, type, options, annotations, labels and immutable lines |
| Kustomization.KustomizationBuilder.WriteFiles | kustomization.go:265-279 | writes each file's data under its name, stopping at a refused write; on success appends the `files` lines (`key=name` when they differ) |
| Kustomization.KustomizationBuilder.WriteMapFields | kustomization.go:281-288 | appends the quoted map, or nothing for an empty map |
| Builder.FirstSetLabelIsFirst | builder.go:105-117 | the label chosen is set and every label before it is unset; "" exactly when none of them is set |
| Builder.TargetDirIsFirstSetLabel | builder.go:100-118 | a CRD goes to `crd`; any other object goes to the first set label of app.kubernetes.io/component, component, app.kubernetes.io/name and app, in that order, or to the root |
| Builder.Put | builder.go:138 | map assignment: the key now reads as the new value, and every other key is unchanged |
| Builder.PutDistinct | builder.go:138 | map assignment keeps the keys distinct |
| Builder.PutEntriesOk | builder.go:137-147 | filling a file group succeeds exactly when every value decodes |
| Builder.PutEntriesErr | builder.go:141-145 | a failed fill returns the error of the first value that does not decode |
| Builder.PutEntriesLookup | builder.go:137-147 | after a fill, each key reads as its decoded value from the map ranged over, or as before if that map lacks it |
| Builder.ConfigMapFilesLookup | builder.go:131-151 | a ConfigMap's files exist exactly when all `binaryData` decodes; a key reads as its decoded `binaryData` value, or else as its `data` value |
| Builder.SecretFilesLookup | builder.go:153-173 | a Secret's files exist exactly when all `data` decodes; a key reads as its `stringData` value, or else as its decoded `data` value |
| Builder.ClassifyOutcome | builder.go:120-129 | only a v1 ConfigMap or Secret can fail, and only on a payload that does not decode; the result always carries the object itself |
| Builder.InitialRegistry | builder.go:21-25 | a new builder has only the root directory, and the root lists no directory |
| Builder.EnsureEffect | builder.go:91-98 | a new directory starts empty and is appended to the root's resources; no other directory changes |
| Builder.EnsureIdempotent | builder.go:93 | a directory that exists is not added again |
| Builder.PlaceGrows | builder.go:91-98 | adding an item loses no directory and shrinks no list |
| Builder.HandleTouchesOneDirectory | builder.go:120-178 | handling one object changes only its target directory, and for a non-root target the root's resources; the root's objects are untouched |
| Builder.ParseYAMLObject | builder.go:56-65 | an error exactly when decoding fails; the object is kept exactly when kind, apiVersion and name are all set |
| Builder.StepSkipsOrKeeps | builder.go:32-51 | a blank document or one missing an identity field changes nothing; any other document is handled with its trimmed text as its raw bytes |
| Builder.ProcessDocsGrows | builder.go:29-54 | processing loses no directory and shrinks no list |
| Builder.ProcessDocsAppend | builder.go:32-52 | the first error stops processing: later documents are not looked at |
| Builder.BuildRunInDirs | builder.go:80-87 | every file of a build lands in one of the directories built |
| Builder.BuildRunDistinct | builder.go:80-87 | over distinct directories, no file is written twice |
| Builder.BuildRunSucceeded | builder.go:80-88 | a build without error built every directory and every file it wrote was accepted |
| Builder.BuildAllDirs | builder.go:73-89 | building every directory in sorted order writes no (directory, name) twice, and without error every directory's naming succeeded |
| Builder.FillFiles | builder.go:137-147 | the loop returns the specified fill |
| Builder.Builder.constructor | builder.go:21-25 | `NewBuilder`: only the empty root directory |
| Builder.Builder.GetKustomization | builder.go:91-98 | returns the builder of the object's target directory, creating and registering it when missing |
| Builder.Builder.AddDirectory | builder.go:93-96 | a new empty builder is registered in the root's resources |
| Builder.Builder.HandleGenericResource | builder.go:175-178 | the object is appended to its directory |
| Builder.Builder.HandleConfigMap | builder.go:131-151 | a payload that does not decode is returned and nothing changes; otherwise the ConfigMap's files are added to its directory |
| Builder.Builder.HandleSecret | builder.go:153-173 | a payload that does not decode is returned and nothing changes; otherwise the Secret's files are added to its directory |
| Builder.Builder.HandleResourceType | builder.go:120-129 | the new directories are those `Handle` specifies, or its error with nothing changed |
| Builder.Builder.ProcessDocument | builder.go:33-51 | one loop iteration: trim, skip or parse, then handle; the error stops with nothing changed |
| Builder.Builder.Process | builder.go:29-54 | the directories after `Process` are those `ProcessDocs` gives over the documents of the stream, and so is the error |
| Builder.Builder.SortedDirs | builder.go:74-78 | the directory names in sorted order |
| Builder.Builder.Build | builder.go:73-89 | builds the directories in sorted order, each writing into its own directory, and stops at the first error |

## Left out

- YAML decoding (`yaml.Unmarshal`) is a parameter `decode` of `Process`. `None` stands for a decoding error. Its error text is the single error kind `MalformedDocument`.
- The scanner's buffering: the 4 KiB initial buffer, the 5 MiB token limit and reads from the `io.Reader`. `Documents` splits the whole stream at end of input. `Scanner.SplitIsStable` shows that this gives the tokens the buffered scanner returns. An oversized document is not modelled.
- Go map iteration order is unspecified. Every map is an entry list, and the list order stands for one iteration order.
- `sort.Strings` is modelled by its result, the unique strictly sorted listing (`StringOrder.SortedOf`), not by its algorithm.
- Base64.DecodeString: only the RFC 4648 section 4 alphabet with padding, as `StdEncoding` uses it. Its contract states only that the result is bytes. What it decodes is stated by `Base64.DecodeEncode` and the two rejection lemmas. Go's error position (`CorruptInputError`) is reduced to the error kind `InvalidBase64(key)`.
- Quoting.Quote: only ASCII. Go's `%q` escapes of non-ASCII and invalid UTF-8 are not modelled.
- GoStrings.TrimSpace: like `strings.ToLower`, only ASCII. Unicode white space and case mapping are not modelled.
- Bytes and strings are both `seq<char>`, one character per byte.
- `cloneBytes` (builder.go:67-71) is the identity on values. Aliasing of the byte slice is not modelled.
- The error messages of `fmt.Errorf` are error kinds. The write callback's error is `WriteFailed(dir, name)`.
- Builder.Builder.GetKustomization: adds the new directory to the root's resources before inserting it into `dirs`. builder.go:94-95 does it the other way round. The resulting state is the same.
- `Kustomization.KustomizationBuilder` carries a ghost `dir`, the directory it serves. It exists only for the proofs.
- `fs.go` (the directory writer), `handler.go` and `cmd/main.go` are not part of this model. They are file-system and command-line glue.
- Builder.Builder.Build: the contract fixes what is written and returned. The fact that no file is written twice is stated separately, by `Builder.BuildAllDirs`, about the same run.
