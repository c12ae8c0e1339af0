# kaniko-image, modelled in Dafny

kaniko-image is one Go program, `main.go`. It takes four flags: a git
repository, a project name, a target registry and a namespace. From them it
builds a Kubernetes Pod that runs a kaniko image build, and it replaces any
Pod of that name in the namespace. The Pod has two containers:

- an init container, `alpine/git`, that clones the repository into the
  shared `workdir` volume;
- a build container, the kaniko executor, that builds
  `/workspace/<project>/Dockerfile` and pushes the image to the registry.

The layer cache lives under the first `/`-separated field of the registry,
followed by `/cache`. The build container also mounts the `kaniko-secret`
Secret, which holds the registry's credentials. The Pod is placed on the
nodes labelled and tainted `kaniko=enabled`, and it is never restarted. To
replace the Pod, the program first deletes any Pod of that name and ignores
the outcome. It then creates the new Pod, and a failed create ends the run.

The model has six modules:

- `Wrappers` (wrappers.dfy): `Option` and `Result`.
- `Registry` (registry.dfy): Go's `strings.FieldsFunc(registry, c == '/')` as
  `Fields`. This is a left-to-right scan (`Scan`) that emits the current run
  of non-separators at each separator and at the end. `CacheRepo` derives the
  cache address from the first field and returns an error when there is no
  field.
- `Kube` (kube.dfy): the small part of the Kubernetes core/v1 types that the
  Pod literal fills in. It also holds the scheduler's rule for matching a
  toleration to a taint, and the predicate "every mount names a declared
  volume".
- `PodBuilder` (podbuilder.dfy): the Pod literal as the pure function
  `BuildPod`.
- `KanikoFlags` (flags.dfy): an independent decoder for the `--name=value`
  arguments, which splits each one at its first `=`. It proves that a reader
  of this kind gets back exactly the values main.go puts in.
- `PodStore` (store.dfy): a `Store` class whose `pods` map replaces the
  cluster's Pod API, keyed by (namespace, name). It has `Delete`, `Create`,
  the delete-then-create `Replace`, and `Provision` for the whole run.

`BuildPod` is a function, so it is deterministic: the same flags give the
same Pod.

Facts about main.go that the model keeps:

- main.go does not check that the project or the repository is non-empty,
  and neither does the model.
- main.go handles only a Pod, and it deletes the Pod without first looking
  it up.
- On an empty or all-`/` registry the code panics on `seq[0]` at main.go:74,
  which is before any call to the cluster. The model returns
  `BuildFailed(InvalidRegistryAddress)` and leaves the store unchanged.

## Model

| member | source | states |
|---|---|---|
| Registry.FieldsWellFormed | main.go:44-45 | every field of the split is non-empty and contains no `/` |
| Registry.FieldsConcat | main.go:44-45 | the fields, concatenated, are the registry with every `/` removed |
| Registry.FieldsEmptyIff | main.go:44-45 | the split has no field exactly when the registry has no character other than `/` |
| Registry.FieldsSplit | main.go:44-45 | `Fields(a + "/" + b) == Fields(a) + Fields(b)`: a separator cuts the string into independently split halves |
| Registry.FieldsCollapse | main.go:44-45 | a doubled `/` splits as a single one |
| Registry.FieldsTrim | main.go:44-45 | a leading or trailing `/` changes nothing |
| Registry.FieldsOfField | main.go:44-45 | a non-empty string without `/` is its own single field |
| Registry.FieldsOfJoin | main.go:44-45 | splitting undoes joining well-formed fields with `/` |
| Registry.FirstField | main.go:45 | for leading `/`s, a field `f`, and a rest that is empty or starts at `/`, the first field is `f` |
| Registry.CacheRepo | main.go:74 | the cache address exists exactly when the registry has a non-`/` character; the other case is `InvalidRegistryAddress`, where Go panics |
| Registry.CacheRepoOfFirstField | main.go:74 | the cache address is the first field followed by `/cache` |
| Registry.CacheRepoExample | main.go:74 | `myhost.com/org/image` gives `myhost.com/cache` |
| Registry.CacheRepoNoField | main.go:74 | `""` and `"//"` have no cache address |
| PodBuilder.BuildPod | main.go:46-113 | a Pod exists exactly when the registry has a field; every mount of every container names a declared volume; every node-selector label has a toleration of its taint |
| PodBuilder.PodMetadata | main.go:47-53 | the Pod is named after the project, is in the given namespace, and has exactly the labels `{app: kaniko}` |
| PodBuilder.PodInitContainer | main.go:55-68 | exactly one init container: `alpine/git`, command `git clone <repo>`, mounting `workdir` at `/git` |
| PodBuilder.PodBuildContainer | main.go:69-85 | exactly one build container, the kaniko executor, with the six arguments in order; the cache repo is `<first field>/cache` |
| PodBuilder.PodVolumes | main.go:61-111 | the volumes are `workdir` and `kaniko-secret`; the latter is backed by the Secret `kaniko-secret`; both containers mount `workdir` (at `/git` and `/workspace`); only the build container mounts the secret |
| PodBuilder.PodPlacement | main.go:87-98 | the node selector is `{kaniko: enabled}`; the only toleration is kaniko=enabled, `Equal`, `NoSchedule`; it tolerates exactly the taint kaniko=enabled:NoSchedule; the restart policy is `Never` |
| KanikoFlags.ParseRender | main.go:74 | reading a written `--name[=value]` flag gives the flag back, whatever the value contains |
| KanikoFlags.DockerfileArgDecode | main.go:74 | `--dockerfile=…` reads as the flag `dockerfile` with value `/workspace/<project>/Dockerfile` |
| KanikoFlags.ContextArgDecode | main.go:74 | `--context=…` reads as the flag `context` with value `dir://workspace/<project>` |
| KanikoFlags.DestinationArgDecode | main.go:74 | `--destination=…` reads as the flag `destination` with the registry as its value |
| KanikoFlags.CacheArgDecode | main.go:74 | `--cache=true` reads as the flag `cache` with value `true` |
| KanikoFlags.CacheRepoArgDecode | main.go:74 | `--cache-repo=…` reads as the flag `cache-repo` with the cache address as its value |
| KanikoFlags.CleanupArgDecode | main.go:74 | `--cleanup` reads as the flag `cleanup` with no value |
| KanikoFlags.BuildArgsDecode | main.go:74 | the six arguments read, in order, as the dockerfile, context, destination, cache, cache-repo and cleanup flags with the values main.go intends |
| PodStore.Store.Delete | main.go:116-119 | removes the (namespace, name) entry and nothing else, after which no stored Pod has that namespace and name; reports `NotFound` when the entry was absent |
| PodStore.Store.Create | main.go:120-123 | fails with `AlreadyExists` and changes nothing when the key is taken; otherwise adds exactly the new Pod |
| PodStore.Store.Replace | main.go:115-123 | ignores the delete outcome and always creates; in the abstract store, where a delete takes effect at once, the create succeeds; the new store is the old one with the key mapped to the new Pod, which is the only stored Pod of that namespace and name; the store stays keyed |
| PodStore.Store.Provision | main.go:44-123 | with no registry field, the run fails before any store operation; otherwise it succeeds with key (namespace, project) and stores the built Pod under it |
| PodStore.ReplacedFrame | main.go:115-123 | after a replace the key maps to the new Pod; the other keys and their Pods are unchanged |
| PodStore.ReplacedIdempotent | main.go:115-123 | replacing the same Pod twice gives the same store as replacing it once |
| PodStore.ReplacedKeyed | main.go:120 | replacing keeps every Pod stored under its own namespace and name |
| PodStore.ProvisionTwice | main.go:115-123 | two runs in a row give the same outcome and the store state of one run; with a usable registry both succeed |
| PodStore.ReplaceFresh | main.go:116-123 | in an empty store the delete reports `NotFound` and the create succeeds |

## Left out

- Flag parsing, the `--c` kubeconfig flag and its home-directory default (main.go:26-35): command-line and OS plumbing. The four flag values are parameters here.
- Kubeconfig loading and clientset construction (main.go:36-43): foreign library calls and I/O. Their panics come before any modelled step. The store class stands in for the clientset.
- The API transport. The abstract store fails a delete only with "not found" and a create only with "already exists". Network, authorization and validation errors are not modelled, and neither are the delete options or propagation.
- The namespace passed to `Pods(namespace)`. main.go always passes the Pod's own metadata namespace, so the store keys each Pod by its metadata.
- Printing the delete error (main.go:118). `Replace` returns the outcome and the run ignores it.
- `panic` as a mechanism. It becomes an `Err` result.
- Server-side defaulting and scheduling. This covers the API server turning the source-less `workdir` volume into an emptyDir, the rule that init containers run to completion before the build container starts, and taint enforcement on nodes. The model keeps the Pod as submitted. It matches tolerations to taints with Kubernetes' rule for tolerations that name an effect; a toleration with an empty effect, which matches every effect, cannot be written in the model.
- Concurrent callers. Another client can create the Pod between the delete and the create. `Create` models that outcome as `AlreadyExists`. In the abstract store a sequential `Replace` never reaches it.
- Store.Delete, Store.Replace, ProvisionTwice, ReplaceFresh: graceful deletion is not modelled. `Delete` removes the Pod at once. main.go:116 deletes with empty delete options, and Kubernetes then keeps a running Pod under its name until it terminates (30 seconds of grace by default). So a real create straight after the delete can fail with AlreadyExists, and main.go:122 then panics. The promises that the create succeeds hold only for the abstract store.
- Go strings are byte sequences that `FieldsFunc` reads as runes. The model's strings are sequences of `char`. Since `/` is ASCII, the split is the same.
- The kaniko executor's real flag library. The decoder reads only the two forms main.go writes, `--name=value` and `--name`. It does not cover the other spellings the library accepts, such as `--name value`.
- The unused global `seq` (main.go:22), which the local at main.go:45 shadows.
