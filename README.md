# Kubernetes log scanner, modelled in Dafny

This project models the Kubernetes scanner of the Datadog agent's logs
pipeline (`pkg/logs/input/kubernetes/scanner.go`). The scanner keeps one log
source per running container. For each pod the pod provider reports as added,
it builds a descriptor for every container it does not track yet. It stores
that descriptor in `sourcesByContainer`, keyed by container ID, and registers
it with the shared `LogSources` registry. For each pod reported as removed, it
deletes the entry of every tracked container and unregisters the source that
was stored for it.

Modules:

- `Kubelet`, `Tagger`, `Config` and `Wrappers` hold the foreign types the
  scanner uses:
  - the pod and container status records;
  - the tagger, as a function from container ID and cardinality flag to its
    reply (tags plus an error);
  - the log-source descriptor and its configuration;
  - the registry, as a class that records the `AddSource`/`RemoveSource`
    calls it receives.
- `KubernetesSource` holds the descriptor builder (`getSource`,
  `getSourceName`, `getPath`, `getTags`) and its constants.
- `Strings` has `Split` and `Join` on a separator. They are the reference
  inverse used to state the exact name and path formats.
- `Reconcile` states what an added or removed pod does, as functions on
  values:
  - the new table;
  - the registry calls made, each tagged with the container it was made for.

  It also proves the properties.
- `KubernetesScanner` holds the `Scanner` class:
  - `AddSources` and `RemoveSources` run the loops of `addSources` and
    `removeSources` over the pod's containers and update the table and the
    registry in place;
  - `Run` handles a sequence of pod events in arrival order.

  Each method is tied to the `Reconcile` functions, and each keeps the
  invariant `Valid()`:
  - the registry received exactly the scanner's calls since the scanner was
    made;
  - the sources left live by the scanner's own calls are exactly the table's
    sources, counted with multiplicity (calls the registry held before the
    scanner was made are not counted);
  - every container's own call history agrees with its table entry (no entry
    and no live source, or one entry and that one source live).

## Model

| member | source | states |
|---|---|---|
| KubernetesSource.GetSource | pkg/logs/input/kubernetes/scanner.go:108-117 | The descriptor has type `file`, source and service both `kubernetes`, and the tags the tagger gives for the container ID with high cardinality |
| KubernetesSource.SourceNameParts | pkg/logs/input/kubernetes/scanner.go:119-122 | The source name is namespace, pod name and container name joined by `/`; with slash-free names it splits back into exactly those three |
| KubernetesSource.PathIsJoin | pkg/logs/input/kubernetes/scanner.go:124-127 | The path is `/var/log/pods`, the pod UID, the container name and `*.log` joined by `/` |
| KubernetesSource.PathParts | pkg/logs/input/kubernetes/scanner.go:124-127 | With slash-free names the path splits into exactly `""`, `var`, `log`, `pods`, UID, container name, `*.log` |
| KubernetesSource.SourceIdentifiesContainer | pkg/logs/input/kubernetes/scanner.go:108-127 | Equal descriptors (with slash-free names) come from the same namespace, pod name, pod UID and container name |
| KubernetesSource.TagErrorIgnored | pkg/logs/input/kubernetes/scanner.go:129-133 | The tagger's error is dropped: two replies with the same tags give the same descriptor, whatever their errors |
| KubernetesSource.ExampleDescriptor | pkg/logs/input/kubernetes/scanner.go:108-133 | For container `nginx` (ID `c1`) of pod `default/web-0` with UID `abc123`, whose only container it is, and a failing tagger: name `default/web-0/nginx`, path `/var/log/pods/abc123/nginx/*.log`, type `file`, no tags |
| KubernetesSource.GetSourceName | pkg/logs/input/kubernetes/scanner.go:119-122 | Computes namespace, pod name and container name separated by `/`; its exact format is stated by `SourceNameParts` |
| KubernetesSource.GetPath | pkg/logs/input/kubernetes/scanner.go:124-127 | Computes the pods directory, pod UID, container name and `*.log` separated by `/`; its exact format is stated by `PathIsJoin` and `PathParts` |
| KubernetesSource.GetTags | pkg/logs/input/kubernetes/scanner.go:129-133 | Computes the tags of the tagger's high-cardinality reply for the container ID, dropping the error; stated by `GetSource` and `TagErrorIgnored` |
| Reconcile.AddOne | pkg/logs/input/kubernetes/scanner.go:84-90 | One iteration of the `addSources` loop: skip a tracked ID, otherwise store the built descriptor and record one `AddSource`; its effect per ID is stated by `AddOneCalls` and used by `AddEntry` and `AddCalls` |
| Reconcile.AddContainers | pkg/logs/input/kubernetes/scanner.go:82-92 | The `addSources` loop over the pod's containers, in order; characterised by `AddEntry` and `AddCalls`, and proved equal to `Scanner.AddSources` |
| Reconcile.RemoveOne | pkg/logs/input/kubernetes/scanner.go:97-101 | One iteration of the `removeSources` loop: for a tracked ID, delete the entry and record one `RemoveSource` of the stored source; its effect per ID is stated by `RemoveOneCalls` |
| Reconcile.RemoveContainers | pkg/logs/input/kubernetes/scanner.go:95-103 | The `removeSources` loop over the pod's containers, in order; characterised by `RemoveEntry` and `RemoveCalls`, and proved equal to `Scanner.RemoveSources` |
| Reconcile.HandleEvent | pkg/logs/input/kubernetes/scanner.go:68-74 | The dispatch of one event in `run`: an added pod goes to `AddContainers`, a removed pod to `RemoveContainers`; its invariant is `HandleEventKeepsInvariants` |
| Reconcile.ProcessEvents | pkg/logs/input/kubernetes/scanner.go:66-79 | The events handled one after another, the table threaded through and the calls concatenated in order; its invariant is `ProcessEventsKeepsInvariants`, and it is proved equal to `Scanner.Run` |
| Config.LogSources.AddSource | pkg/logs/input/kubernetes/scanner.go:90 | The registry call made for a new container: appends one `AddCall` of the source to the registry's call log and changes nothing else |
| Config.LogSources.RemoveSource | pkg/logs/input/kubernetes/scanner.go:100 | The registry call made for a removed container: appends one `RemoveCall` of the source to the registry's call log and changes nothing else |
| Reconcile.AddOneCalls | pkg/logs/input/kubernetes/scanner.go:84-90 | One `addSources` iteration adds, for container `id`, exactly one `AddCall` of the built descriptor when the container has that ID and is untracked, and no call otherwise |
| Reconcile.RemoveOneCalls | pkg/logs/input/kubernetes/scanner.go:97-101 | One `removeSources` iteration adds, for container `id`, exactly one `RemoveCall` of the stored source when the container has that ID and is tracked, and no call otherwise |
| Reconcile.AddEntry | pkg/logs/input/kubernetes/scanner.go:82-92 | After an add, an ID is in the table iff it was there or belongs to a container of the pod. Old entries keep their source. A new entry holds the descriptor of the first container with that ID |
| Reconcile.AddCalls | pkg/logs/input/kubernetes/scanner.go:85-90 | An add makes exactly one `AddSource` for each newly tracked ID, with the stored descriptor, and no call for any other ID |
| Reconcile.AddTrackedIsNoop | pkg/logs/input/kubernetes/scanner.go:85-87 | A pod whose containers are all tracked changes nothing and makes no call |
| Reconcile.AddIdempotent | pkg/logs/input/kubernetes/scanner.go:82-92 | Adding the same pod a second time changes nothing and makes no call |
| Reconcile.AddDespiteTagError | pkg/logs/input/kubernetes/scanner.go:88-90 | When the tagger answers with an error and no tags, an untracked container of an added pod still gets exactly one `AddSource`, for a `file` source with no tags |
| Reconcile.RemoveEntry | pkg/logs/input/kubernetes/scanner.go:95-103 | After a remove, an ID is in the table iff it was there and belongs to no container of the pod. Surviving entries are unchanged |
| Reconcile.RemoveCalls | pkg/logs/input/kubernetes/scanner.go:98-100 | A remove makes exactly one `RemoveSource` for each tracked ID of the pod, with the source stored for it, and no call for any other ID |
| Reconcile.RemoveUntrackedIsNoop | pkg/logs/input/kubernetes/scanner.go:98-101 | A pod none of whose containers is tracked changes nothing and makes no call |
| Reconcile.RemoveIdempotent | pkg/logs/input/kubernetes/scanner.go:95-103 | Removing the same pod a second time changes nothing and makes no call |
| Reconcile.AddThenRemove | pkg/logs/input/kubernetes/scanner.go:82-103 | Removing a pod just after adding it leaves exactly the old entries of the containers outside the pod |
| Reconcile.AddKeepsReconciled | pkg/logs/input/kubernetes/scanner.go:82-92 | An add keeps every container's call history in step with its table entry |
| Reconcile.RemoveKeepsReconciled | pkg/logs/input/kubernetes/scanner.go:95-103 | A remove keeps every container's call history in step with its table entry |
| Reconcile.AddKeepsLive | pkg/logs/input/kubernetes/scanner.go:88-90 | After an add, the sources left live by the scanner's own calls are still exactly the table's sources, as a multiset |
| Reconcile.RemoveKeepsLive | pkg/logs/input/kubernetes/scanner.go:98-100 | After a remove, the sources left live by the scanner's own calls are still exactly the table's sources, as a multiset |
| Reconcile.AddKeepsInvariants | pkg/logs/input/kubernetes/scanner.go:82-92 | An add keeps both invariants |
| Reconcile.RemoveKeepsInvariants | pkg/logs/input/kubernetes/scanner.go:95-103 | A remove keeps both invariants |
| Reconcile.HandleEventKeepsInvariants | pkg/logs/input/kubernetes/scanner.go:68-74 | One added or removed pod event keeps both invariants |
| Reconcile.ProcessEventsKeepsInvariants | pkg/logs/input/kubernetes/scanner.go:66-79 | Any sequence of pod events keeps both invariants |
| Reconcile.AtMostOneLive | pkg/logs/input/kubernetes/scanner.go:23-27 | With the invariant, the live sources for one container are its table entry's source or none, so at most one |
| KubernetesScanner.Scanner.constructor | pkg/logs/input/kubernetes/scanner.go:43-48 | A new scanner has an empty table, uses the given registry, and satisfies `Valid()` whatever the registry already held |
| KubernetesScanner.Scanner.AddSources | pkg/logs/input/kubernetes/scanner.go:82-92 | Keeps `Valid()`. The new table, trace and registry calls are those of `AddContainers`. Every container ID of the pod is a key. Old entries are untouched. Other IDs keep their membership |
| KubernetesScanner.Scanner.RemoveSources | pkg/logs/input/kubernetes/scanner.go:95-103 | Keeps `Valid()`. The new table, trace and registry calls are those of `RemoveContainers`. No container ID of the pod remains a key. Other IDs keep their membership. Surviving entries are unchanged |
| KubernetesScanner.Scanner.Run | pkg/logs/input/kubernetes/scanner.go:66-79 | Keeps `Valid()`. The new table, trace and registry calls are those of `ProcessEvents` over the events, handled in order |

## Left out

- `Start`, `Stop`, the `stopped` channel and the `select` in `run`: concurrency is not modelled. `Run` takes the events the pod provider would deliver as one sequence, in arrival order, and the stop signal is the end of that sequence.
- `NewScanner`'s construction of the pod provider and its call to the tagger's initialisation (with their errors): out of scope. The constructor models only the returned value, lines 43-48.
- Logging (`log.Info`, `log.Infof`): no effect on state.
- The tagger has no internals here. It is a function parameter that stays fixed for one `Run`, so a tagger whose answers change over time is not modelled.
- The registry's internals: `LogSources` is a log of the calls it receives. Other producers sharing the same registry are not modelled, beyond the calls it held before the scanner was made.
- Pointer identity: descriptors are values. Two equal descriptors are counted with multiplicity in the live multiset, not told apart by address.
- `fmt.Sprintf` is modelled as string concatenation of the same pieces. Strings are sequences of characters with no encoding.
- Failed tag lookups: the scanner keeps whatever tags the tagger returns together with its error and never substitutes an empty set (scanner.go:131). `AddDespiteTagError` covers a failing tagger that returns no tags.
- `pkg/metadata/v5/payload_gohai.go` is not part of this model: it is unrelated to the scanner.
