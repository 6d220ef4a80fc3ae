# k8s_collector core, modelled in Dafny

k8s_collector runs as a Job in a Kubernetes cluster. It reads a
`Configuration` from a ConfigMap. For each `Log` target it lists the selected
pods and streams every container's log into `dir/logs/<namespace>/<pod>-<container>`.
When a container has restarted, it also writes the previous incarnation's log
to the same name with `.previous` appended. For each `Resource` target it
lists the objects of that kind and writes each one as YAML to
`dir/resources/<namespace>/<kind>/<name>.yaml`. Errors of individual
targets do not stop the session; they are folded into one error with
`errors.Wrap`.

The model is functional. Every call into the cluster, the scheme, the
serialisers and the filesystem is a field of the oracle record `Oracles.Env`
(a fixed answer per argument). Every operation returns an `Effects.Run`: the
trace of calls it made, in order, and the error it returned (`None` is nil).
A small file-tree semantics (`Effects.Store`, `Effects.ApplyAll`) gives the
file contents a trace leaves behind.

Modules:

- `Base`: `Option`, `Result`, errors, with `Message` modelling `Error()` of
  a wrapped error; byte and integer widths.
- `Seqs`: first-match search, join/split on a separator, reverse.
- `Config`, `Kube`: the configuration types and the Kubernetes records the
  core touches.
- `Paths`: `path.Join` (empty segments are dropped) and `filepath.Dir`.
- `Selectors`: the label-selector rendering loop and the namespace field
  selector, with a reader for the selector grammar.
- `Oracles`, `Effects`: the outside world, call traces, and "return on the
  first error" loops.
- `Resources`: `dumpResources`, `dumpObject`, `addTypeInformationToObject`.
- `Logs`: `collectLogs`, `dumpPodLogs`, `collectPodLogs`.
- `Collect`: `CollectResouces`, `loadConfiguration`, `collectData`.

Behaviour that is easy to misread, modelled as the code does it:

- Log targets are collected before resource targets.
- Discovery is fetched again for every resource target; nothing is cached.
- For a cluster-scoped object the empty namespace segment disappears from
  the path, because `path.Join` drops empty segments.
- A resource file is overwritten, not appended to. The file is opened with
  `O_APPEND|O_CREATE`, but the content is then written with `os.WriteFile`,
  which truncates.
- The label selector is parsed (and can fail) only on the log path. On the
  resource path the rendered string is passed to the API unparsed.

## Model

| member | source | states |
|---|---|---|
| Selectors.SelectorIsJoin | pkg/utils/resources.go:75-90 | the selector built by the loop is the filters' renderings (`key=value` for Equal, `key!=value` otherwise) joined by "," in input order, with no leading or doubled comma |
| Selectors.AppendJoins | pkg/utils/logs.go:44-56 | the loop run on a non-empty accumulator appends "," and the joined renderings; on an empty one it yields just the join |
| Selectors.SelectorEmptyIff | pkg/utils/resources.go:75-90 | the selector is empty exactly when there are no label filters |
| Selectors.SelectorRoundTrip | pkg/utils/logs.go:44-58 | for filters free of ',' (and of '=' and '!' in keys), reading the selector back gives one requirement per filter, in order, with that filter's key, operator and value |
| Selectors.RenderParses | pkg/utils/resources.go:82-86 | one rendered filter reads back as its own key, equality flag and value |
| Resources.ResourceListOptions | pkg/utils/resources.go:73-97 | list options: label selector empty iff no filters, otherwise the comma join; field selector `metadata.namespace=<ns>` exactly when the target names a namespace, otherwise empty |
| Resources.AddTypeInformation | pkg/utils/resources.go:163-181 | only the object's kind changes; if no reported kind has a non-empty Kind and a version other than "" and `__internal`, the object is unchanged; otherwise the first such kind is set |
| Resources.Prepare | pkg/utils/resources.go:117-136 | the stored object is the object with resourceVersion cleared to "", then given the kind `AddTypeInformation` chooses from the scheme's kinds for the cleared object; every other field is kept; its YAML is what the serialiser returns for it; success iff the scheme and the serialiser both succeed |
| Resources.WriteObjectOverwrites | pkg/utils/resources.go:147-160 | after a successful mkdir/open/write the file at the path holds exactly the YAML, whatever the tree held before |
| Resources.DumpObjectWritesSerialisedObject | pkg/utils/resources.go:117-160 | a successful dump leaves `dir/resources/<ns>/<kind>/<name>.yaml` holding exactly the serialisation of the prepared object |
| Resources.DumpObjectSucceedsIff | pkg/utils/resources.go:117-160 | a dump returns nil exactly when the scheme, the serialiser, mkdir, open and write all succeed |
| Resources.DeletionMarkedObjectsAreWritten | pkg/utils/resources.go:129-131 | an object with a deletion timestamp is still written when preparing it, mkdir and open succeed: the timestamp only triggers a log line |
| Resources.ObjectPath | pkg/utils/resources.go:143-147 | the artifact path is the join of dir, "resources", namespace, kind and `<name>.yaml`; for an empty namespace the segment is dropped |
| Resources.DumpResourcesMappingOutcome | pkg/utils/resources.go:50-65 | a discovery error is returned; a no-match mapping returns nil with nothing listed or written; any other mapping error is returned |
| Resources.DumpResourcesStopsAtFirstFailedObject | pkg/utils/resources.go:67-112 | once mapped, the objects are listed once with the target's group, version and the mapped resource, then dumped in list order until the first failing dump, whose error is returned |
| Resources.DumpResourcesSucceedsIff | pkg/utils/resources.go:50-112 | nil exactly when the kind is not served, or when discovery, listing and every object's dump succeeded |
| Logs.LogOptions | pkg/utils/logs.go:144-155 | the options carry the container name, the previous flag and the since window unchanged |
| Logs.CollectPodLogsErrorRule | pkg/utils/logs.go:126-168 | nil exactly when create, stream, copy and close all succeed; a stream error wins over a close error; the close error is returned only when everything before it succeeded |
| Logs.CollectPodLogsStreamsRequest | pkg/utils/logs.go:144-159 | the stream is requested for the pod with the options naming the container, the previous flag and the window |
| Logs.FetchTrace | pkg/utils/logs.go:89-95 | a successful request made the calls mkdir, create, stream, copy and close, in that order |
| Logs.FetchWritesStream | pkg/utils/logs.go:126-168 | after a successful request the file holds exactly the streamed log: it is truncated before the copy |
| Logs.PreviousBesideLive | pkg/utils/logs.go:89-107 | the previous-log path is the live path plus ".previous", in the same directory |
| Logs.DumpPreviousFollowsPlan | pkg/utils/logs.go:101-119 | the status loop issues one previous request per matching restarted status, in status order, stopping at the first failure |
| Logs.DumpContainersFollowsPlan | pkg/utils/logs.go:87-120 | the nested loops equal the plan's requests in sequence: per container the live request, then its previous requests |
| Logs.DumpPodLogsFollowsPlan | pkg/utils/logs.go:86-123 | a pod's log dump makes exactly the planned requests in plan order and returns the first failing request's error, or nil |
| Logs.PreviousPlanCounts | pkg/utils/logs.go:101-104 | the number of previous requests for a container equals the number of statuses naming it with a positive restart count |
| Logs.PreviousPlanIsPrevious | pkg/utils/logs.go:103-114 | every previous request for a container is that container's `.previous` request |
| Logs.ContainerPlanShape | pkg/utils/logs.go:87-119 | a container's requests are its live request, then exactly one previous request per matching restarted status |
| Logs.OneLiveRequestPerContainer | pkg/utils/logs.go:87-98 | the live requests of a pod's plan are exactly one per container, in `Spec.Containers` order |
| Logs.PodScope | pkg/utils/logs.go:42-67 | the pod listing is scoped to the target's namespace, with a selector exactly when there are label filters: the selector parsed from their comma join |
| Logs.CollectLogsOutcome | pkg/utils/logs.go:41-82 | an unparseable selector is returned before anything is listed; otherwise the pods are listed once and dumped in order until the first failing pod, whose error is returned |
| Effects.SequenceStopsAtFirstFailure | pkg/utils/resources.go:105-112 | a "return on first error" loop makes the calls of every step up to and including the first failing one, and returns that step's error, or nil when none fails |
| Effects.SequenceSucceedsIff | pkg/utils/logs.go:75-81 | such a loop returns nil exactly when every step does |
| Paths.JoinSkipsEmpty | pkg/utils/resources.go:147 | an empty segment in a joined path is dropped |
| Paths.FileInDir | pkg/utils/resources.go:147-148 | for a non-empty leaf, the path is the directory, then "/", then the leaf (just the leaf when the directory is empty) |
| Collect.FirstConfiguration | pkg/utils/collect.go:67-84 | no configuration exactly when no entry parses as YAML or JSON; otherwise the configuration comes from the first entry that parses, YAML tried before JSON |
| Collect.LoadConfigurationOutcome | pkg/utils/collect.go:49-85 | loading fails exactly when the ConfigMap cannot be read or its Data is nil (then with "nil ConfigMap.Data"); a ConfigMap with no parseable entry is success with no configuration |
| Collect.Targets | pkg/utils/collect.go:90-103 | targets are every Log target, then every Resource target, each in configuration order |
| Collect.Aggregate | pkg/utils/collect.go:89-114 | the folded error is nil iff no target failed, and a lone failure is returned unwrapped |
| Collect.AggregateMessage | pkg/utils/collect.go:94-98 | the folded error's message lists every failure's message, newest first, separated by ": " |
| Collect.AggregateSnoc | pkg/utils/collect.go:92-98 | one more failure keeps the first error as it is and wraps any later one around what has accumulated |
| Collect.AttemptEach | pkg/utils/collect.go:90-100 | each loop attempts every one of its targets once, in order, whatever earlier ones returned, extending the trace and the folded error |
| Collect.AttemptAll | pkg/utils/collect.go:89-114 | for any per-target step: the Log targets and then the Resource targets are each attempted once, in order; the trace is their traces in order, and the error is the in-order fold, nil iff no step failed |
| Collect.NothingToCollect | pkg/utils/configuration.go:61-69 | with no resources and no logs, the session makes no calls and returns nil |
| Collect.CollectData | pkg/utils/collect.go:87-115 | every target is attempted exactly once, logs first; the trace is the targets' traces in order; the error is the in-order fold, nil iff no target failed, the error itself when exactly one failed |
| Collect.CollectResources | pkg/utils/collect.go:32-47 | a loading error is returned with nothing collected; no configuration returns nil with nothing collected; otherwise the session's trace follows the ConfigMap fetch |

## Left out

- `cmd/main.go` (flags, client construction, scheme set-up) and the
  `utils.go` singleton holding the clients: they only wire the core together.
- Logging: no log line affects a result.
- The outside world is an oracle. This covers the Kubernetes clients, the
  runtime scheme, `yaml.Marshal`, `yaml.Unmarshal` and `json.Unmarshal`,
  `labels.Parse`, the filesystem and the log stream. Each answer is fixed per
  argument for the whole run, so discovery answers the same for every target.
- `discovery.NewDiscoveryClientForConfigOrDie` and `dynamic.NewForConfigOrDie`
  panic instead of returning an error; the model does not model a panic.
- `apimeta.Accessor` on a listed object never fails for the unstructured
  objects `dumpResources` lists, so that branch is not modelled.
- The close of the log stream and the deferred `f.Close()` in `dumpObject`:
  both errors are discarded by the code, so only the calls matter and only
  the output file's close is in the trace.
- A YAML decode that fails part-way may leave fields set in the
  `Configuration` before JSON is tried. The model treats a failed decode as
  producing nothing.
- File permissions, path cleaning by `path.Join` (only empty segments are
  modelled), and `MkdirAll` creating parents: the tree records only the
  directory asked for.
- The iteration order of `configMap.Data`: Go visits a map in no fixed
  order, so the model takes the entries as an arbitrary sequence.
- The `Kind` minimum length of 1 is a schema marker for the custom resource;
  nothing in the core checks it, so no contract relies on it.
- Selectors.SelectorRoundTrip: stated only for filters whose keys and values
  contain no ',' and whose keys contain no '=' or '!'. Other filters make the
  rendered selector ambiguous, and the parser then rejects or misreads them.
