# Sink binding: `K_SINK` injection and removal

This project models the two mutations a Knative eventing `SinkBinding`
applies to the Pod template of the workload it binds
(`pkg/apis/sources/v1alpha1/sinkbinding_lifecycle.go`):

- `Undo` walks the init containers, then the regular containers, and in each
  container's environment list deletes the **first** entry named `K_SINK`
  (the loop `break`s after one deletion), keeping every other entry in order.
- `Do` calls `Undo` unconditionally, then reads the sink URI. Without a URI
  it stops there; with a URI `u` it appends `K_SINK=u` to the end of every
  init container's and every container's environment list.

The model is functional. An environment entry is `EnvVar(name, value)`, a
container is `Container(name, image, env)` (`name` and `image` stand in for
every field the binding never touches), and a Pod spec is
`PodSpec(initContainers, containers)`. The sink URI, which the source reads
from the request context, is an explicit `Option<string>` parameter; `None`
is a context without a URI. The URI's string form is treated as an opaque
string. Go edits the container slices in place through a copy of the Pod
spec; those writes reach the caller's template, so returning a new spec
gives the caller the same template, provided each container owns its
environment slice (see "Left out").

Files:

- `env.dfy` (`EnvVars`): environment lists, the `K_SINK` name, the filters
  `Named`/`Unnamed`, `FirstIndex`, the splice predicate `FirstRemoved`, and
  `RemoveFirst` with its order-preservation lemmas.
- `pod.dfy` (`Pods`): containers, Pod specs, `AllContainers` (init
  containers first) and the "only environments changed" predicate `SameShape`.
- `sinkbinding.dfy` (`SinkBinding`): `Undo` and `Do`, and their per-container
  decomposition.
- `sinkbinding_laws.dfy` (`SinkBindingLaws`): round-trip, idempotence,
  overwriting, tear-down, counting and the duplicate-entry quirk.
- `sinkbinding_loops.dfy` (`SinkBindingLoops`): the index loops of the Go
  code, proved equal to the functional definitions.

The first-match-only removal is modelled as written. With at most one
`K_SINK` entry per container, `Do` is idempotent and rebinding overwrites.
With duplicate entries this no longer holds in general: `Undo` leaves the
later duplicates and `Do` never lowers the number of `K_SINK` entries.
`DoSettlesIff` gives the exact condition under which a second `Do` with the
same URI changes nothing: every list left by the first `Do` holds only
`K_SINK=<uri>` from its first `K_SINK` entry to its end. So
`[K_SINK=a, K_SINK=u]` settles after one `Do` with `u`, while
`[K_SINK=a, K_SINK=u, FOO=b]` does not, because the second `Do` moves the
remaining `K_SINK` behind `FOO`. `DoNotFixedWithStaleDuplicate` is a handy
special case: a duplicate after the first that does not carry the URI
always causes a further change.

`Do` without a URI logs an error (line 83) and returns. It never calls
`MarkBindingUnavailable`, so no condition changes. The model has
`Do(ps, None) == Undo(ps)`.

## Model

| member | source | states |
|---|---|---|
| EnvVars.FirstIndex | pkg/apis/sources/v1alpha1/sinkbinding_lifecycle.go:105-106 | the scan stops at the first entry named `K_SINK`: every earlier entry has another name, and the index is the list length exactly when no entry matches |
| EnvVars.RemoveFirst | pkg/apis/sources/v1alpha1/sinkbinding_lifecycle.go:104-110 | the result is the list with the entry at the first match spliced out (`env[:j] + env[j+1:]`), or the list unchanged when nothing matches |
| EnvVars.RemoveFirstKeepsOrder | pkg/apis/sources/v1alpha1/sinkbinding_lifecycle.go:105-109 | after the removal the non-`K_SINK` entries are the same in the same order, the `K_SINK` entries lose only their first, and the length drops by one exactly when there was a match |
| EnvVars.RemoveFirstAbsent | pkg/apis/sources/v1alpha1/sinkbinding_lifecycle.go:105-109 | a list without a `K_SINK` entry is left unchanged |
| EnvVars.RemoveFirstOfAppended | pkg/apis/sources/v1alpha1/sinkbinding_lifecycle.go:88-110 | removing the first `K_SINK` from a `K_SINK`-free list with one `K_SINK` appended gives back the list |
| SinkBinding.Undo | pkg/apis/sources/v1alpha1/sinkbinding_lifecycle.go:102-120 | no container is added, removed or reordered and no field other than the environment changes |
| SinkBinding.Do | pkg/apis/sources/v1alpha1/sinkbinding_lifecycle.go:77-100 | only environments change; with no URI the result is exactly `Undo` of the spec |
| SinkBindingLaws.UndoRemovesFirstSink | pkg/apis/sources/v1alpha1/sinkbinding_lifecycle.go:104-119 | in every container `Undo` splices out the first `K_SINK` entry only: other entries keep their order and later `K_SINK` duplicates remain |
| SinkBindingLaws.UndoWithoutSinkIsIdentity | pkg/apis/sources/v1alpha1/sinkbinding_lifecycle.go:104-119 | `Undo` of a spec with no `K_SINK` entry is that spec |
| SinkBindingLaws.UndoClearsSingleSink | pkg/apis/sources/v1alpha1/sinkbinding_lifecycle.go:104-119 | with at most one `K_SINK` per container, `Undo` leaves none |
| SinkBindingLaws.DoAppendsSink | pkg/apis/sources/v1alpha1/sinkbinding_lifecycle.go:77-100 | with a URI `u`, every environment list ends in `K_SINK=u`, preceded by the list with its first `K_SINK` spliced out, and its length is old length minus removed plus one |
| SinkBindingLaws.DoSinkCount | pkg/apis/sources/v1alpha1/sinkbinding_lifecycle.go:77-100 | after `Do` with `u` the `K_SINK` entries of a container are its old ones minus the first, followed by `K_SINK=u`; their number never falls below the old one |
| SinkBindingLaws.DoLeavesExactlyOneSink | pkg/apis/sources/v1alpha1/sinkbinding_lifecycle.go:77-100 | from at most one `K_SINK` per container, `Do` with `u` leaves exactly one per container, `K_SINK=u` |
| SinkBindingLaws.DoOverwrites | pkg/apis/sources/v1alpha1/sinkbinding_lifecycle.go:77-100 | with at most one `K_SINK` per container, `Do` with `u1` then `Do` with `u2` equals `Do` with `u2` alone |
| SinkBindingLaws.DoIdempotent | pkg/apis/sources/v1alpha1/sinkbinding_lifecycle.go:77-100 | with at most one `K_SINK` per container, a second `Do` with the same URI changes nothing |
| SinkBindingLaws.UnbindAfterBind | pkg/apis/sources/v1alpha1/sinkbinding_lifecycle.go:77-100 | with at most one `K_SINK` per container, `Do` with a URI followed by `Do` without one equals `Undo` of the original and leaves no `K_SINK` |
| SinkBindingLaws.RoundTrip | pkg/apis/sources/v1alpha1/sinkbinding_lifecycle.go:77-120 | for a spec without `K_SINK` entries, `Undo` after `Do` with a URI gives the spec back |
| SinkBindingLaws.DoContainerSettlesIff | pkg/apis/sources/v1alpha1/sinkbinding_lifecycle.go:77-100 | a second `Do` with the same URI leaves a container unchanged exactly when the list the first `Do` left holds only `K_SINK=u` from its first `K_SINK` entry to its end |
| SinkBindingLaws.DoSettlesIff | pkg/apis/sources/v1alpha1/sinkbinding_lifecycle.go:77-100 | `Do(Do(T,u),u) == Do(T,u)` exactly when every container of `Do(T,u)` holds only `K_SINK=u` from its first `K_SINK` entry onwards |
| SinkBindingLaws.DoContainerNotFixed | pkg/apis/sources/v1alpha1/sinkbinding_lifecycle.go:104-110 | a container whose `K_SINK` entries after the first include one not equal to `K_SINK=u` is changed again by a second `Do` with `u` |
| SinkBindingLaws.DoNotFixedWithStaleDuplicate | pkg/apis/sources/v1alpha1/sinkbinding_lifecycle.go:104-119 | the same at spec level: one such container makes `Do(Do(T,u),u)` differ from `Do(T,u)` |
| SinkBindingLaws.RebindScenario | pkg/apis/sources/v1alpha1/sinkbinding_lifecycle.go:77-100 | `[FOO=bar]` becomes `[FOO=bar, K_SINK=u1]`, and rebinding to `u2` gives `[FOO=bar, K_SINK=u2]` |
| SinkBindingLaws.DuplicateSinkScenario | pkg/apis/sources/v1alpha1/sinkbinding_lifecycle.go:104-119 | from `[K_SINK=a, K_SINK=b]`, `Undo` leaves `[K_SINK=b]`, `Do` with `u` gives `[K_SINK=b, K_SINK=u]`, and a second `Do` gives `[K_SINK=u, K_SINK=u]` |
| SinkBindingLaws.SettlingScenario | pkg/apis/sources/v1alpha1/sinkbinding_lifecycle.go:77-119 | `[K_SINK=a, K_SINK=u]` is unchanged by a second `Do` with `u`; `[K_SINK=a, K_SINK=u, FOO=b]` goes to `[K_SINK=u, FOO=b, K_SINK=u]` and then to `[FOO=b, K_SINK=u, K_SINK=u]` |
| SinkBindingLoops.RemoveFirstLoop | pkg/apis/sources/v1alpha1/sinkbinding_lifecycle.go:105-110 | the index loop with its splice and `break` computes `RemoveFirst` |
| SinkBindingLoops.UndoEachLoop | pkg/apis/sources/v1alpha1/sinkbinding_lifecycle.go:104-111 | the per-container loop of `Undo` over one container list computes the functional removal for every container |
| SinkBindingLoops.InjectEachLoop | pkg/apis/sources/v1alpha1/sinkbinding_lifecycle.go:88-93 | the per-container append loop of `Do` over one container list appends `K_SINK=u` to every container |
| SinkBindingLoops.UndoLoop | pkg/apis/sources/v1alpha1/sinkbinding_lifecycle.go:102-120 | the two loops of `Undo`, init containers then containers, compute `Undo` |
| SinkBindingLoops.DoLoop | pkg/apis/sources/v1alpha1/sinkbinding_lifecycle.go:77-100 | `Undo`, the early return without a URI, and the two append loops compute `Do` |

## Left out

- Condition tracking (`InitializeConditions`, `MarkBindingUnavailable`, `MarkBindingAvailable`, lines 59-74): each is a one-line delegation to the living condition set of `knative.dev/pkg/apis`, which is not part of this model, so its aggregation and initialisation rules cannot be stated from visible code.
- Accessors `GetGroupVersionKind`, `GetUntypedSpec`, `GetSubject`, `GetBindingStatus`, `SetObservedGeneration` (lines 34-57): they return or store a field and have no behaviour to state.
- The error log written when no URI is known (line 83): logging is I/O; the model returns `Undo`'s result as the code does.
- Reading the URI from the request context (`GetSinkURI`, line 81): replaced by the explicit `Option<string>` parameter.
- `uri.String()`: `apis.URL` formatting belongs to another library; the URI is an opaque string.
- Container and Pod spec fields other than the environment: represented by `name` and `image` only, since neither mutation reads or writes the others.
- Environment slices shared between containers, or kept by the caller: the splice at lines 107 and 115 shifts the backing array in place, so a container sharing its `Env` slice with another, or a caller holding the old slice, can see the shift, and the appends at lines 89 and 95 may write into the freed slot. The model assumes each container owns its environment list.
- `ValueFrom` of an environment entry: `EnvVar` carries only `name` and `value`. No operation reads `ValueFrom`, but entry equality in the idempotence and overwrite lemmas compares these two fields only.
- Concurrent mutation of one template: the code does not guard against it and the model is sequential.
