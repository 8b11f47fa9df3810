# Bind compute, modelled in Dafny

This project models the client-side core of kcp's `bind compute` command
(`pkg/cliplugins/bind/plugin/bind_compute.go`). The command binds a workspace
to the compute offered by a location workspace. It does four things in order:

1. **Export discovery.** It lists the location workspace's sync targets, collects
   the `path:exportName` strings they advertise, and picks the compute exports
   to bind: the requested ones, or the two default Kubernetes exports when none
   are requested.
2. **Binding reconciliation.** It lists the bindings that already exist. It then
   creates one binding for every picked export that is not yet bound. "Already
   exists" is tolerated, and every other error is collected without stopping.
3. **Placement creation.** It creates a placement that selects namespaces and locations.
4. **The wait.** It waits until the placement is Ready and all created bindings
   are Bound, unless that already holds.

Before running, `Complete` checks the single location-workspace argument and
parses the selectors. When no placement name is given, it derives one.

The remote API and the output stream are modelled as values:

- `Resources.Remote` gives the answer to each list, create and write, and to each `Get` of a polling round: the placement by name and each binding by name, round by round.
- `Resources.Foreign` stands for the library functions:
  - SHA-224 followed by base36 and lower-casing;
  - the path of a logical cluster name;
  - workspace-name validation;
  - the label-selector parser.
- The operations that reach the remote return the calls they made as a
  `seq<Call>` trace, and `Run` puts its own sync-target listing in front. A
  polling round is one `PollStatus` entry. The ordering and fail-fast
  properties of `Run` are stated over that trace.
- Go iterates over a set in an arbitrary order. The model picks elements
  with `:|`, so the proofs hold for every order. A ghost `order`
  out-parameter reports the order that was taken.

Modules, one per part of the program:

- `StringUtil`: set of a list, byte-wise order and sorting, join, last index.
- `Naming`: binding name, qualified-name split, placement name.
- `Resources`: the data model, the oracles and the call trace.
- `Discovery`: `supportedAPIExports`.
- `Bindings`: `applyAPIBinding`.
- `Readiness`: `bindReady`.
- `Waiting`: the polling wait.
- `BindCompute`: the options class with `Complete`, `applyPlacement` and `Run`.

## Model

| member | source | states |
|---|---|---|
| `Naming.ApiBindingName` | pkg/cliplugins/bind/plugin/bind_compute.go:216-228 | The name fits 253 characters. It keeps the whole export name when that is at most 244 characters long, and otherwise exactly the first 244. Then come `-` and eight lower-case base36 characters, which are the first eight of the digest of the cluster path. |
| `Naming.ApiBindingNameInjective` | pkg/cliplugins/bind/plugin/bind_compute.go:218-227 | Within the 244-character budget, two exports of one workspace never share a binding name. |
| `Naming.ApiBindingNameTruncates` | pkg/cliplugins/bind/plugin/bind_compute.go:219-223 | Beyond the budget, export names of one workspace that agree on their first 244 characters get the same binding name. |
| `Naming.Split` | pkg/cliplugins/bind/plugin/bind_compute.go:248 | A qualified export is cut at its last colon into the path before it and the colon-free name after it. Without a colon, the path is empty. |
| `Naming.SplitQualified` | pkg/cliplugins/bind/plugin/bind_compute.go:248 | Splitting `path:name` gives back `path` and `name` whenever `name` has no colon. |
| `Naming.DerivedPlacementName` | pkg/cliplugins/bind/plugin/bind_compute.go:123-128 | The derived name is `placement-` followed by eight digest characters of the seed. The seed is the namespace selector, the comma-joined location selectors and the location workspace, concatenated. The name is an 18-character DNS-1123 label. |
| `Naming.DerivedPlacementNameAmbiguous` | pkg/cliplugins/bind/plugin/bind_compute.go:125 | The seed has no separators, so different selector settings can derive the same name: `""` with `["a=b"]` and `"a=b"` with `[""]`. |
| `StringUtil.SortedList` | pkg/cliplugins/bind/plugin/bind_compute.go:342 | The list of a set is strictly sorted and has exactly the set's elements. |
| `Discovery.AdvertisedIsQualified` | pkg/cliplugins/bind/plugin/bind_compute.go:319-324 | Every advertised export contains a colon. |
| `Discovery.SupportedSet` | pkg/cliplugins/bind/plugin/bind_compute.go:312-326 | The supported set is exactly the `path:exportName` strings of the workspace references of all sync targets. References without a workspace are skipped. An empty path stands for the location workspace. |
| `Discovery.ProbeDefaults` | pkg/cliplugins/bind/plugin/bind_compute.go:328-338 | The result is exactly those of `root:compute:kubernetes` and `<location>:kubernetes` that are supported. It may be empty. |
| `Discovery.UnsupportedMessage` | pkg/cliplugins/bind/plugin/bind_compute.go:342 | The error text names the location workspace and every unsupported export it lists. |
| `Discovery.CheckRequested` | pkg/cliplugins/bind/plugin/bind_compute.go:339-344 | There is no error iff the requested set is a subset of the supported set. Otherwise the error names the location workspace and lists exactly the unsupported exports, strictly sorted. |
| `Discovery.SupportedAPIExports` | pkg/cliplugins/bind/plugin/bind_compute.go:304-347 | A listing error is passed on, with the requested set. With nothing requested, the supported defaults are chosen and there is no error. Otherwise the requested set is returned, and there is no error iff every requested export is advertised. Any error lists exactly the unadvertised requested exports, sorted. |
| `Bindings.ExistingExports` | pkg/cliplugins/bind/plugin/bind_compute.go:236-242 | An export exists exactly when some listed binding has a workspace reference rendering to it. Bindings without a workspace reference are skipped. |
| `Bindings.BindingRequest` | pkg/cliplugins/bind/plugin/bind_compute.go:248-261 | The request references a workspace export, splitting the export at its last colon. A qualified export renders back to itself, and an unqualified one gets an empty path. The name is a valid-length binding name and the phase is empty. |
| `Bindings.BindingRequestReference` | pkg/cliplugins/bind/plugin/bind_compute.go:248-258 | The request for `path:name` references path `path` and name `name`. Its binding name is derived from `name` and the cluster path of `path`. |
| `Bindings.CreatedBindingIsExisting` | pkg/cliplugins/bind/plugin/bind_compute.go:236-261 | Once the requested binding is listed, its export counts as existing, so a second run does not create it again. |
| `Bindings.CollectedErrorsEmpty` | pkg/cliplugins/bind/plugin/bind_compute.go:262-272 | Nothing is collected iff every processed export's create succeeded or found the binding already there, and its line was written. |
| `Bindings.AggregateOf` | pkg/cliplugins/bind/plugin/bind_compute.go:275 | The aggregate is no error exactly when the list of errors is empty. |
| `Bindings.AggregateErrorIff` | pkg/cliplugins/bind/plugin/bind_compute.go:244-275 | Whatever the processing order, the aggregate is no error iff every missing export is created (or already exists) and reported. |
| `Bindings.CreateOne` | pkg/cliplugins/bind/plugin/bind_compute.go:248-272 | The returned object is whatever the create returned. The errors gain the create error, unless it is "already exists", and then the write error. |
| `Bindings.CreateMissing` | pkg/cliplugins/bind/plugin/bind_compute.go:244-273 | Every missing export is processed exactly once, in some order. Each processed export appends the create's returned object, whatever the outcome, and adds its errors and its calls, in that order. |
| `Bindings.ApplyAPIBinding` | pkg/cliplugins/bind/plugin/bind_compute.go:230-276 | A listing error is returned, with no creates. Otherwise there is one create per export in desired minus existing, and every returned object is kept. The result is the aggregate of the collected errors. When nothing is missing, nothing is created and there is no error. There is an error iff listing fails or some missing export fails. All calls belong to the binding step. |
| `Readiness.IsTrue` | pkg/cliplugins/bind/plugin/bind_compute.go:203 | True iff the first condition of the type has status True. |
| `Readiness.AllBound` | pkg/cliplugins/bind/plugin/bind_compute.go:207-211 | True iff every binding's phase is Bound. |
| `Readiness.BindReady` | pkg/cliplugins/bind/plugin/bind_compute.go:202-214 | Ready iff the placement's Ready condition is true and every binding is Bound. With no bindings, the placement alone decides. |
| `Waiting.FetchBindings` | pkg/cliplugins/bind/plugin/bind_compute.go:184-191 | The bindings are fetched by name in order. There is no error iff every fetch succeeds, and then there is one fetched binding per name, in the order of the names. An error is the error of a fetch whose earlier fetches all succeeded. |
| `Waiting.FetchBindingsStopsAt` | pkg/cliplugins/bind/plugin/bind_compute.go:184-191 | The first binding fetch that fails fixes the round's error. |
| `Waiting.PollRound` | pkg/cliplugins/bind/plugin/bind_compute.go:180-193 | The loop fetches the placement, then each binding in order, and returns the first fetch error. Its result is the round as `Round` defines it. |
| `Waiting.ReadyRoundObserved` | pkg/cliplugins/bind/plugin/bind_compute.go:180-193 | A round is ready iff its placement fetch gave a placement whose Ready condition is true and, for every name, the fetch under that name gave a Bound binding. |
| `Waiting.WaitForBind` | pkg/cliplugins/bind/plugin/bind_compute.go:179-194 | The wait polls at least once and at most for the rounds before the timeout, always for the same placement and binding names. Every round but the last fetched the placement and each binding and was not ready. A fetch error is returned as it is, and a ready round ends with no error. A last round that is still not ready is the timeout. No error iff the wait succeeds. On success, the last round saw the placement Ready and, under every name, a Bound binding. Any error is that of a failed round after unready ones, or the timeout after the last round. |
| `Waiting.NoSuccessAfterFailure` | pkg/cliplugins/bind/plugin/bind_compute.go:179-194 | A failed round, or an unready last round after unready rounds, means no round of the wait can succeed. |
| `BindCompute.ParseSelectors` | pkg/cliplugins/bind/plugin/bind_compute.go:115-121 | Selectors are parsed in order up to the first failure. The error names that selector and carries the parser's error. There is no error iff every selector parses. |
| `BindCompute.ParseSelectorsStopsAt` | pkg/cliplugins/bind/plugin/bind_compute.go:115-121 | The first selector that fails to parse fixes the whole result. |
| `BindCompute.ApplyPlacement` | pkg/cliplugins/bind/plugin/bind_compute.go:278-302 | The create is the first call, and every call belongs to the placement step. A failed create, other than "already exists", gives its error and no placement. Otherwise the returned placement is kept. There is no error iff the create did not fail and the line was written. |
| `BindCompute.BindComputeOptions.constructor` | pkg/cliplugins/bind/plugin/bind_compute.go:72-80 | Both selector strings select everything: one namespace selector and one location selector. Everything else is empty. |
| `BindCompute.BindComputeOptions.PlacementRequest` | pkg/cliplugins/bind/plugin/bind_compute.go:279-293 | The placement to create carries the placement name, both parsed selectors and the location workspace. It selects `synctargets` of group `workload.kcp.dev`, version `v1alpha1`, and has no status. |
| `BindCompute.BindComputeOptions.Complete` | pkg/cliplugins/bind/plugin/bind_compute.go:96-131 | A base error is returned first, with nothing changed. Any argument count other than one is an error, as is an invalid workspace, both with nothing changed. Otherwise the argument becomes the location workspace. A bad namespace selector leaves that selector unset. Location selectors are appended up to the first one that fails. On success a missing placement name is derived, so it is never empty. An explicit name is kept. |
| `BindCompute.BindComputeOptions.Run` | pkg/cliplugins/bind/plugin/bind_compute.go:162-199 | Discovery is the first call, and calls run in step order. A discovery failure is the only call. A listing error is passed on as it is. Otherwise the error is an unsupported-exports error for the location workspace, listing exactly the requested exports no sync target advertises, strictly sorted. A binding-listing error is returned as it is, after no other call. Otherwise, in some order of the selected exports, the bindings are the create results for exactly the missing exports. A binding failure returns the aggregate of the collected errors and makes no placement or polling call. Otherwise the run ends as `Settled` states. |
| `BindCompute.BindComputeOptions.Reconcile` | pkg/cliplugins/bind/plugin/bind_compute.go:167-199 | A binding-listing error is returned as it is, after no other call. Otherwise the created bindings are the create results for exactly the missing exports, in some order. A binding failure returns the aggregate of the collected errors before any placement call. Otherwise the run ends as `Settled` states. |
| `BindCompute.BindComputeOptions.PlaceAndWait` | pkg/cliplugins/bind/plugin/bind_compute.go:172-197 | A placement failure returns its error without polling. Otherwise no polling call is made exactly when the created bindings and the returned placement are already ready, and success follows. If not ready, success holds iff the wait succeeds. A wait error is a not-ready error carrying the placement name, and its cause is the failed round's error or the timeout. |

## Left out

- Client construction, the REST config and the cluster URL parsing (lines 140-160) are not modelled. They are I/O plumbing, and `Run` starts after them.
- Flag binding (`BindFlags`, lines 83-93) is not modelled. The options are set as fields instead.
- `Validate` is not modelled. It always succeeds.
- SHA-224 and base36 are not computed. The model uses an arbitrary deterministic function onto at least eight lower-case base36 characters. Nothing is claimed about collisions.
- Workspace validation, `Name.Path()` and `ParseToLabelSelector` are taken as given functions. Parsed selectors are not looked into.
- `Split` is modelled as a cut at the last colon.
- The base options' own completion is an input error.
- Time is not modelled. The 500 ms interval and the timeout become a number of polling rounds that start before the timeout.
- A zero timeout, which polls without end, is not modelled.
- Context cancellation is not modelled.
- A polling round's `Get` answers are given per round number and name. The trace records one `PollStatus` entry per round, not one entry per `Get`.
- Nothing is assumed about the object a failed or "already exists" create returns. It is carried as an arbitrary value, so the wait may poll for whatever name it holds.
- The texts written to the output take part only through whether writing them fails. The unsupported-exports error is modelled by its workspace and its sorted list. `Discovery.UnsupportedMessage` gives its comma-joined text, which nothing else in the model reads.
- Lengths are counted in characters, not in UTF-8 bytes. The two agree for the ASCII names Kubernetes accepts.
- Conditions are reduced to their type and status; the rest of the condition library is not modelled.
- `Bindings.AggregateErrorIff` and the order independence of binding creation hold for fixed remote answers. A real server's answer to a create can depend on the creates before it, for example when two truncated binding names collide; that is not modelled.
