/** The data model: the remote resources the command reads and writes,
    its errors, the remote API it talks to and the library functions it
    calls, both given as values, and the record of the calls it makes. */
module Resources {
  import opened Naming

  datatype Option<T> = None | Some(value: T)

  datatype Result<T, E> = Ok(value: T) | Err(error: E)

  /** The errors the command produces or passes on. */
  datatype Error =
    | Opaque(message: string)                               // returned by a remote call, a library or the output stream
    | MissingLocationWorkspace                              // argument count other than one
    | InvalidLocationWorkspace                              // argument is not a valid workspace path
    | BadNamespaceSelector(cause: Error)
    | BadLocationSelector(selector: string, cause: Error)
    | UnsupportedAPIExports(workspace: string, exports: seq<string>)  // exports sorted
    | Aggregate(errors: seq<Error>)                         // several errors combined into one
    | NotReady(placement: string, cause: Error)             // the wait did not succeed
    | WaitTimeout                                           // the wait ran out of time

  /** A parsed label selector. Its structure is not looked into here. */
  datatype LabelSelector = LabelSelector(requirements: seq<string>)

  /** An export of some workspace, named by workspace path and export name. */
  datatype WorkspaceExportReference = WorkspaceExportReference(path: string, exportName: string)

  /** A reference to an export; only workspace references are considered. */
  datatype ExportReference = ExportReference(workspace: Option<WorkspaceExportReference>)

  /** A binding: its name, the export it imports and its status phase. */
  datatype APIBinding = APIBinding(name: string, reference: ExportReference, phase: string)

  /** A sync target, reduced to the exports it advertises. */
  datatype SyncTarget = SyncTarget(supportedAPIExports: seq<ExportReference>)

  datatype GroupVersionResource = GroupVersionResource(group: string, version: string, resource: string)

  datatype Condition = Condition(conditionType: string, status: string)

  /** A placement: its name, spec and status conditions. */
  datatype Placement = Placement(
    name: string,
    namespaceSelector: Option<LabelSelector>,
    locationSelectors: seq<LabelSelector>,
    locationWorkspace: string,
    locationResource: GroupVersionResource,
    conditions: seq<Condition>)

  /** How a create call ended. */
  datatype CreateOutcome = Created | AlreadyExists | CreateFailed(error: Error)

  /** What a create call returns: an object (whatever the client hands
      back, which on failure need not be meaningful) and the outcome. */
  datatype Reply<T> = Reply(obj: T, outcome: CreateOutcome)

  /** What one polling round fetched: the placement and the bindings. */
  datatype Snapshot = Snapshot(placement: Placement, bindings: seq<APIBinding>)

  /** The remote API and the output stream, as the answers they give.
      - `syncTargets`: the list of sync targets in the location workspace;
      - `apiBindings`: the list of bindings in the caller's workspace;
      - `createAPIBinding`, `createPlacement`: the answer to a create;
      - `write`: the error, if any, of writing one line to the output;
      - `getPlacement(round, name)`, `getBinding(round, name)`: the answer
        to fetching the named placement or binding in the given polling
        round;
      - `extraRounds`: how many polling rounds after the immediate one
        start before the timeout. */
  datatype Remote = Remote(
    syncTargets: Result<seq<SyncTarget>, Error>,
    apiBindings: Result<seq<APIBinding>, Error>,
    createAPIBinding: APIBinding -> Reply<APIBinding>,
    createPlacement: Placement -> Reply<Placement>,
    write: string -> Option<Error>,
    getPlacement: (nat, string) -> Result<Placement, Error>,
    getBinding: (nat, string) -> Result<APIBinding, Error>,
    extraRounds: nat)

  /** Library functions the command relies on, as values.
      - `sum224Base36`: SHA-224, base36 encoding and lower-casing;
      - `clusterPath`: the path of a logical cluster name, the binding-name seed;
      - `validWorkspace`: whether a string is a valid logical cluster name;
      - `parseSelector`: the label-selector parser. */
  datatype Foreign = Foreign(
    sum224Base36: Hasher,
    clusterPath: string -> string,
    validWorkspace: string -> bool,
    parseSelector: string -> Result<LabelSelector, Error>)

  /** The interactions of one run with the remote API and the output. */
  datatype Call =
    | ListSyncTargets
    | ListAPIBindings
    | CreateAPIBinding(binding: APIBinding)
    | WriteBindingLine(line: string)
    | CreatePlacement(placement: Placement)
    | WritePlacementLine(line: string)
    | PollStatus(placementName: string, bindingNames: seq<string>)

  /** The step of a run a call belongs to: export discovery, binding
      reconciliation, placement creation and the wait, in that order. */
  function Step(c: Call): nat
  {
    match c
    case ListSyncTargets => 0
    case ListAPIBindings => 1
    case CreateAPIBinding(_) => 1
    case WriteBindingLine(_) => 1
    case CreatePlacement(_) => 2
    case WritePlacementLine(_) => 2
    case PollStatus(_, _) => 3
  }

  /** The calls of a trace come step by step, never going back. */
  predicate InStepOrder(calls: seq<Call>)
  {
    forall i, j :: 0 <= i < j < |calls| ==> Step(calls[i]) <= Step(calls[j])
  }

  /** No call of the trace belongs to a step later than `s`. */
  predicate NoStepAfter(calls: seq<Call>, s: nat)
  {
    forall k :: 0 <= k < |calls| ==> Step(calls[k]) <= s
  }

  /** No call of the trace belongs to a step earlier than `s`. */
  predicate NoStepBefore(calls: seq<Call>, s: nat)
  {
    forall k :: 0 <= k < |calls| ==> s <= Step(calls[k])
  }

  /** Steps up to `s` followed by steps from `s` on stay in order, and the
      whole trace goes past a step `t >= s` exactly when the second part
      does, and before a step `t <= s` exactly when the first part does. */
  lemma StepsAppend(calls: seq<Call>, more: seq<Call>, s: nat)
    requires InStepOrder(calls) && NoStepAfter(calls, s)
    requires InStepOrder(more) && NoStepBefore(more, s)
    ensures InStepOrder(calls + more)
    ensures forall t: nat :: t <= s && NoStepBefore(calls, t) ==> NoStepBefore(calls + more, t)
    ensures forall t: nat :: t >= s ==> (NoStepAfter(calls + more, t) <==> NoStepAfter(more, t))
  {
    var all := calls + more;
    forall i, j | 0 <= i < j < |all| ensures Step(all[i]) <= Step(all[j]) {
      if j < |calls| {
      } else if i < |calls| {
        assert Step(all[i]) <= s <= Step(all[j]);
      } else {
        assert all[i] == more[i - |calls|] && all[j] == more[j - |calls|];
      }
    }
    forall t: nat | t <= s && NoStepBefore(calls, t) ensures NoStepBefore(all, t) {
      forall k | 0 <= k < |all| ensures t <= Step(all[k]) {
        if k >= |calls| { assert all[k] == more[k - |calls|]; }
      }
    }
    forall t: nat | t >= s ensures NoStepAfter(all, t) <==> NoStepAfter(more, t) {
      if NoStepAfter(more, t) {
        forall k | 0 <= k < |all| ensures Step(all[k]) <= t {
          if k >= |calls| { assert all[k] == more[k - |calls|]; }
        }
      }
      if NoStepAfter(all, t) {
        forall k | 0 <= k < |more| ensures Step(more[k]) <= t {
          assert all[k + |calls|] == more[k];
        }
      }
    }
  }
}
