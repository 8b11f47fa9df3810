/** The bind compute command: its options, the completion of those options
    from the command line, and the run that binds the compute exports,
    creates the placement and waits for both to be ready. */
module BindCompute {
  import opened StringUtil
  import opened Naming
  import opened Resources
  import opened Discovery
  import opened Bindings
  import opened Readiness
  import opened Waiting

  /** The string form of the selector that selects everything. */
  const EVERYTHING_SELECTOR := ""

  /** The resource a placement selects locations from. */
  const SYNC_TARGET_RESOURCE := GroupVersionResource("workload.kcp.dev", "v1alpha1", "synctargets")

  /** The location selectors parsed so far and the error that stopped the
      parsing, if any. */
  datatype Parsed = Parsed(selectors: seq<LabelSelector>, err: Option<Error>)

  /** Parsing the location selectors in order, stopping at the first one
      that does not parse; the error names that selector. */
  function ParseSelectors(parse: string -> Result<LabelSelector, Error>, strs: seq<string>): (r: Parsed)
    ensures |r.selectors| <= |strs|
    ensures forall k :: 0 <= k < |r.selectors| ==> parse(strs[k]) == Ok(r.selectors[k])
    ensures r.err.None? ==> |r.selectors| == |strs|
    ensures r.err.Some? ==>
      && |r.selectors| < |strs|
      && parse(strs[|r.selectors|]).Err?
      && r.err == Some(BadLocationSelector(strs[|r.selectors|], parse(strs[|r.selectors|]).error))
    ensures r.err.None? <==> forall k :: 0 <= k < |strs| ==> parse(strs[k]).Ok?
  {
    if strs == [] then Parsed([], None)
    else
      var last := strs[|strs| - 1];
      var init := ParseSelectors(parse, strs[..|strs| - 1]);
      if init.err.Some? then init
      else match parse(last)
        case Ok(s) => Parsed(init.selectors + [s], None)
        case Err(e) => Parsed(init.selectors, Some(BadLocationSelector(last, e)))
  }

  /** The parse result is fixed by the first selector that fails to parse. */
  lemma ParseSelectorsStopsAt(parse: string -> Result<LabelSelector, Error>, strs: seq<string>, i: int)
    requires 0 <= i < |strs|
    requires ParseSelectors(parse, strs[..i]).err.None?
    requires parse(strs[i]).Err?
    ensures ParseSelectors(parse, strs)
         == Parsed(ParseSelectors(parse, strs[..i]).selectors, Some(BadLocationSelector(strs[i], parse(strs[i]).error)))
  {
    var r, p := ParseSelectors(parse, strs), ParseSelectors(parse, strs[..i]);
    assert |p.selectors| == i;
    assert forall k :: 0 <= k < i ==> parse(strs[k]) == Ok(p.selectors[k]) by {
      forall k | 0 <= k < i ensures parse(strs[k]) == Ok(p.selectors[k]) {
        assert strs[..i][k] == strs[k];
      }
    }
    assert r.err.Some? by {
      assert !parse(strs[i]).Ok?;
    }
    assert |r.selectors| == i;
    assert r.selectors == p.selectors;
  }

  /** The objects the creates return for the exports, in processing order. */
  function CreatedObjects(lib: Foreign, remote: Remote, order: seq<string>): (r: seq<APIBinding>)
    ensures |r| == |order|
    ensures forall k :: 0 <= k < |r| ==> r[k] == remote.createAPIBinding(BindingRequest(lib, order[k])).obj
  {
    seq(|order|, k requires 0 <= k < |order| => remote.createAPIBinding(BindingRequest(lib, order[k])).obj)
  }

  /** The names of some bindings, in order. */
  function Names(bindings: seq<APIBinding>): (r: seq<string>)
    ensures |r| == |bindings|
    ensures forall k :: 0 <= k < |r| ==> r[k] == bindings[k].name
  {
    seq(|bindings|, k requires 0 <= k < |bindings| => bindings[k].name)
  }

  /** The outcome of creating the placement: the placement returned, the
      error, and the calls made. */
  datatype PlacementApplied = PlacementApplied(placement: Option<Placement>, err: Option<Error>, calls: seq<Call>)

  /** The line written for a created placement. */
  function PlacementLine(p: Placement): string
  {
    "placement " + p.name + " created.\n"
  }

  /** `applyPlacement`: create the placement; a failed create (other than
      "already exists") returns its error and no placement; otherwise the
      returned placement is kept and its line written, and the error of
      that write is the result's error. */
  function ApplyPlacement(remote: Remote, request: Placement): (r: PlacementApplied)
    ensures |r.calls| >= 1 && r.calls[0] == CreatePlacement(request)
    ensures forall k :: 0 <= k < |r.calls| ==> Step(r.calls[k]) == 2
    ensures r.placement.Some? <==> !remote.createPlacement(request).outcome.CreateFailed?
    ensures r.placement.Some? ==> r.placement.value == remote.createPlacement(request).obj
    ensures r.placement.None? ==> r.err == Some(remote.createPlacement(request).outcome.error) && |r.calls| == 1
    ensures r.err.None? <==>
      !remote.createPlacement(request).outcome.CreateFailed?
      && remote.write(PlacementLine(remote.createPlacement(request).obj)).None?
  {
    var reply := remote.createPlacement(request);
    match reply.outcome
    case CreateFailed(e) => PlacementApplied(None, Some(e), [CreatePlacement(request)])
    case _ =>
      var line := PlacementLine(reply.obj);
      PlacementApplied(Some(reply.obj), remote.write(line), [CreatePlacement(request), WritePlacementLine(line)])
  }

  /** The options of the command. The location workspace is kept as the
      string the logical cluster name was made from. */
  class BindComputeOptions {
    var placementName: string
    var apiExports: seq<string>
    var namespaceSelector: Option<LabelSelector>
    var namespaceSelectorString: string
    var locationSelectors: seq<LabelSelector>
    var locationSelectorsStrings: seq<string>
    var locationWorkspace: string

    /** `NewBindComputeOptions`: both selector strings select everything,
        with one location selector; everything else is empty. */
    constructor ()
      ensures placementName == "" && apiExports == []
      ensures namespaceSelector == None && namespaceSelectorString == EVERYTHING_SELECTOR
      ensures locationSelectors == [] && locationSelectorsStrings == [EVERYTHING_SELECTOR]
      ensures locationWorkspace == ""
    {
      placementName := "";
      apiExports := [];
      namespaceSelector := None;
      namespaceSelectorString := EVERYTHING_SELECTOR;
      locationSelectors := [];
      locationSelectorsStrings := [EVERYTHING_SELECTOR];
      locationWorkspace := "";
    }

    /** `Complete`. `baseErr` is the outcome of completing the shared base
        options. Exactly one argument is required and it must be a valid
        workspace; it becomes the location workspace. The namespace
        selector is parsed (left unset if it fails), then the location
        selectors one by one, each appended as it parses, up to the first
        failure. Without a placement name one is derived from the selector
        strings and the location workspace. */
    method Complete(lib: Foreign, baseErr: Option<Error>, args: seq<string>) returns (err: Option<Error>)
      modifies this
      ensures apiExports == old(apiExports)
      ensures namespaceSelectorString == old(namespaceSelectorString)
      ensures locationSelectorsStrings == old(locationSelectorsStrings)
      ensures baseErr.Some? ==> err == baseErr && unchanged(this)
      ensures baseErr.None? && |args| != 1 ==> err == Some(MissingLocationWorkspace) && unchanged(this)
      ensures baseErr.None? && |args| == 1 && !lib.validWorkspace(args[0]) ==>
        err == Some(InvalidLocationWorkspace) && unchanged(this)
      ensures baseErr.None? && |args| == 1 && lib.validWorkspace(args[0]) ==>
        var ns := lib.parseSelector(namespaceSelectorString);
        var parsed := ParseSelectors(lib.parseSelector, locationSelectorsStrings);
        && locationWorkspace == args[0]
        && (ns.Err? ==>
              && err == Some(BadNamespaceSelector(ns.error))
              && namespaceSelector == None
              && locationSelectors == old(locationSelectors)
              && placementName == old(placementName))
        && (ns.Ok? ==>
              && namespaceSelector == Some(ns.value)
              && locationSelectors == old(locationSelectors) + parsed.selectors
              && err == parsed.err
              && (err.Some? || old(placementName) != "" ==> placementName == old(placementName))
              && (err.None? && old(placementName) == "" ==>
                    placementName == DerivedPlacementName(lib.sum224Base36, namespaceSelectorString,
                                                          locationSelectorsStrings, locationWorkspace)))
      ensures err == None ==> placementName != ""
    {
      if baseErr.Some? {
        return baseErr;
      }
      if |args| != 1 {
        return Some(MissingLocationWorkspace);
      }
      if !lib.validWorkspace(args[0]) {
        return Some(InvalidLocationWorkspace);
      }
      locationWorkspace := args[0];

      var ns := lib.parseSelector(namespaceSelectorString);
      if ns.Err? {
        namespaceSelector := None;
        return Some(BadNamespaceSelector(ns.error));
      }
      namespaceSelector := Some(ns.value);

      var strs := locationSelectorsStrings;
      var i := 0;
      while i < |strs|
        invariant 0 <= i <= |strs|
        invariant ParseSelectors(lib.parseSelector, strs[..i]).err.None?
        invariant locationSelectors == old(locationSelectors) + ParseSelectors(lib.parseSelector, strs[..i]).selectors
        invariant placementName == old(placementName) && locationWorkspace == args[0]
        invariant namespaceSelector == Some(ns.value)
        invariant apiExports == old(apiExports) && namespaceSelectorString == old(namespaceSelectorString)
        invariant locationSelectorsStrings == strs
      {
        var selector := lib.parseSelector(strs[i]);
        if selector.Err? {
          ParseSelectorsStopsAt(lib.parseSelector, strs, i);
          return Some(BadLocationSelector(strs[i], selector.error));
        }
        assert strs[..i + 1][..i] == strs[..i];
        locationSelectors := locationSelectors + [selector.value];
        i := i + 1;
      }
      assert strs[..i] == strs;

      if |placementName| == 0 {
        placementName := DerivedPlacementName(lib.sum224Base36, namespaceSelectorString, locationSelectorsStrings, locationWorkspace);
      }
      err := None;
    }

    /** The placement `applyPlacement` asks to create: named by the
        placement name, selecting with the parsed selectors among the sync
        targets of the location workspace, and without status. */
    function PlacementRequest(): (r: Placement)
      reads this
      ensures r.name == placementName
      ensures r.namespaceSelector == namespaceSelector && r.locationSelectors == locationSelectors
      ensures r.locationWorkspace == locationWorkspace
      ensures r.locationResource == GroupVersionResource("workload.kcp.dev", "v1alpha1", "synctargets")
      ensures r.conditions == []
    {
      Placement(placementName, namespaceSelector, locationSelectors, locationWorkspace, SYNC_TARGET_RESOURCE, [])
    }

    /** Export discovery fails: the sync targets cannot be listed, or some
        requested export is not advertised. */
    ghost predicate DiscoveryFails(remote: Remote)
      reads this
    {
      || remote.syncTargets.Err?
      || exists x :: x in apiExports && !Advertises(remote.syncTargets.value, locationWorkspace, x)
    }

    /** The exports discovery selects when the sync targets are listed. */
    ghost function Selected(remote: Remote): set<string>
      reads this
      requires remote.syncTargets.Ok?
    {
      if apiExports == [] then
        set x | x in {GLOBAL_KUBERNETES_EXPORT, LocalKubernetesExport(locationWorkspace)}
                && Advertises(remote.syncTargets.value, locationWorkspace, x)
      else Elems(apiExports)
    }

    /** What a run ends with once its bindings are created as `bindings`:
        if the placement cannot be created or reported, that error and no
        wait; otherwise, with `placement` the placement the create
        returned, no wait exactly when the bindings and the placement are
        already ready, success then, and otherwise the outcome of the wait
        with its error (a failed fetch or the timeout) wrapped with the
        placement name. */
    ghost predicate Settled(remote: Remote, bindings: seq<APIBinding>, err: Option<Error>, calls: seq<Call>)
      reads this
    {
      var applied := ApplyPlacement(remote, PlacementRequest());
      var placement := remote.createPlacement(PlacementRequest()).obj;
      && (applied.err.Some? ==> err == applied.err && NoStepAfter(calls, 2))
      && (applied.err.None? ==>
            && (BindReady(bindings, placement) <==> NoStepAfter(calls, 2))
            && (BindReady(bindings, placement) ==> err == None)
            && (!BindReady(bindings, placement) ==>
                  && (err == None <==> WaitSucceeds(remote, placement.name, Names(bindings)))
                  && (err.Some? ==>
                        && err.value.NotReady? && err.value.placement == placement.name
                        && WaitFailsWith(remote, placement.name, Names(bindings), err.value.cause))))
    }

    /** `Run`, after the clients are built: discovery, then binding
        reconciliation, then placement creation, each returning its error
        at once; then, unless the created bindings and placement are
        already ready, the wait. The calls made come step by step in that
        order. */
    method Run(lib: Foreign, remote: Remote)
      returns (err: Option<Error>, calls: seq<Call>, ghost bindings: seq<APIBinding>, ghost order: seq<string>)
      ensures |calls| >= 1 && calls[0] == ListSyncTargets
      ensures InStepOrder(calls)
      ensures DiscoveryFails(remote) ==> err.Some? && calls == [ListSyncTargets]
      ensures remote.syncTargets.Err? ==> err == Some(remote.syncTargets.error)
      ensures remote.syncTargets.Ok? && DiscoveryFails(remote) ==>
        && err.Some? && err.value.UnsupportedAPIExports?
        && err.value.workspace == locationWorkspace
        && StrictlySorted(err.value.exports)
        && forall x :: x in err.value.exports <==> x in apiExports && !Advertises(remote.syncTargets.value, locationWorkspace, x)
      ensures !DiscoveryFails(remote) && remote.apiBindings.Err? ==>
        err == Some(remote.apiBindings.error) && calls == [ListSyncTargets, ListAPIBindings]
      ensures !DiscoveryFails(remote) && remote.apiBindings.Ok? ==>
        && IsEnumeration(order, Selected(remote), remote.apiBindings.value)
        && bindings == CreatedObjects(lib, remote, order)
      ensures !DiscoveryFails(remote) && remote.apiBindings.Ok? && BindingsFail(lib, remote, Selected(remote)) ==>
        err == AggregateOf(CollectedErrors(lib, remote, order))
      ensures !DiscoveryFails(remote) && BindingsFail(lib, remote, Selected(remote)) ==>
        err.Some? && NoStepAfter(calls, 1)
      ensures !DiscoveryFails(remote) && !BindingsFail(lib, remote, Selected(remote)) ==>
        Settled(remote, bindings, err, calls)
    {
      calls := [ListSyncTargets];
      bindings, order := [], [];
      var exports, e1 := SupportedAPIExports(apiExports, locationWorkspace, remote.syncTargets);
      if e1.Some? {
        assert DiscoveryFails(remote);
        return e1, calls, bindings, order;
      }
      assert !DiscoveryFails(remote);
      assert exports == Selected(remote);

      var more;
      err, more, bindings, order := Reconcile(lib, remote, exports);
      StepsAppend(calls, more, 1);
      calls := calls + more;
    }

    /** Binding reconciliation for `exports`, returning its error at once,
        then placement creation and the wait. */
    method Reconcile(lib: Foreign, remote: Remote, exports: set<string>)
      returns (err: Option<Error>, calls: seq<Call>, ghost bindings: seq<APIBinding>, ghost order: seq<string>)
      ensures |calls| >= 1 && calls[0] == ListAPIBindings
      ensures InStepOrder(calls) && NoStepBefore(calls, 1)
      ensures remote.apiBindings.Err? ==> err == Some(remote.apiBindings.error) && calls == [ListAPIBindings]
      ensures remote.apiBindings.Ok? ==>
        && IsEnumeration(order, exports, remote.apiBindings.value)
        && bindings == CreatedObjects(lib, remote, order)
      ensures remote.apiBindings.Ok? && BindingsFail(lib, remote, exports) ==>
        err == AggregateOf(CollectedErrors(lib, remote, order))
      ensures BindingsFail(lib, remote, exports) ==> err.Some? && NoStepAfter(calls, 1)
      ensures !BindingsFail(lib, remote, exports) ==> Settled(remote, bindings, err, calls)
    {
      var created, e2, more;
      created, e2, calls, order := ApplyAPIBinding(lib, remote, exports);
      bindings := created;
      if remote.apiBindings.Ok? {
        assert bindings == CreatedObjects(lib, remote, order);
      }
      if e2.Some? {
        return e2, calls, bindings, order;
      }
      err, more := PlaceAndWait(remote, created);
      StepsAppend(calls, more, 2);
      calls := calls + more;
    }

    /** Placement creation, returning its error at once, then the wait
        unless `created` and the placement are already ready. */
    method PlaceAndWait(remote: Remote, created: seq<APIBinding>) returns (err: Option<Error>, calls: seq<Call>)
      ensures InStepOrder(calls) && NoStepBefore(calls, 2)
      ensures Settled(remote, created, err, calls)
    {
      var applied := ApplyPlacement(remote, PlacementRequest());
      calls := applied.calls;
      if applied.err.Some? {
        return applied.err, calls;
      }
      var placement := applied.placement.value;
      if BindReady(created, placement) {
        return None, calls;
      }
      var e3, polls := WaitForBind(remote, placement.name, Names(created));
      StepsAppend(calls, polls, 3);
      calls := calls + polls;
      assert Step(calls[|calls| - 1]) == 3;
      err := if e3.Some? then Some(NotReady(placement.name, e3.value)) else None;
    }
  }
}
