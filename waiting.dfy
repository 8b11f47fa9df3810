/** The wait for a placement and its bindings to become ready: an
    immediate poll, then one poll per interval until the timeout. Each
    round fetches the placement, then every binding by name in order, and
    the first fetch error ends the wait. */
module Waiting {
  import opened Resources
  import opened Readiness

  /** The bindings fetched one by one in round `n`, in the order of
      `names`, up to the first fetch that fails. */
  function FetchBindings(remote: Remote, n: nat, names: seq<string>): (r: Result<seq<APIBinding>, Error>)
    ensures r.Ok? <==> forall k :: 0 <= k < |names| ==> remote.getBinding(n, names[k]).Ok?
    ensures r.Ok? ==>
      && |r.value| == |names|
      && forall k :: 0 <= k < |names| ==> remote.getBinding(n, names[k]) == Ok(r.value[k])
    ensures r.Err? ==>
      exists k :: && 0 <= k < |names| && remote.getBinding(n, names[k]) == Err(r.error)
                  && forall j :: 0 <= j < k ==> remote.getBinding(n, names[j]).Ok?
  {
    if names == [] then Ok([])
    else
      var init := names[..|names| - 1];
      var last := names[|names| - 1];
      assert forall k :: 0 <= k < |init| ==> init[k] == names[k];
      match FetchBindings(remote, n, init)
      case Err(e) => Err(e)
      case Ok(bs) =>
        match remote.getBinding(n, last)
        case Err(e) => Err(e)
        case Ok(b) => Ok(bs + [b])
  }

  /** When the bindings before position `i` all fetch and the one at `i`
      does not, the round's error is that fetch's error. */
  lemma FetchBindingsStopsAt(remote: Remote, n: nat, names: seq<string>, i: int)
    requires 0 <= i < |names|
    requires FetchBindings(remote, n, names[..i]).Ok?
    requires remote.getBinding(n, names[i]).Err?
    ensures FetchBindings(remote, n, names) == Err(remote.getBinding(n, names[i]).error)
  {
    assert forall j :: 0 <= j < i ==> remote.getBinding(n, names[j]).Ok? by {
      forall j | 0 <= j < i ensures remote.getBinding(n, names[j]).Ok? {
        assert names[..i][j] == names[j];
      }
    }
    var r := FetchBindings(remote, n, names);
    assert r.Err? by {
      assert !remote.getBinding(n, names[i]).Ok?;
    }
    var k :| 0 <= k < |names| && remote.getBinding(n, names[k]) == Err(r.error)
      && forall j :: 0 <= j < k ==> remote.getBinding(n, names[j]).Ok?;
    assert remote.getBinding(n, names[i]).Ok? ==> k <= i;
    assert k == i;
  }

  /** Round `n`: the placement, then the bindings, the first error ending it. */
  function Round(remote: Remote, n: nat, placementName: string, bindingNames: seq<string>): Result<Snapshot, Error>
  {
    match remote.getPlacement(n, placementName)
    case Err(e) => Err(e)
    case Ok(p) =>
      match FetchBindings(remote, n, bindingNames)
      case Err(e) => Err(e)
      case Ok(bs) => Ok(Snapshot(p, bs))
  }

  /** One polling round as the condition function of the wait performs it:
      fetch the placement, then each binding in order, returning at the
      first error. */
  method PollRound(remote: Remote, n: nat, placementName: string, bindingNames: seq<string>)
    returns (s: Result<Snapshot, Error>)
    ensures s == Round(remote, n, placementName, bindingNames)
  {
    var placement := remote.getPlacement(n, placementName);
    if placement.Err? {
      return Err(placement.error);
    }
    var fetched: seq<APIBinding> := [];
    var i := 0;
    while i < |bindingNames|
      invariant 0 <= i <= |bindingNames|
      invariant FetchBindings(remote, n, bindingNames[..i]) == Ok(fetched)
    {
      var binding := remote.getBinding(n, bindingNames[i]);
      if binding.Err? {
        FetchBindingsStopsAt(remote, n, bindingNames, i);
        return Err(binding.error);
      }
      assert bindingNames[..i + 1][..i] == bindingNames[..i];
      fetched := fetched + [binding.value];
      i := i + 1;
    }
    assert bindingNames[..i] == bindingNames;
    s := Ok(Snapshot(placement.value, fetched));
  }

  /** Polling round `n` fetched everything and found it not yet ready. */
  predicate NotReadyRound(remote: Remote, n: nat, placementName: string, bindingNames: seq<string>)
  {
    var s := Round(remote, n, placementName, bindingNames);
    s.Ok? && !BindReady(s.value.bindings, s.value.placement)
  }

  /** Polling round `n` fetched everything and found it ready. */
  predicate ReadyRound(remote: Remote, n: nat, placementName: string, bindingNames: seq<string>)
  {
    var s := Round(remote, n, placementName, bindingNames);
    s.Ok? && BindReady(s.value.bindings, s.value.placement)
  }

  /** In round `n` the placement fetched is Ready and, for every name, the
      binding fetched under it is Bound. */
  predicate ObservedReady(remote: Remote, n: nat, placementName: string, bindingNames: seq<string>)
  {
    && remote.getPlacement(n, placementName).Ok?
    && IsTrue(remote.getPlacement(n, placementName).value.conditions, PLACEMENT_READY)
    && forall k :: 0 <= k < |bindingNames| ==>
         remote.getBinding(n, bindingNames[k]).Ok? && remote.getBinding(n, bindingNames[k]).value.phase == PHASE_BOUND
  }

  /** A round is ready exactly when it observed the placement Ready and one
      Bound binding per name. */
  lemma ReadyRoundObserved(remote: Remote, n: nat, placementName: string, bindingNames: seq<string>)
    ensures ReadyRound(remote, n, placementName, bindingNames) <==> ObservedReady(remote, n, placementName, bindingNames)
  {
    var fetched := FetchBindings(remote, n, bindingNames);
    if ObservedReady(remote, n, placementName, bindingNames) {
      assert fetched.Ok?;
      assert forall k :: 0 <= k < |fetched.value| ==> fetched.value[k] == remote.getBinding(n, bindingNames[k]).value;
    }
  }

  /** The wait succeeds: some round within the timeout is ready and every
      round before it fetched everything and was not ready. */
  ghost predicate WaitSucceeds(remote: Remote, placementName: string, bindingNames: seq<string>)
  {
    exists n: nat :: n <= remote.extraRounds && ReadyRound(remote, n, placementName, bindingNames)
      && forall m: nat :: m < n ==> NotReadyRound(remote, m, placementName, bindingNames)
  }

  /** The wait ends with error `e`: after rounds that were not ready, a
      round within the timeout fails with `e`, or the last round is not
      ready either and `e` is the timeout. */
  ghost predicate WaitFailsWith(remote: Remote, placementName: string, bindingNames: seq<string>, e: Error)
  {
    exists n: nat :: n <= remote.extraRounds
      && (forall m: nat :: m < n ==> NotReadyRound(remote, m, placementName, bindingNames))
      && ((Round(remote, n, placementName, bindingNames).Err? && e == Round(remote, n, placementName, bindingNames).error)
          || (n == remote.extraRounds && NotReadyRound(remote, n, placementName, bindingNames) && e == WaitTimeout))
  }

  /** `wait.PollImmediate` with the condition of `Run`: poll until a
      round is ready (no error), a round fails (its error is returned as
      it is) or the rounds before the timeout are used up (the timeout
      error). Every round polls the same placement and binding names, and
      a successful wait has seen the placement Ready and every binding
      Bound in its last round. */
  method WaitForBind(remote: Remote, placementName: string, bindingNames: seq<string>)
    returns (err: Option<Error>, calls: seq<Call>)
    ensures 1 <= |calls| <= remote.extraRounds + 1
    ensures forall k :: 0 <= k < |calls| ==> calls[k] == PollStatus(placementName, bindingNames)
    ensures forall m: nat :: m < |calls| - 1 ==> NotReadyRound(remote, m, placementName, bindingNames)
    ensures Round(remote, |calls| - 1, placementName, bindingNames).Err? ==>
      err == Some(Round(remote, |calls| - 1, placementName, bindingNames).error)
    ensures ReadyRound(remote, |calls| - 1, placementName, bindingNames) ==> err == None
    ensures NotReadyRound(remote, |calls| - 1, placementName, bindingNames) ==>
      err == Some(WaitTimeout) && |calls| == remote.extraRounds + 1
    ensures err == None ==> ObservedReady(remote, |calls| - 1, placementName, bindingNames)
    ensures err == None <==> WaitSucceeds(remote, placementName, bindingNames)
    ensures err.Some? ==> WaitFailsWith(remote, placementName, bindingNames, err.value)
  {
    var t: nat := 0;
    calls := [];
    while true
      invariant t <= remote.extraRounds
      invariant |calls| == t
      invariant forall k :: 0 <= k < |calls| ==> calls[k] == PollStatus(placementName, bindingNames)
      invariant forall m: nat :: m < t ==> NotReadyRound(remote, m, placementName, bindingNames)
      decreases remote.extraRounds - t
    {
      calls := calls + [PollStatus(placementName, bindingNames)];
      var s := PollRound(remote, t, placementName, bindingNames);
      if s.Err? {
        err := Some(s.error);
        NoSuccessAfterFailure(remote, placementName, bindingNames, t);
        return;
      }
      if BindReady(s.value.bindings, s.value.placement) {
        err := None;
        assert ReadyRound(remote, t, placementName, bindingNames);
        ReadyRoundObserved(remote, t, placementName, bindingNames);
        return;
      }
      if t == remote.extraRounds {
        err := Some(WaitTimeout);
        assert NotReadyRound(remote, t, placementName, bindingNames);
        NoSuccessAfterFailure(remote, placementName, bindingNames, t);
        return;
      }
      t := t + 1;
    }
  }

  /** If every round before `t` was not ready and round `t` is not ready
      either, or fails, or is the last one, the wait cannot succeed. */
  lemma NoSuccessAfterFailure(remote: Remote, placementName: string, bindingNames: seq<string>, t: nat)
    requires forall m: nat :: m < t ==> NotReadyRound(remote, m, placementName, bindingNames)
    requires !ReadyRound(remote, t, placementName, bindingNames)
    requires t == remote.extraRounds || Round(remote, t, placementName, bindingNames).Err?
    ensures !WaitSucceeds(remote, placementName, bindingNames)
  {
    forall n: nat | n <= remote.extraRounds && ReadyRound(remote, n, placementName, bindingNames)
      ensures exists m: nat :: m < n && !NotReadyRound(remote, m, placementName, bindingNames)
    {
      assert NotReadyRound(remote, n, placementName, bindingNames) ==> !ReadyRound(remote, n, placementName, bindingNames);
      if n > t {
        assert !NotReadyRound(remote, t, placementName, bindingNames);
      }
    }
  }
}
