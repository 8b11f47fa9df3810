/** Export discovery: which `path:exportName` strings the sync targets of
    the location workspace advertise, and which exports to bind. */
module Discovery {
  import opened StringUtil
  import opened Resources

  /** The cluster-wide default export, probed when no export is requested. */
  const GLOBAL_KUBERNETES_EXPORT := "root:compute:kubernetes"

  /** The workspace-local default export, probed when no export is requested. */
  function LocalKubernetesExport(locationWorkspace: string): string
  {
    locationWorkspace + ":kubernetes"
  }

  /** The string for an advertised export; an empty path stands for the
      location workspace. */
  function Advertised(ref: WorkspaceExportReference, locationWorkspace: string): string
  {
    (if |ref.path| == 0 then locationWorkspace else ref.path) + ":" + ref.exportName
  }

  /** `x` is advertised by one of the first `j` references. */
  ghost predicate AdvertisedBy(refs: seq<ExportReference>, locationWorkspace: string, x: string, j: int)
  {
    exists m :: 0 <= m < j && m < |refs| && refs[m].workspace.Some?
      && x == Advertised(refs[m].workspace.value, locationWorkspace)
  }

  /** `x` is advertised by one of the first `i` sync targets. */
  ghost predicate AdvertisedAmong(targets: seq<SyncTarget>, locationWorkspace: string, x: string, i: int)
  {
    exists n :: 0 <= n < i && n < |targets|
      && AdvertisedBy(targets[n].supportedAPIExports, locationWorkspace, x, |targets[n].supportedAPIExports|)
  }

  /** `x` is advertised by some sync target: some workspace reference of
      some target renders to `x`. */
  ghost predicate Advertises(targets: seq<SyncTarget>, locationWorkspace: string, x: string)
  {
    AdvertisedAmong(targets, locationWorkspace, x, |targets|)
  }

  /** Every advertised export is qualified with a path. */
  lemma AdvertisedIsQualified(targets: seq<SyncTarget>, locationWorkspace: string, x: string)
    requires Advertises(targets, locationWorkspace, x)
    ensures ':' in x
  {
    var n :| 0 <= n < |targets| && AdvertisedBy(targets[n].supportedAPIExports, locationWorkspace, x, |targets[n].supportedAPIExports|);
    var refs := targets[n].supportedAPIExports;
    var m :| 0 <= m < |refs| && refs[m].workspace.Some? && x == Advertised(refs[m].workspace.value, locationWorkspace);
    var ref := refs[m].workspace.value;
    var path := if |ref.path| == 0 then locationWorkspace else ref.path;
    assert x[|path|] == ':';
  }

  /** The supported set: every workspace reference of every sync target,
      rendered as `path:exportName`, references without a workspace skipped. */
  method SupportedSet(targets: seq<SyncTarget>, locationWorkspace: string) returns (supported: set<string>)
    ensures forall x :: x in supported <==> Advertises(targets, locationWorkspace, x)
  {
    supported := {};
    var i := 0;
    while i < |targets|
      invariant 0 <= i <= |targets|
      invariant forall x :: x in supported <==> AdvertisedAmong(targets, locationWorkspace, x, i)
    {
      var refs := targets[i].supportedAPIExports;
      var j := 0;
      while j < |refs|
        invariant 0 <= j <= |refs|
        invariant forall x :: x in supported <==>
          AdvertisedAmong(targets, locationWorkspace, x, i) || AdvertisedBy(refs, locationWorkspace, x, j)
      {
        if refs[j].workspace.Some? {
          supported := supported + {Advertised(refs[j].workspace.value, locationWorkspace)};
        }
        j := j + 1;
      }
      forall x
        ensures AdvertisedAmong(targets, locationWorkspace, x, i + 1) <==>
          AdvertisedAmong(targets, locationWorkspace, x, i) || AdvertisedBy(refs, locationWorkspace, x, |refs|)
      {
        if AdvertisedAmong(targets, locationWorkspace, x, i + 1) && !AdvertisedAmong(targets, locationWorkspace, x, i) {
          var n :| 0 <= n < i + 1 && n < |targets|
            && AdvertisedBy(targets[n].supportedAPIExports, locationWorkspace, x, |targets[n].supportedAPIExports|);
          assert n == i;
        }
      }
      i := i + 1;
    }
  }

  /** The exports to bind. The requested exports are taken as a set. If
      the sync targets cannot be listed, that error is returned with them.
      With none requested, the two default exports that are supported are
      chosen, possibly none. Otherwise every requested export must be
      supported; if some are not, an error lists exactly those, sorted,
      and the requested set is still returned. */
  method SupportedAPIExports(desired: seq<string>, locationWorkspace: string, listed: Result<seq<SyncTarget>, Error>)
    returns (current: set<string>, err: Option<Error>)
    ensures listed.Err? ==> current == Elems(desired) && err == Some(listed.error)
    ensures listed.Ok? && desired == [] ==>
      && err == None
      && forall x :: x in current <==>
           (x == GLOBAL_KUBERNETES_EXPORT || x == LocalKubernetesExport(locationWorkspace))
           && Advertises(listed.value, locationWorkspace, x)
    ensures listed.Ok? && desired != [] ==>
      && current == Elems(desired)
      && (err == None <==> forall x :: x in desired ==> Advertises(listed.value, locationWorkspace, x))
    ensures listed.Ok? && err.Some? ==>
      && err.value.UnsupportedAPIExports?
      && err.value.workspace == locationWorkspace
      && StrictlySorted(err.value.exports)
      && forall x :: x in err.value.exports <==> x in desired && !Advertises(listed.value, locationWorkspace, x)
  {
    current := Elems(desired);
    if listed.Err? {
      return current, Some(listed.error);
    }
    var supported := SupportedSet(listed.value, locationWorkspace);
    err := None;
    if |current| == 0 {
      current := ProbeDefaults(supported, locationWorkspace);
    } else {
      err := CheckRequested(current, supported, locationWorkspace);
    }
  }

  /** The default exports that are in `supported`. */
  method ProbeDefaults(supported: set<string>, locationWorkspace: string) returns (current: set<string>)
    ensures forall x :: x in current <==>
      (x == GLOBAL_KUBERNETES_EXPORT || x == LocalKubernetesExport(locationWorkspace)) && x in supported
  {
    current := {};
    var defaults := [GLOBAL_KUBERNETES_EXPORT, LocalKubernetesExport(locationWorkspace)];
    var k := 0;
    while k < |defaults|
      invariant 0 <= k <= |defaults|
      invariant forall x :: x in current <==> x in defaults[..k] && x in supported
    {
      if defaults[k] in supported {
        current := current + {defaults[k]};
      }
      k := k + 1;
    }
    assert defaults[..k] == defaults;
  }

  /** No error when every requested export is supported; otherwise the
      error lists exactly the unsupported ones, sorted. */
  method CheckRequested(current: set<string>, supported: set<string>, locationWorkspace: string) returns (err: Option<Error>)
    ensures err == None <==> current <= supported
    ensures err.Some? ==>
      && err.value.UnsupportedAPIExports?
      && err.value.workspace == locationWorkspace
      && StrictlySorted(err.value.exports)
      && forall x :: x in err.value.exports <==> x in current && x !in supported
  {
    err := None;
    var diff := current - supported;
    if |diff| > 0 {
      var names := SortedList(diff);
      err := Some(UnsupportedAPIExports(locationWorkspace, names));
      var x :| x in diff;
      assert !(current <= supported);
    } else {
      forall x | x in current ensures x in supported {
        assert x !in diff;
      }
    }
  }

  const UNSUPPORTED_LEAD := "the following APIExports are not supported by the synctargets in workspace "

  /** Text of the form `lead workspace: e1,e2,...` names the workspace and
      every export. */
  lemma ListingNames(lead: string, locationWorkspace: string, exports: seq<string>)
    ensures Occurs(locationWorkspace, lead + locationWorkspace + ": " + Join(exports, ","))
    ensures forall k :: 0 <= k < |exports| ==> Occurs(exports[k], lead + locationWorkspace + ": " + Join(exports, ","))
  {
    var joined := Join(exports, ",");
    var r := lead + locationWorkspace + ": " + joined;
    assert Piece(locationWorkspace, 0, |locationWorkspace|) == locationWorkspace;
    OccursWithin(locationWorkspace, lead, locationWorkspace, ": " + joined);
    assert lead + locationWorkspace + (": " + joined) == r;
    forall k | 0 <= k < |exports| ensures Occurs(exports[k], r) {
      JoinContains(exports, ",", k);
      OccursWithin(exports[k], lead + locationWorkspace + ": ", joined, "");
      assert lead + locationWorkspace + ": " + joined + "" == r;
    }
  }

  /** The text of the unsupported-exports error. It names the location
      workspace and every export listed, comma-joined after a fixed lead. */
  function UnsupportedMessage(locationWorkspace: string, exports: seq<string>): (r: string)
    ensures Occurs(locationWorkspace, r)
    ensures forall k :: 0 <= k < |exports| ==> Occurs(exports[k], r)
  {
    ListingNames(UNSUPPORTED_LEAD, locationWorkspace, exports);
    UNSUPPORTED_LEAD + locationWorkspace + ": " + Join(exports, ",")
  }
}
