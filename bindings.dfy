/** Binding reconciliation: create one binding for every export that is
    wanted and not yet bound, tolerate "already exists", and collect every
    other error without stopping. */
module Bindings {
  import opened StringUtil
  import opened Naming
  import opened Resources

  /** The `path:exportName` string of an existing binding's reference. */
  function Rendered(ref: WorkspaceExportReference): string
  {
    ref.path + ":" + ref.exportName
  }

  /** Some listed binding with a workspace reference renders to `x`. */
  ghost predicate IsExisting(items: seq<APIBinding>, x: string)
  {
    exists k :: 0 <= k < |items| && items[k].reference.workspace.Some?
      && x == Rendered(items[k].reference.workspace.value)
  }

  /** The exports the listed bindings already import; bindings without a
      workspace reference are skipped. */
  method ExistingExports(items: seq<APIBinding>) returns (existing: set<string>)
    ensures forall x :: x in existing <==> IsExisting(items, x)
  {
    existing := {};
    var i := 0;
    while i < |items|
      invariant 0 <= i <= |items|
      invariant forall x :: x in existing <==>
        exists k :: 0 <= k < i && items[k].reference.workspace.Some?
          && x == Rendered(items[k].reference.workspace.value)
    {
      if items[i].reference.workspace.Some? {
        existing := existing + {Rendered(items[i].reference.workspace.value)};
      }
      i := i + 1;
    }
  }

  /** The binding created for a wanted export: the export is split at its
      last colon into workspace path and export name, the reference names
      both and the name is derived from the export name and the path. */
  function BindingRequest(lib: Foreign, qualified: string): (b: APIBinding)
    ensures b.reference.workspace.Some?
    ensures ':' !in b.reference.workspace.value.exportName
    ensures ':' in qualified ==> Rendered(b.reference.workspace.value) == qualified
    ensures ':' !in qualified ==> b.reference.workspace.value == WorkspaceExportReference("", qualified)
    ensures |b.name| <= DNS1123_SUBDOMAIN_MAX_LENGTH
    ensures b.phase == ""
  {
    var (parent, name) := Split(qualified);
    APIBinding(
      ApiBindingName(lib.sum224Base36, lib.clusterPath(parent), name),
      ExportReference(Some(WorkspaceExportReference(parent, name))),
      "")
  }

  /** For a qualified export, the request references exactly the path and
      the export name it was qualified from. */
  lemma BindingRequestReference(lib: Foreign, path: string, exportName: string)
    requires ':' !in exportName
    ensures BindingRequest(lib, path + ":" + exportName).reference.workspace
         == Some(WorkspaceExportReference(path, exportName))
    ensures BindingRequest(lib, path + ":" + exportName).name
         == ApiBindingName(lib.sum224Base36, lib.clusterPath(path), exportName)
  {
    SplitQualified(path, exportName);
  }

  /** Once the binding requested for a qualified export is listed, that
      export counts as existing: a later run does not create it again. */
  lemma CreatedBindingIsExisting(lib: Foreign, items: seq<APIBinding>, qualified: string, k: int)
    requires ':' in qualified
    requires 0 <= k < |items| && items[k].reference == BindingRequest(lib, qualified).reference
    ensures IsExisting(items, qualified)
  {
    assert items[k].reference.workspace.Some?;
    assert qualified == Rendered(items[k].reference.workspace.value);
  }

  /** The confirmation line written for a binding. */
  function BindingLine(b: APIBinding, qualified: string): string
  {
    "apibinding " + b.name + " for apiexport " + qualified + " created.\n"
  }

  /** The errors one export adds: the create error unless it is "already
      exists", then the error of writing the confirmation line. */
  function StepErrors(lib: Foreign, remote: Remote, qualified: string): seq<Error>
  {
    var request := BindingRequest(lib, qualified);
    (match remote.createAPIBinding(request).outcome
     case CreateFailed(e) => [e]
     case _ => [])
    + (match remote.write(BindingLine(request, qualified))
       case Some(e) => [e]
       case None => [])
  }

  /** Creating the binding for `export` succeeded or found it already
      there, and its line was written. */
  predicate StepSucceeds(lib: Foreign, remote: Remote, qualified: string)
  {
    var request := BindingRequest(lib, qualified);
    !remote.createAPIBinding(request).outcome.CreateFailed?
    && remote.write(BindingLine(request, qualified)).None?
  }

  /** The errors collected over the exports in processing order. */
  function CollectedErrors(lib: Foreign, remote: Remote, order: seq<string>): seq<Error>
  {
    if order == [] then []
    else CollectedErrors(lib, remote, order[..|order| - 1]) + StepErrors(lib, remote, order[|order| - 1])
  }

  /** The calls made for the exports in processing order. */
  function CreationCalls(lib: Foreign, order: seq<string>): seq<Call>
  {
    if order == [] then []
    else
      var qualified := order[|order| - 1];
      var request := BindingRequest(lib, qualified);
      CreationCalls(lib, order[..|order| - 1]) + [CreateAPIBinding(request), WriteBindingLine(BindingLine(request, qualified))]
  }

  /** Exactly the steps that fail contribute errors. */
  lemma {:induction false} CollectedErrorsEmpty(lib: Foreign, remote: Remote, order: seq<string>)
    ensures CollectedErrors(lib, remote, order) == [] <==>
      forall k :: 0 <= k < |order| ==> StepSucceeds(lib, remote, order[k])
  {
    if order != [] {
      var init := order[..|order| - 1];
      CollectedErrorsEmpty(lib, remote, init);
      assert forall k :: 0 <= k < |init| ==> init[k] == order[k];
    }
  }

  /** Every call for a sequence of exports belongs to the binding step. */
  lemma {:induction false} CreationCallsStep(lib: Foreign, order: seq<string>)
    ensures forall k :: 0 <= k < |CreationCalls(lib, order)| ==> Step(CreationCalls(lib, order)[k]) == 1
  {
    if order != [] {
      CreationCallsStep(lib, order[..|order| - 1]);
    }
  }

  /** The calls of reconciliation all belong to the binding step. */
  lemma BindingCallsStep(lib: Foreign, order: seq<string>)
    ensures NoStepAfter([ListAPIBindings] + CreationCalls(lib, order), 1)
    ensures NoStepBefore([ListAPIBindings] + CreationCalls(lib, order), 1)
    ensures InStepOrder([ListAPIBindings] + CreationCalls(lib, order))
  {
    CreationCallsStep(lib, order);
    var c := [ListAPIBindings] + CreationCalls(lib, order);
    assert forall k :: 1 <= k < |c| ==> c[k] == CreationCalls(lib, order)[k - 1];
  }

  /** `utilerrors.NewAggregate`: no error for an empty list. */
  function AggregateOf(errs: seq<Error>): (r: Option<Error>)
    ensures r == None <==> errs == []
  {
    if errs == [] then None else Some(Aggregate(errs))
  }

  predicate Distinct(s: seq<string>)
  {
    forall i, j :: 0 <= i < j < |s| ==> s[i] != s[j]
  }

  /** `order` lists each wanted export that is not yet bound, once. */
  ghost predicate IsEnumeration(order: seq<string>, desired: set<string>, items: seq<APIBinding>)
  {
    && Distinct(order)
    && (forall k :: 0 <= k < |order| ==> order[k] in desired && !IsExisting(items, order[k]))
    && (forall x :: x in desired && !IsExisting(items, x) ==> x in order)
  }

  /** Whether reconciliation reports an error does not depend on the order
      the exports were processed in: it does exactly when some missing
      export's create failed (other than "already exists") or its line
      could not be written. */
  lemma AggregateErrorIff(lib: Foreign, remote: Remote, order: seq<string>, desired: set<string>, items: seq<APIBinding>)
    requires IsEnumeration(order, desired, items)
    ensures AggregateOf(CollectedErrors(lib, remote, order)) == None <==>
      forall x :: x in desired && !IsExisting(items, x) ==> StepSucceeds(lib, remote, x)
  {
    CollectedErrorsEmpty(lib, remote, order);
    if forall k :: 0 <= k < |order| ==> StepSucceeds(lib, remote, order[k]) {
      forall x | x in desired && !IsExisting(items, x) ensures StepSucceeds(lib, remote, x) {
        var k :| 0 <= k < |order| && order[k] == x;
      }
    }
  }

  /** Reconciliation of `desired` fails: the bindings cannot be listed,
      or some export that is not yet bound fails to be created or reported.
      Which export is processed first plays no part. */
  ghost predicate BindingsFail(lib: Foreign, remote: Remote, desired: set<string>)
  {
    || remote.apiBindings.Err?
    || exists x :: x in desired && !IsExisting(remote.apiBindings.value, x) && !StepSucceeds(lib, remote, x)
  }

  /** `applyAPIBinding`. If the bindings cannot be listed, that error is
      returned and nothing is created. Otherwise the wanted exports not
      already bound are processed one by one in some order: each gets one
      create, its returned object is appended to the result, its line is
      written, and the errors other than "already exists" are collected;
      the aggregate of those errors is returned with the whole list. */
  method ApplyAPIBinding(lib: Foreign, remote: Remote, desired: set<string>)
    returns (bindings: seq<APIBinding>, err: Option<Error>, calls: seq<Call>, ghost order: seq<string>)
    ensures remote.apiBindings.Err? ==>
      bindings == [] && err == Some(remote.apiBindings.error) && calls == [ListAPIBindings]
    ensures remote.apiBindings.Ok? ==>
      && IsEnumeration(order, desired, remote.apiBindings.value)
      && |bindings| == |order|
      && (forall k :: 0 <= k < |order| ==> bindings[k] == remote.createAPIBinding(BindingRequest(lib, order[k])).obj)
      && err == AggregateOf(CollectedErrors(lib, remote, order))
      && calls == [ListAPIBindings] + CreationCalls(lib, order)
    ensures remote.apiBindings.Ok? && (forall x :: x in desired ==> IsExisting(remote.apiBindings.value, x)) ==>
      bindings == [] && err == None && calls == [ListAPIBindings]
    ensures err.Some? <==> BindingsFail(lib, remote, desired)
    ensures calls[0] == ListAPIBindings && InStepOrder(calls) && NoStepAfter(calls, 1) && NoStepBefore(calls, 1)
  {
    calls := [ListAPIBindings];
    bindings, order := [], [];
    if remote.apiBindings.Err? {
      return bindings, Some(remote.apiBindings.error), calls, order;
    }
    var items := remote.apiBindings.value;
    var existing := ExistingExports(items);
    var errs, more;
    bindings, errs, more, order := CreateMissing(lib, remote, desired - existing);
    calls := calls + more;
    err := AggregateOf(errs);
    BindingCallsStep(lib, order);
    AggregateErrorIff(lib, remote, order, desired, items);
  }

  /** The loop of `applyAPIBinding` over the missing exports, in the
      arbitrary order a Go map is iterated in. */
  method CreateMissing(lib: Foreign, remote: Remote, diff: set<string>)
    returns (bindings: seq<APIBinding>, errs: seq<Error>, calls: seq<Call>, ghost order: seq<string>)
    ensures Distinct(order)
    ensures forall k :: 0 <= k < |order| ==> order[k] in diff
    ensures forall x :: x in diff ==> x in order
    ensures |bindings| == |order|
    ensures forall k :: 0 <= k < |order| ==> bindings[k] == remote.createAPIBinding(BindingRequest(lib, order[k])).obj
    ensures errs == CollectedErrors(lib, remote, order)
    ensures calls == CreationCalls(lib, order)
  {
    bindings, errs, calls, order := [], [], [], [];
    var rest := diff;
    while rest != {}
      invariant rest <= diff
      invariant Distinct(order)
      invariant forall k :: 0 <= k < |order| ==> order[k] in diff && order[k] !in rest
      invariant forall x :: x in diff && x !in rest ==> x in order
      invariant |bindings| == |order|
      invariant forall k :: 0 <= k < |order| ==> bindings[k] == remote.createAPIBinding(BindingRequest(lib, order[k])).obj
      invariant errs == CollectedErrors(lib, remote, order)
      invariant calls == CreationCalls(lib, order)
      decreases rest
    {
      var qualified :| qualified in rest;
      ghost var before := order;
      var obj;
      obj, errs := CreateOne(lib, remote, qualified, errs);
      bindings := bindings + [obj];
      var request := BindingRequest(lib, qualified);
      calls := calls + [CreateAPIBinding(request), WriteBindingLine(BindingLine(request, qualified))];
      order := order + [qualified];
      assert order[..|order| - 1] == before;
      rest := rest - {qualified};
    }
  }

  /** One pass of that loop: create the binding, keep the returned object,
      write the line, and append the create error (unless "already
      exists") and the write error to `errs`. */
  method CreateOne(lib: Foreign, remote: Remote, qualified: string, errs: seq<Error>)
    returns (obj: APIBinding, errs': seq<Error>)
    ensures obj == remote.createAPIBinding(BindingRequest(lib, qualified)).obj
    ensures errs' == errs + StepErrors(lib, remote, qualified)
  {
    errs' := errs;
    var request := BindingRequest(lib, qualified);
    var reply := remote.createAPIBinding(request);
    if reply.outcome.CreateFailed? {
      errs' := errs' + [reply.outcome.error];
    }
    obj := reply.obj;
    var writeErr := remote.write(BindingLine(request, qualified));
    if writeErr.Some? {
      errs' := errs' + [writeErr.value];
    }
  }
}
