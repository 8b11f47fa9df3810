/** The readiness predicate combining the placement's Ready condition and
    the phases of the bindings. */
module Readiness {
  import opened Resources

  const PLACEMENT_READY := "Ready"
  const CONDITION_TRUE := "True"
  const PHASE_BOUND := "Bound"

  /** `conditions.IsTrue`: the first condition of type `t` has status True;
      false when there is none. */
  function IsTrue(conds: seq<Condition>, t: string): (r: bool)
    ensures r <==> exists k :: 0 <= k < |conds| && conds[k].conditionType == t && conds[k].status == CONDITION_TRUE
                              && forall j :: 0 <= j < k ==> conds[j].conditionType != t
  {
    if conds == [] then false
    else if conds[0].conditionType == t then
      conds[0].status == CONDITION_TRUE
    else
      var r := IsTrue(conds[1..], t);
      assert r ==> exists k :: 0 <= k < |conds| && conds[k].conditionType == t && conds[k].status == CONDITION_TRUE
                              && forall j :: 0 <= j < k ==> conds[j].conditionType != t by {
        if r {
          var k :| 0 <= k < |conds[1..]| && conds[1..][k].conditionType == t && conds[1..][k].status == CONDITION_TRUE
                   && forall j :: 0 <= j < k ==> conds[1..][j].conditionType != t;
          assert forall j :: 0 <= j < k + 1 ==> conds[j].conditionType != t by {
            forall j | 0 <= j < k + 1 ensures conds[j].conditionType != t {
              if j > 0 { assert conds[j] == conds[1..][j - 1]; }
            }
          }
          assert conds[k + 1] == conds[1..][k];
        }
      }
      assert (exists k :: 0 <= k < |conds| && conds[k].conditionType == t && conds[k].status == CONDITION_TRUE
                              && forall j :: 0 <= j < k ==> conds[j].conditionType != t) ==> r by {
        if exists k :: 0 <= k < |conds| && conds[k].conditionType == t && conds[k].status == CONDITION_TRUE
                              && forall j :: 0 <= j < k ==> conds[j].conditionType != t {
          var k :| 0 <= k < |conds| && conds[k].conditionType == t && conds[k].status == CONDITION_TRUE
                   && forall j :: 0 <= j < k ==> conds[j].conditionType != t;
          assert k > 0;
          assert conds[1..][k - 1] == conds[k];
          assert forall j :: 0 <= j < k - 1 ==> conds[1..][j].conditionType != t by {
            forall j | 0 <= j < k - 1 ensures conds[1..][j].conditionType != t {
              assert conds[1..][j] == conds[j + 1];
            }
          }
        }
      }
      r
  }

  /** Every binding's phase is Bound, checked one by one and stopping at the
      first binding that is not. */
  function AllBound(bindings: seq<APIBinding>): (r: bool)
    ensures r <==> forall k :: 0 <= k < |bindings| ==> bindings[k].phase == PHASE_BOUND
  {
    if bindings == [] then true
    else if bindings[0].phase != PHASE_BOUND then false
    else
      assert forall k :: 1 <= k < |bindings| ==> bindings[k] == bindings[1..][k - 1];
      AllBound(bindings[1..])
  }

  /** `bindReady`: the placement is Ready and every binding is Bound; with
      no bindings, the placement's readiness decides. */
  function BindReady(bindings: seq<APIBinding>, placement: Placement): (r: bool)
    ensures r <==> IsTrue(placement.conditions, PLACEMENT_READY)
                   && forall k :: 0 <= k < |bindings| ==> bindings[k].phase == PHASE_BOUND
    ensures bindings == [] ==> (r <==> IsTrue(placement.conditions, PLACEMENT_READY))
  {
    if !IsTrue(placement.conditions, PLACEMENT_READY) then false
    else AllBound(bindings)
  }
}
