// What a whole reconcile pass keeps, and what it has achieved when it ends.
module Passes {
  import opened Text
  import opened Rfc3339
  import opened Conditions
  import opened Spec
  import opened ApiServer
  import opened Controllers
  import opened Invariants
  import opened Calls
  import Ports

  /* ---- steps that leave the children alone ---- */

  // From s, with the copy rmq, a pass got to t, with the copy held.
  ghost predicate StepKeeps(s: Sys, rmq: RabbitmqCluster, t: Sys, held: RabbitmqCluster) {
    Steady(s.w, t.w) && Holds(t.w, held) && SameSpec(held, rmq)
  }

  lemma StepKeepsTransitive(s: Sys, rmq: RabbitmqCluster, t: Sys, held: RabbitmqCluster, u: Sys, last: RabbitmqCluster)
    requires Inv(s.w) && StepKeeps(s, rmq, t, held) && StepKeeps(t, held, u, last)
    ensures StepKeeps(s, rmq, u, last)
  {
    SteadyTransitive(s.w, t.w, u.w);
  }

  lemma StaysPut(s: Sys, rmq: RabbitmqCluster)
    requires Inv(s.w) && Holds(s.w, rmq)
    ensures StepKeeps(s, rmq, s, rmq)
  {
  }

  lemma ReadKeeps(s: Sys, rmq: RabbitmqCluster)
    requires Inv(s.w) && Holds(s.w, rmq)
    ensures StepKeeps(s, rmq, Enter(s), rmq) && Inv(Enter(s).w) && Enter(s).w.log == s.w.log
  {
    EnterSteady(s);
    HoldsOn(s.w, Enter(s).w, rmq);
  }

  lemma StatusStep(s: Sys, rmq: RabbitmqCluster, st: ClusterStatus)
    requires Inv(s.w) && Holds(s.w, rmq) && st.observedGeneration == rmq.status.observedGeneration
    ensures var (v, r) := UpdateStatus(s, rmq.(status := st));
            v.w.log == s.w.log && StepKeeps(s, rmq, v, if r.Ok? then r.value else rmq.(status := st))
  {
    UpdateStatusSteady(s, rmq, rmq.(status := st));
  }

  lemma SetConditionKeeps(s: Sys, rmq: RabbitmqCluster, kind: ConditionType, status: ConditionStatus, reason: string)
    requires Inv(s.w) && Holds(s.w, rmq)
    ensures var p := SetCondition(s, rmq, kind, status, reason); p.s.w.log == s.w.log && StepKeeps(s, rmq, p.s, p.rmq)
  {
    StatusStep(s, rmq, rmq.status.(conditions := AfterSetCondition(rmq.status.conditions, kind, status, reason, [],
      s.w.now)));
  }

  lemma AddFinalizerKeeps(s: Sys, rmq: RabbitmqCluster)
    requires Inv(s.w) && Holds(s.w, rmq)
    ensures var p := AddFinalizerIfNeeded(s, rmq); StepKeeps(s, rmq, p.s, p.rmq)
  {
    if rmq.finalizer {
      StaysPut(s, rmq);
    } else {
      UpdateClusterSteady(s, rmq, rmq.(finalizer := true));
      HoldsOn(s.w, UpdateCluster(s, rmq.(finalizer := true)).0.w, rmq);
    }
  }

  lemma UpdateStatusConditionsKeeps(s: Sys, rmq: RabbitmqCluster)
    requires Inv(s.w) && Holds(s.w, rmq)
    ensures var p := UpdateStatusConditions(s, rmq); StepKeeps(s, rmq, p.s, p.rmq)
  {
    var (s1, sts) := ReadSts(s);
    ReadKeeps(s, rmq);
    var (s2, ep) := ReadEndpoints(s1);
    ReadKeeps(s1, rmq);
    StepKeepsTransitive(s, rmq, s1, rmq, s2, rmq);
    if !sts.Failed? && !ep.Failed? {
      var resources := [StatefulSet(if sts.Ok? then Some(ViewOf(sts.value)) else None), Endpoints(Known(ep))];
      var st := rmq.status.(conditions := AfterSetConditions(rmq.status.conditions, resources, s2.w.now));
      StatusStep(s2, rmq, st);
      var p := UpdateStatusConditions(s, rmq);
      var (s3, r) := UpdateStatus(s2, rmq.(status := st));
      assert (p.s == s2 && p.rmq == rmq) || (p.s == s3 && p.rmq == (if r.Ok? then r.value else rmq.(status := st)));
      hide *;
      StepKeepsTransitive(s, rmq, s2, rmq, s3, if r.Ok? then r.value else rmq.(status := st));
    }
  }

  lemma {:induction false} CheckTLSSecretsKeeps(s: Sys, spec: ClusterSpec)
    requires Inv(s.w)
    ensures Steady(s.w, CheckTLSSecrets(s, spec).0.w)
  {
    EnterSteady(s);
    EnterSteady(Enter(s));
    SteadyTransitive(s.w, Enter(s).w, Enter(Enter(s)).w);
    hide ClusterSpec.MutualTLSEnabled, ClusterSpec.SingleTLSSecret, Steady;
  }

  lemma ReconcileTLSKeeps(s: Sys, rmq: RabbitmqCluster)
    requires Inv(s.w) && Holds(s.w, rmq)
    ensures var p := ReconcileTLS(s, rmq); StepKeeps(s, rmq, p.s, p.rmq)
  {
    var s1 := CheckTLSSecrets(s, rmq.spec).0;
    CheckTLSSecretsKeeps(s, rmq.spec);
    HoldsOn(s.w, s1.w, rmq);
    assert Inv(s1.w);
    SetConditionKeeps(s, rmq, ReconcileSuccess, ConditionFalse, "TLSError");
    SetConditionKeeps(s1, rmq, ReconcileSuccess, ConditionFalse, "TLSError");
    var p1 := SetReconcileSuccess(s1, rmq, ConditionFalse, "TLSError");
    assert StepKeeps(s, rmq, s1, rmq);
    StaysPut(s, rmq);
    StepKeepsTransitive(s, rmq, s1, rmq, p1.s, p1.rmq);
    hide StepKeeps, SetCondition, CheckTLSSecrets, ClusterSpec.TLSEnabled, ClusterSpec.SecretTLSEnabled;
  }

  // The check ends a pass for good exactly on the specifications for which the
  // container ports would not match.
  lemma TLSCheckGuardsPorts(s: Sys, rmq: RabbitmqCluster)
    ensures ReconcileTLS(s, rmq).flow == Halt <==> !Ports.Accepted(rmq.spec)
  {
    hide CheckTLSSecrets, SetCondition;
  }

  // Conditions recomputed from what they were computed from are not written.
  lemma StatusIsNotRewritten(s: Sys, rmq: RabbitmqCluster, earlier: seq<Condition>, t: Time)
    requires FateOf(s) == FateOf(Enter(s)) == Delivered
    requires var (s1, sts) := ReadSts(s); var (s2, ep) := ReadEndpoints(s1);
             rmq.status.conditions
             == AfterSetConditions(earlier, [StatefulSet(if sts.Ok? then Some(ViewOf(sts.value)) else None),
               Endpoints(Known(ep))], t)
    ensures UpdateStatusConditions(s, rmq) == Step(Enter(Enter(s)), rmq, Go)
  {
    var (s1, sts) := ReadSts(s);
    var (s2, ep) := ReadEndpoints(s1);
    RecomputingIsIdentity(earlier, [StatefulSet(if sts.Ok? then Some(ViewOf(sts.value)) else None),
      Endpoints(Known(ep))], t, s2.w.now);
    hide AfterSetConditions;
  }

  lemma MarkForQueueRebalanceKeeps(s: Sys, rmq: RabbitmqCluster)
    requires Inv(s.w) && Holds(s.w, rmq)
    ensures var p := MarkForQueueRebalance(s, rmq); StepKeeps(s, rmq, p.s, p.rmq)
  {
    var s1 := ReadSts(s).0;
    ReadKeeps(s, rmq);
    var marked := rmq.(annotations := rmq.annotations[QUEUE_REBALANCE_NEEDED_AT := Stamp(s1.w.now)]);
    assert SERVER_CONF_UPDATED_AT != QUEUE_REBALANCE_NEEDED_AT by {
      assert |SERVER_CONF_UPDATED_AT| == 32 && |QUEUE_REBALANCE_NEEDED_AT| == 35;
    }
    UpdateClusterSteady(s1, rmq, marked);
    var (s2, r) := UpdateCluster(s1, marked);
    HoldsOn(s1.w, s2.w, rmq);
    var p := MarkForQueueRebalance(s, rmq);
    assert StepKeeps(s1, rmq, s2, if r.Ok? then r.value else rmq);
    assert (p.s == s1 && p.rmq == rmq)
        || (p.s == s2 && p.rmq == (if r.Ok? then r.value else rmq)) by {
      hide Pending, NeedsQueueRebalance, ReadSts, UpdateCluster;
    }
    hide *;
    StepKeepsTransitive(s, rmq, s1, rmq, s2, if r.Ok? then r.value else rmq);
  }

  lemma PreliminariesKeep(s: Sys, rmq: RabbitmqCluster)
    requires Inv(s.w) && Holds(s.w, rmq)
    ensures var p := Preliminaries(s, rmq); StepKeeps(s, rmq, p.s, p.rmq)
  {
    hide AddFinalizerIfNeeded, UpdateStatusConditions, ReconcileTLS, MarkForQueueRebalance, Inv, Holds;
    var p1 := AddFinalizerIfNeeded(s, rmq);
    AddFinalizerKeeps(s, rmq);
    if p1.flow == Go {
      InvAfter(s, rmq, p1.s, p1.rmq);
      var p2 := UpdateStatusConditions(p1.s, p1.rmq);
      UpdateStatusConditionsKeeps(p1.s, p1.rmq);
      StepKeepsTransitive(s, rmq, p1.s, p1.rmq, p2.s, p2.rmq);
      if p2.flow == Go {
        InvAfter(s, rmq, p2.s, p2.rmq);
        var p3 := ReconcileTLS(p2.s, p2.rmq);
        ReconcileTLSKeeps(p2.s, p2.rmq);
        StepKeepsTransitive(s, rmq, p2.s, p2.rmq, p3.s, p3.rmq);
        if p3.flow == Go {
          InvAfter(s, rmq, p3.s, p3.rmq);
          var p4 := MarkForQueueRebalance(p3.s, p3.rmq);
          MarkForQueueRebalanceKeeps(p3.s, p3.rmq);
          StepKeepsTransitive(s, rmq, p3.s, p3.rmq, p4.s, p4.rmq);
        }
      }
    }
  }

  lemma InvAfter(s: Sys, rmq: RabbitmqCluster, t: Sys, held: RabbitmqCluster)
    requires StepKeeps(s, rmq, t, held)
    ensures Inv(t.w) && Holds(t.w, held)
  {
  }
}
