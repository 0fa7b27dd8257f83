// No refused call is passed over: a pass that does not end in an error was
// heard at every call but the last, which only tells the outcome.
module Failures {
  import opened Rfc3339
  import opened Conditions
  import opened Spec
  import opened ApiServer
  import opened Controllers
  import opened Invariants
  import opened Calls
  import opened Passes
  import opened Children
  import opened Runs
  import opened Applying
  import opened Paused
  import Metadata
  import Scaling

  predicate NoneRefused(turns: seq<Turn>, n: nat) {
    forall k :: 0 <= k < |turns| && k < n ==> turns[k].fate != Refused
  }

  // The calls up to here reached the server.
  predicate Heard(turns: seq<Turn>, rest: seq<Turn>) {
    Left(turns, rest) && NoneRefused(turns, |turns| - |rest|)
  }

  // All but the last did.
  predicate HeardButLast(turns: seq<Turn>, rest: seq<Turn>) {
    Left(turns, rest) && (|rest| < |turns| ==> NoneRefused(turns, |turns| - |rest| - 1))
  }

  lemma HeardTransitive(a: seq<Turn>, b: seq<Turn>, c: seq<Turn>)
    requires Heard(a, b)
    ensures Heard(b, c) ==> Heard(a, c)
    ensures HeardButLast(b, c) ==> HeardButLast(a, c)
  {
    var d := |a| - |b|;
    if Left(b, c) {
      LeftTransitive(a, b, c);
      forall k | d <= k < |a| ensures a[k] == b[k - d] {}
    }
  }

  // One call.
  lemma CallHeard(s: Sys)
    ensures FateOf(s) != Refused ==> Heard(s.turns, Enter(s).turns)
    ensures HeardButLast(s.turns, Enter(s).turns) && Heard(s.turns, s.turns)
  {
  }

  lemma TwoCalls(s: Sys)
    ensures FateOf(s) != Refused && FateOf(Enter(s)) != Refused ==> Heard(s.turns, Enter(Enter(s)).turns)
    ensures FateOf(s) != Refused ==> HeardButLast(s.turns, Enter(Enter(s)).turns)
  {
    CallHeard(s);
    CallHeard(Enter(s));
    if FateOf(s) != Refused { HeardTransitive(s.turns, Enter(s).turns, Enter(Enter(s)).turns); }
    hide Heard, HeardButLast, Enter;
  }

  /* ---- the steps before the children ---- */

  lemma ConditionHeard(s: Sys, rmq: RabbitmqCluster, kind: ConditionType, status: ConditionStatus, reason: string)
    ensures HeardButLast(s.turns, SetCondition(s, rmq, kind, status, reason).s.turns)
  {
    CallHeard(s);
    SetConditionLeaves(s, rmq, kind, status, reason);
    hide SetCondition, Enter, HeardButLast;
  }

  lemma FinalizerHeard(s: Sys, rmq: RabbitmqCluster)
    ensures var p := AddFinalizerIfNeeded(s, rmq); p.flow == Go ==> Heard(s.turns, p.s.turns)
  {
    CallHeard(s);
    hide ActedAll, Heard, HeardButLast;
  }

  lemma ConditionsHeard(s: Sys, rmq: RabbitmqCluster)
    ensures var p := UpdateStatusConditions(s, rmq); p.flow != Error ==> Heard(s.turns, p.s.turns)
  {
    TwoCalls(s);
    var s2 := Enter(Enter(s));
    CallHeard(s2);
    if Heard(s.turns, s2.turns) { HeardTransitive(s.turns, s2.turns, Enter(s2).turns); }
    hide ActedAll, Heard, HeardButLast, AfterSetConditions;
  }

  lemma TLSHeard(s: Sys, rmq: RabbitmqCluster)
    ensures var p := ReconcileTLS(s, rmq);
            && (p.flow == Go ==> Heard(s.turns, p.s.turns)) && (p.flow == Halt ==> HeardButLast(s.turns, p.s.turns))
            && p.flow != Requeue
  {
    CallHeard(s);
    TwoCalls(s);
    ConditionHeard(s, rmq, ReconcileSuccess, ConditionFalse, "TLSError");
    hide ActedAll, Heard, HeardButLast, SetCondition, Enter, ClusterSpec.TLSEnabled, ClusterSpec.SecretTLSEnabled;
  }

  lemma RebalanceHeard(s: Sys, rmq: RabbitmqCluster)
    ensures var p := MarkForQueueRebalance(s, rmq);
            (p.flow == Go ==> Heard(s.turns, p.s.turns)) && p.flow != Requeue && p.flow != Halt
  {
    CallHeard(s);
    TwoCalls(s);
    hide ActedAll, Heard, HeardButLast, NeedsQueueRebalance, Pending;
  }

  // What is heard of a step, by how it goes on.
  predicate StepHeard(s: Sys, p: Step) {
    && (p.flow == Go ==> Heard(s.turns, p.s.turns)) && (p.flow != Error ==> HeardButLast(s.turns, p.s.turns))
  }

  lemma StepHeardAfter(s: Sys, t: Sys, p: Step)
    requires Heard(s.turns, t.turns) && StepHeard(t, p)
    ensures StepHeard(s, p)
  {
    HeardTransitive(s.turns, t.turns, p.s.turns);
  }

  lemma HeardIsButLast(a: seq<Turn>, b: seq<Turn>)
    requires Heard(a, b)
    ensures HeardButLast(a, b)
  {
  }

  lemma PreliminariesHeard(s: Sys, rmq: RabbitmqCluster)
    ensures StepHeard(s, Preliminaries(s, rmq))
  {
    hide AddFinalizerIfNeeded, UpdateStatusConditions, ReconcileTLS, MarkForQueueRebalance, Heard, HeardButLast;
    var p1 := AddFinalizerIfNeeded(s, rmq);
    FinalizerHeard(s, rmq);
    FinalizerFlows(s, rmq);
    if p1.flow == Go {
      HeardIsButLast(s.turns, p1.s.turns);
      var p2 := UpdateStatusConditions(p1.s, p1.rmq);
      ConditionsHeard(p1.s, p1.rmq);
      if p2.flow != Error {
        HeardTransitive(s.turns, p1.s.turns, p2.s.turns);
        HeardIsButLast(s.turns, p2.s.turns);
      }
      if p2.flow == Go {
        var p3 := ReconcileTLS(p2.s, p2.rmq);
        TLSHeard(p2.s, p2.rmq);
        HeardTransitive(s.turns, p2.s.turns, p3.s.turns);
        if p3.flow == Go {
          var p4 := MarkForQueueRebalance(p3.s, p3.rmq);
          RebalanceHeard(p3.s, p3.rmq);
          HeardTransitive(s.turns, p3.s.turns, p4.s.turns);
          if p4.flow == Go { HeardIsButLast(s.turns, p4.s.turns); }
        }
      }
    }
  }

  lemma FinalizerFlows(s: Sys, rmq: RabbitmqCluster)
    ensures AddFinalizerIfNeeded(s, rmq).flow == Go || AddFinalizerIfNeeded(s, rmq).flow == Error
  {
    hide UpdateCluster;
  }

  /* ---- the children ---- */

  lemma OtherHeard(s: Sys, kind: Kind, spec: ClusterSpec)
    ensures var (v, r) := ApplyOther(s, kind, spec); r.Ok? ==> Heard(s.turns, v.turns)
  {
    CallHeard(s);
    TwoCalls(s);
    hide ActedAll, Heard, HeardButLast;
  }

  lemma MapCallHeard(s: Sys, which: Which)
    ensures var (v, r) := ReadMap(s, which); v == Enter(s) && (!r.Failed? ==> FateOf(s) != Refused)
    ensures forall data, a :: !CreateMap(s, which, data, a).1.Failed? ==> FateOf(s) != Refused
    ensures forall m, why :: !UpdateMap(s, which, m, why).1.Failed? ==> FateOf(s) != Refused
  {
    hide Enter, MapEvents;
  }

  lemma {:induction false} MapHeard(s: Sys, which: Which, rmq: RabbitmqCluster, tries: nat)
    ensures var (v, r) := ApplyMap(s, which, rmq, tries); r.Ok? ==> Heard(s.turns, v.turns)
    decreases tries
  {
    hide Heard, HeardButLast, Enter, ReadMap, CreateMap, UpdateMap, UpdatedData, BuiltData, Metadata.Merged;
    if tries > 0 {
      var (s1, r) := ReadMap(s, which);
      MapCallHeard(s, which);
      MapCallsEnter(s1, which);
      MapCallHeard(s1, which);
      CallHeard(s);
      TwoCalls(s);
      if r.Ok? {
        var s2 := UpdateMap(s1, which, r.value.(data := UpdatedData(which, r.value.data, rmq.spec)), Apply).0;
        MapHeard(s2, which, rmq, tries - 1);
        if Heard(s.turns, s2.turns) {
          HeardTransitive(s.turns, s2.turns, ApplyMap(s2, which, rmq, tries - 1).0.turns);
        }
      }
    }
  }

  lemma {:induction false} MarkHeard(s: Sys, which: Which, t: Time, tries: nat)
    ensures var (v, ok) := AnnotateMap(s, which, t, tries); ok ==> Heard(s.turns, v.turns)
    decreases tries
  {
    hide Heard, HeardButLast, Enter, ReadMap, UpdateMap;
    if tries > 0 {
      var (s1, r) := ReadMap(s, which);
      MapCallHeard(s, which);
      MapCallsEnter(s1, which);
      MapCallHeard(s1, which);
      CallHeard(s);
      TwoCalls(s);
      MarkHeard(s1, which, t, tries - 1);
      if Heard(s.turns, s1.turns) { HeardTransitive(s.turns, s1.turns, AnnotateMap(s1, which, t, tries - 1).0.turns); }
      if r.Ok? {
        var m := r.value.(annotations := r.value.annotations[MarkerKey(which) := Stamp(t)]);
        var s2 := UpdateMap(s1, which, m, Mark).0;
        MarkHeard(s2, which, t, tries - 1);
        if Heard(s.turns, s2.turns) {
          HeardTransitive(s.turns, s2.turns, AnnotateMap(s2, which, t, tries - 1).0.turns);
        }
      }
    }
  }

  lemma StsCallHeard(s: Sys)
    ensures var (v, r) := ReadSts(s); v == Enter(s) && (!r.Failed? ==> FateOf(s) != Refused)
    ensures forall obj :: !CreateSts(s, obj).1.Failed? ==> FateOf(s) != Refused
    ensures forall obj :: CreateSts(s, obj).0.turns == Enter(s).turns
    ensures forall obj, why :: !UpdateSts(s, obj, why).1.Failed? ==> FateOf(s) != Refused
    ensures forall obj, why :: UpdateSts(s, obj, why).0.turns == Enter(s).turns
  {
    hide Enter, StsEvents;
  }

  lemma {:induction false} StsHeard(s: Sys, rmq: RabbitmqCluster, tries: nat)
    ensures var (v, r) := ApplySts(s, rmq, tries); r.Ok? ==> Heard(s.turns, v.turns)
    decreases tries
  {
    hide Heard, HeardButLast, Enter, ReadSts, CreateSts, UpdateSts, UpdatedSts, BuiltSts;
    if tries > 0 {
      var (s1, r) := ReadSts(s);
      StsCallHeard(s);
      StsCallHeard(s1);
      CallHeard(s);
      TwoCalls(s);
      if r.Ok? {
        var s2 := UpdateSts(s1, UpdatedSts(r.value, rmq), Apply).0;
        StsHeard(s2, rmq, tries - 1);
        if Heard(s.turns, s2.turns) { HeardTransitive(s.turns, s2.turns, ApplySts(s2, rmq, tries - 1).0.turns); }
      }
    }
  }

  lemma {:induction false} CreationHeard(s: Sys, t: Time, tries: nat)
    ensures var (v, ok) := AnnotateSts(s, t, tries); ok ==> Heard(s.turns, v.turns)
    decreases tries
  {
    hide Heard, HeardButLast, Enter, ReadSts, UpdateSts;
    if tries > 0 {
      var (s1, r) := ReadSts(s);
      StsCallHeard(s);
      StsCallHeard(s1);
      CallHeard(s);
      TwoCalls(s);
      CreationHeard(s1, t, tries - 1);
      if Heard(s.turns, s1.turns) { HeardTransitive(s.turns, s1.turns, AnnotateSts(s1, t, tries - 1).0.turns); }
      if r.Ok? {
        var s2 := UpdateSts(s1, r.value.(annotations := r.value.annotations[CREATED_AT := Stamp(t)]), Mark).0;
        CreationHeard(s2, t, tries - 1);
        if Heard(s.turns, s2.turns) { HeardTransitive(s.turns, s2.turns, AnnotateSts(s2, t, tries - 1).0.turns); }
      }
    }
  }

  /* ---- expanding the claims ---- */

  // No StatefulSet was deleted, for whose end to be waited with calls that may
  // fail.
  predicate Undeleted(a: seq<Event>, b: seq<Event>) {
    forall k :: |a| <= k < |b| ==> !b[k].StsDeleteAccepted?
  }

  lemma UndeletedParts(a: seq<Event>, b: seq<Event>, c: seq<Event>)
    requires |a| <= |b| && b <= c && Undeleted(a, c)
    ensures Undeleted(a, b) && Undeleted(b, c)
  {
    forall k | |a| <= k < |b| ensures b[k] == c[k] {}
  }

  lemma EnterLogsNothing(s: Sys)
    ensures Enter(s).w.log == s.w.log
  {
    if s.turns != [] { LogDoesNotBear(s.w, [], s.turns[0].env); }
  }

  lemma {:induction false} ListingHeard(s: Sys, name: string, i: nat, n: int)
    ensures var (v, r) := Scaling.GetClusterClaims(s, name, i, n);
            v.w.log == s.w.log && (r.Ok? ==> Heard(s.turns, v.turns))
    decreases n - i
  {
    CallHeard(s);
    EnterLogsNothing(s);
    hide Heard, HeardButLast, Enter, PVCName;
    if i < n {
      var s1 := Enter(s);
      ListingHeard(s1, name, i + 1, n);
      if FateOf(s) != Refused {
        HeardTransitive(s.turns, s1.turns, Scaling.GetClusterClaims(s1, name, i + 1, n).0.turns);
      }
    }
  }

  lemma {:induction false} PollLogs(s: Sys, retries: nat)
    ensures Scaling.PollGone(s, retries).0.w.log == s.w.log
    decreases retries
  {
    EnterLogsNothing(s);
    if retries > 0 { PollLogs(Enter(s), retries - 1); }
    hide Enter;
  }

  lemma {:induction false} ScaleUpHeard(s: Sys, cs: seq<Scaling.Claim>, desired: int)
    ensures var (v, ok) := Scaling.ScaleUp(s, cs, desired); s.w.log <= v.w.log && (ok ==> Heard(s.turns, v.turns))
    decreases |cs|
  {
    CallHeard(s);
    TwoCalls(s);
    EnterLogsNothing(s);
    EnterLogsNothing(Enter(s));
    hide Heard, HeardButLast, Enter;
    if cs != [] {
      var s2 := UpdateClaim(Enter(s), cs[0].name, desired).0;
      assert s2.turns == Enter(Enter(s)).turns && s.w.log <= s2.w.log;
      ScaleUpHeard(s2, cs[1..], desired);
      if Heard(s.turns, s2.turns) { HeardTransitive(s.turns, s2.turns, Scaling.ScaleUp(s2, cs[1..], desired).0.turns); }
    }
  }

  lemma RemovalHeard(s: Sys, rmq: RabbitmqCluster, desired: int)
    ensures var (v, gone) := Scaling.RemoveSts(s, rmq, desired);
            s.w.log <= v.w.log && (gone && Undeleted(s.w.log, v.w.log) ==> Heard(s.turns, v.turns))
  {
    CallHeard(s);
    EnterLogsNothing(s);
    EnterLogsNothing(Enter(s));
    var s2 := DeleteSts(Enter(s), rmq, desired).0;
    PollLogs(s2, Scaling.RETRIES);
    assert DeleteSts(Enter(s), rmq, desired).1.Ok? ==> s2.w.log[|s.w.log|].StsDeleteAccepted?;
    hide Heard, HeardButLast, Enter, Scaling.PollGone;
  }

  lemma ScaleInSteps(s: Sys, rmq: RabbitmqCluster, desired: int)
    ensures var s1 := Enter(s); var (s2, claims) := Scaling.GetClusterClaims(s1, rmq.name, 0, rmq.spec.replicas);
            var (v, o) := Scaling.Scale(s, rmq, desired);
            && (!claims.Ok? ==> v == s1 || v == s2)
            && (claims.Ok? ==>
                var small := Scaling.ClaimsNeedingScaling(claims.value, desired);
                var (s3, gone) := Scaling.RemoveSts(s2, rmq, desired);
                var (s4, grown) := Scaling.ScaleUp(s3, small, desired);
                && (v == s1 || s2.w.log <= v.w.log || s3.w.log <= v.w.log || s4.w.log <= v.w.log)
                && (o == Scaling.Done ==>
                    if small == [] then v.turns == s2.turns
                    else gone && grown && v.turns == s4.turns && s4.w.log <= v.w.log))
            && (o == Scaling.Done ==> FateOf(s) == Delivered && claims.Ok?)
  {
    hide Enter, Scaling.GetClusterClaims, Scaling.RemoveSts, Scaling.ScaleUp, Scaling.ClaimsNeedingScaling;
  }

  lemma ScaleHeard(s: Sys, rmq: RabbitmqCluster, desired: int)
    ensures var (v, o) := Scaling.Scale(s, rmq, desired);
            s.w.log <= v.w.log && (o == Scaling.Done && Undeleted(s.w.log, v.w.log) ==> Heard(s.turns, v.turns))
  {
    var s1 := Enter(s);
    var (v, o) := Scaling.Scale(s, rmq, desired);
    var (s2, claims) := Scaling.GetClusterClaims(s1, rmq.name, 0, rmq.spec.replicas);
    hide *;
    CallHeard(s);
    EnterLogsNothing(s);
    ListingHeard(s1, rmq.name, 0, rmq.spec.replicas);
    ScaleInSteps(s, rmq, desired);
    if claims.Ok? {
      var small := Scaling.ClaimsNeedingScaling(claims.value, desired);
      var s3 := Scaling.RemoveSts(s2, rmq, desired).0;
      RemovalHeard(s2, rmq, desired);
      ScaleUpHeard(s3, small, desired);
      if o == Scaling.Done {
        HeardTransitive(s.turns, s1.turns, s2.turns);
        if small != [] && Undeleted(s.w.log, v.w.log) {
          UndeletedParts(s.w.log, s3.w.log, v.w.log);
          SameBase(s.w.log, s2.w.log, s3.w.log);
          HeardTransitive(s.turns, s2.turns, s3.turns);
          HeardTransitive(s.turns, s3.turns, v.turns);
        }
      }
    }
  }

  lemma PrepareInSteps(s: Sys, rmq: RabbitmqCluster)
    ensures var p := PrepareSts(s, rmq); var s1 := Enter(s);
            var (s2, o) := Scaling.Scale(s1, rmq, DesiredCapacity(rmq.spec));
            && p.flow != Requeue
            && (p.flow == Halt ==>
                && FateOf(s) == Delivered
                && p.s == SetCondition(s1, rmq, ReconcileSuccess, ConditionFalse, "UnsupportedOperation").s)
            && (p.flow == Go ==> FateOf(s) == Delivered && o == Scaling.Done && p.s == s2)
  {
    hide Enter, Scaling.Scale, SetCondition, DesiredCapacity;
  }

  lemma PrepareHeard(s: Sys, rmq: RabbitmqCluster)
    ensures var p := PrepareSts(s, rmq); p.flow != Requeue
    ensures var p := PrepareSts(s, rmq); p.flow == Halt ==> HeardButLast(s.turns, p.s.turns)
    ensures var p := PrepareSts(s, rmq);
            p.flow == Go && Undeleted(s.w.log, p.s.w.log) ==> Heard(s.turns, p.s.turns)
  {
    var s1, p := Enter(s), PrepareSts(s, rmq);
    PrepareInSteps(s, rmq);
    CallHeard(s);
    EnterLogsNothing(s);
    hide *;
    if p.flow == Go {
      ScaleHeard(s1, rmq, DesiredCapacity(rmq.spec));
      HeardTransitive(s.turns, s1.turns, p.s.turns);
      SameBase(s.w.log, s1.w.log, p.s.w.log);
    } else if p.flow == Halt {
      ConditionHeard(s1, rmq, ReconcileSuccess, ConditionFalse, "UnsupportedOperation");
      HeardTransitive(s.turns, s1.turns, p.s.turns);
    }
  }

  lemma SameBase(a: seq<Event>, b: seq<Event>, c: seq<Event>)
    requires a == b
    ensures Undeleted(a, c) <==> Undeleted(b, c)
  {
  }

  lemma ApplicationHeard(s: Sys, rmq: RabbitmqCluster, b: Builder, tries: nat)
    ensures var p := ApplyAndAnnotate(s, rmq, b, tries);
            (p.flow == Go ==> Heard(s.turns, p.s.turns)) && (p.flow == Go || p.flow == Error)
  {
    hide Heard, HeardButLast, ApplyOther, ApplyMap, ApplySts, AnnotateMap, AnnotateSts, SetCondition;
    var (s1, r) := CreateOrUpdate(s, rmq, b, tries);
    CallHeard(s1);
    match b
    case OtherBuilder(kind) =>
      OtherHeard(s, kind, rmq.spec);
    case MapBuilder(which) =>
      MapHeard(s, which, rmq, tries);
      MarkHeard(s1, which, s1.w.now, tries);
      if r.Ok? { HeardTransitive(s.turns, s1.turns, AnnotateMap(s1, which, s1.w.now, tries).0.turns); }
    case StsBuilder =>
      StsHeard(s, rmq, tries);
      CreationHeard(s1, s1.w.now, tries);
      if r.Ok? { HeardTransitive(s.turns, s1.turns, AnnotateSts(s1, s1.w.now, tries).0.turns); }
  }

  // What is heard of a step in which no StatefulSet was deleted.
  predicate Hears(s: Sys, p: Step) {
    s.w.log <= p.s.w.log && (Undeleted(s.w.log, p.s.w.log) ==> StepHeard(s, p))
  }

  lemma HearsAfter(s: Sys, p: Step, q: Step)
    requires p.flow == Go && Hears(s, p) && Hears(p.s, q)
    ensures Hears(s, q)
  {
    hide StepHeard, Heard, Undeleted;
    if Undeleted(s.w.log, q.s.w.log) {
      UndeletedParts(s.w.log, p.s.w.log, q.s.w.log);
      HeardOfGo(s, p);
      StepHeardAfter(s, p.s, q);
    }
  }

  lemma HeardOfGo(s: Sys, p: Step)
    requires StepHeard(s, p) && p.flow == Go
    ensures Heard(s.turns, p.s.turns)
  {
  }

  lemma StepIsHeard(s: Sys, p: Step)
    requires s.w.log <= p.s.w.log && p.flow != Requeue
    requires Undeleted(s.w.log, p.s.w.log) && p.flow == Go ==> Heard(s.turns, p.s.turns)
    requires p.flow == Halt ==> HeardButLast(s.turns, p.s.turns)
    ensures Hears(s, p)
  {
    if p.flow == Go && Heard(s.turns, p.s.turns) { HeardIsButLast(s.turns, p.s.turns); }
    hide Heard, HeardButLast, Undeleted;
  }

  lemma LogKept(w: World, v: World)
    requires Kept(w, v)
    ensures w.log <= v.log
  {
  }

  lemma StepLog(s: Sys, rmq: RabbitmqCluster, p: Step)
    requires StepKeeps(s, rmq, p.s, p.rmq)
    ensures s.w.log <= p.s.w.log
  {
  }

  lemma BuildLog(s: Sys, rmq: RabbitmqCluster, b: Builder, p: Step)
    requires BuiltStep(s, rmq, b, p.s, p.rmq, p.flow == Go)
    ensures s.w.log <= p.s.w.log && Inv(p.s.w) && Holds(p.s.w, p.rmq)
  {
  }

  lemma BuilderHeard(s: Sys, rmq: RabbitmqCluster, b: Builder, tries: nat)
    requires Inv(s.w) && Holds(s.w, rmq)
    ensures Hears(s, RunBuilder(s, rmq, b, tries))
  {
    hide Inv, Holds, PrepareSts, ApplyAndAnnotate, Hears, StepKeeps, Prepared, BuiltStep;
    if b.StsBuilder? {
      var p := PrepareSts(s, rmq);
      PrepareHeard(s, rmq);
      PrepareStsPrepares(s, rmq);
      StepLog(s, rmq, p);
      StepIsHeard(s, p);
      if p.flow == Go {
        InvAfter(s, rmq, p.s, p.rmq);
        ApplicationHears(p.s, rmq, b, tries);
        HearsAfter(s, p, ApplyAndAnnotate(p.s, rmq, b, tries));
      }
    } else {
      ApplicationHears(s, rmq, b, tries);
    }
  }

  lemma ApplicationHears(s: Sys, rmq: RabbitmqCluster, b: Builder, tries: nat)
    requires Inv(s.w) && Holds(s.w, rmq) && (b.StsBuilder? ==> Prepared(s.w, rmq))
    ensures Hears(s, ApplyAndAnnotate(s, rmq, b, tries))
  {
    hide Inv, Holds, ApplyAndAnnotate, Hears, Prepared, BuiltStep, Heard, HeardButLast;
    var p := ApplyAndAnnotate(s, rmq, b, tries);
    ApplyAndAnnotateBuilds(s, rmq, b, tries);
    BuildLog(s, rmq, b, p);
    ApplicationHeard(s, rmq, b, tries);
    StepIsHeard(s, p);
  }

  lemma {:induction false} BuildersHeard(s: Sys, rmq: RabbitmqCluster, bs: seq<Builder>, tries: nat)
    requires Inv(s.w) && Holds(s.w, rmq)
    ensures Hears(s, RunBuilders(s, rmq, bs, tries))
    decreases |bs|
  {
    if bs == [] {
      CallHeard(s);
      StepIsHeard(s, Step(s, rmq, Go));
    } else {
      hide Inv, Holds, RunBuilder, Hears, BuiltStep;
      var p := RunBuilder(s, rmq, bs[0], tries);
      BuilderHeard(s, rmq, bs[0], tries);
      RunBuilderBuilds(s, rmq, bs[0], tries);
      BuildLog(s, rmq, bs[0], p);
      if p.flow == Go {
        BuildersHeard(p.s, p.rmq, bs[1..], tries);
        HearsAfter(s, p, RunBuilders(p.s, p.rmq, bs[1..], tries));
      }
    }
  }

  /* ---- the rest ---- */

  lemma {:induction false} RestartHeard(s: Sys, tries: nat)
    ensures var (v, ok) := WriteRestart(s, tries); ok ==> Heard(s.turns, v.turns)
    decreases tries
  {
    hide Heard, HeardButLast, Enter, ReadSts, UpdateSts;
    if tries > 0 {
      var (s1, r) := ReadSts(s);
      StsCallHeard(s);
      StsCallHeard(s1);
      TwoCalls(s);
      if r.Ok? {
        var obj := r.value.(podAnnotations := r.value.podAnnotations[LAST_RESTART_AT := Stamp(s1.w.now)]);
        var s2 := UpdateSts(s1, obj, Restart).0;
        RestartHeard(s2, tries - 1);
        if Heard(s.turns, s2.turns) { HeardTransitive(s.turns, s2.turns, WriteRestart(s2, tries - 1).0.turns); }
      }
    }
  }

  lemma RestartIfNeededHeard(s: Sys, tries: nat)
    ensures var (v, o) := RestartIfNeeded(s, tries); FlowOf(o) != Error ==> Heard(s.turns, v.turns)
  {
    var s2 := Enter(Enter(s));
    MapCallHeard(s, ServerMap);
    StsCallHeard(Enter(s));
    CallHeard(s);
    TwoCalls(s);
    RestartHeard(s2, tries);
    if Heard(s.turns, s2.turns) { HeardTransitive(s.turns, s2.turns, WriteRestart(s2, tries).0.turns); }
    hide Heard, HeardButLast, Enter, ReadSts, ReadMap, WriteRestart, TextAfter;
  }

  lemma StatusHeard(s: Sys, rmq: RabbitmqCluster)
    ensures var p := ReconcileStatus(s, rmq);
            (p.flow == Go ==> Heard(s.turns, p.s.turns)) && (p.flow == Go || p.flow == Error)
  {
    CallHeard(s);
    hide Heard, HeardButLast, ActedAll;
  }

  lemma {:induction false} PodsHeard(s: Sys, cmd: Command, i: nat, n: int)
    ensures var (v, ok) := RunOnPods(s, cmd, i, n); ok ==> Heard(s.turns, v.turns)
    decreases n - i
  {
    CallHeard(s);
    hide Heard, HeardButLast, Enter;
    if i < n {
      var s1 := Exec(s, cmd, i).0;
      PodsHeard(s1, cmd, i + 1, n);
      if FateOf(s) != Refused { HeardTransitive(s.turns, s1.turns, RunOnPods(s1, cmd, i + 1, n).0.turns); }
    }
  }

  predicate CliHeard(s: Sys, d: Cli) {
    (d.flow != Error ==> Heard(s.turns, d.s.turns)) && (d.flow == Go || d.flow == Error)
  }

  lemma PluginsHeard(c: Cli)
    requires c.flow == Go
    ensures CliHeard(c.s, RunSetPlugins(c))
  {
    var s1 := RunOnPods(c.s, SetPlugins, 0, c.rmq.spec.replicas).0;
    CallHeard(c.s);
    CallHeard(s1);
    MapCallHeard(s1, PluginsMap);
    MapCallsEnter(s1, PluginsMap);
    PodsHeard(c.s, SetPlugins, 0, c.rmq.spec.replicas);
    if Heard(c.s.turns, s1.turns) { HeardTransitive(c.s.turns, s1.turns, Enter(s1).turns); }
    hide Heard, HeardButLast, Enter, RunOnPods, UpdateMap, Pending;
  }

  lemma FlagsHeard(c: Cli)
    requires c.flow == Go
    ensures CliHeard(c.s, RunEnableFeatureFlags(c))
  {
    var s1 := RunOnPods(c.s, EnableFeatureFlags, 0, 1).0;
    CallHeard(c.s);
    CallHeard(s1);
    StsCallHeard(s1);
    PodsHeard(c.s, EnableFeatureFlags, 0, 1);
    if Heard(c.s.turns, s1.turns) { HeardTransitive(c.s.turns, s1.turns, Enter(s1).turns); }
    hide Heard, HeardButLast, Enter, RunOnPods, UpdateSts, Pending;
  }

  lemma ClusterCallHeard(s: Sys)
    ensures forall obj :: UpdateCluster(s, obj).0.turns == Enter(s).turns
    ensures forall obj :: !UpdateCluster(s, obj).1.Failed? ==> FateOf(s) != Refused
  {
    hide Enter, Removal;
  }

  lemma QueuesHeard(c: Cli)
    requires c.flow == Go
    ensures CliHeard(c.s, RunQueueRebalance(c))
  {
    var s1 := RunOnPods(c.s, RebalanceQueues, 0, 1).0;
    CallHeard(c.s);
    CallHeard(s1);
    ClusterCallHeard(s1);
    PodsHeard(c.s, RebalanceQueues, 0, 1);
    if Heard(c.s.turns, s1.turns) { HeardTransitive(c.s.turns, s1.turns, Enter(s1).turns); }
    hide Heard, HeardButLast, Enter, RunOnPods, UpdateCluster, Pending;
  }

  lemma MarkedHeard(c: Cli)
    requires c.flow == Go
    ensures CliHeard(c.s, RunMarkedCommands(c))
  {
    hide Heard, RunSetPlugins, RunEnableFeatureFlags, RunQueueRebalance;
    var c1 := RunSetPlugins(c);
    PluginsHeard(c);
    if c1.flow == Go {
      var c2 := RunEnableFeatureFlags(c1);
      FlagsHeard(c1);
      HeardTransitive(c.s.turns, c1.s.turns, c2.s.turns);
      if c2.flow == Go {
        QueuesHeard(c2);
        HeardTransitive(c.s.turns, c2.s.turns, RunQueueRebalance(c2).s.turns);
      }
    }
  }

  lemma CommandsHeard(s: Sys, rmq: RabbitmqCluster)
    ensures var c := RunCommands(s, rmq);
            (c.flow != Error ==> Heard(s.turns, c.s.turns)) && (c.flow == Go || c.flow == Error || c.flow == Requeue)
  {
    var (s1, r) := ReadSts(s);
    var (s2, p) := ReadMap(s1, PluginsMap);
    StsCallHeard(s);
    MapCallHeard(s1, PluginsMap);
    CallHeard(s);
    TwoCalls(s);
    hide Heard, HeardButLast, Enter, ReadSts, ReadMap, RunMarkedCommands, UpdatedRecently, ReadyAndUpdated;
    if r.Ok? && p.Ok? {
      var c := Cli(Note(s2, Looked(Look(rmq, r.value, p.value))), rmq, r.value, p.value, Go);
      MarkedHeard(c);
      if Heard(s.turns, c.s.turns) { HeardTransitive(s.turns, c.s.turns, RunMarkedCommands(c).s.turns); }
    }
  }

  lemma FinishHeard(s: Sys, rmq: RabbitmqCluster)
    ensures var p := Finish(s, rmq); p.result != Stopped(Error) ==> HeardButLast(s.turns, p.s.turns)
  {
    var c := RunCommands(s, rmq);
    CommandsHeard(s, rmq);
    var seen := c.rmq.(status := c.rmq.status.(observedGeneration := c.rmq.generation));
    ConditionHeard(c.s, seen, ReconcileSuccess, ConditionTrue, "Success");
    if c.flow != Error {
      HeardIsButLast(s.turns, c.s.turns);
      HeardTransitive(s.turns, c.s.turns, SetReconcileSuccess(c.s, seen, ConditionTrue, "Success").s.turns);
    }
    hide Heard, HeardButLast, RunCommands, SetCondition;
  }

  lemma RestHeard(s: Sys, rmq: RabbitmqCluster, tries: nat)
    ensures var p := AfterChildren(s, rmq, tries); p.result != Stopped(Error) ==> HeardButLast(s.turns, p.s.turns)
  {
    hide Heard, HeardButLast, RestartIfNeeded, ReconcileStatus, Finish;
    var (s1, o) := RestartIfNeeded(s, tries);
    RestartIfNeededHeard(s, tries);
    if FlowOf(o) != Error { HeardIsButLast(s.turns, s1.turns); }
    if FlowOf(o) == Go {
      var q := ReconcileStatus(s1, rmq);
      StatusHeard(s1, rmq);
      if q.flow == Go {
        HeardTransitive(s.turns, s1.turns, q.s.turns);
        FinishHeard(q.s, q.rmq);
        HeardTransitive(s.turns, q.s.turns, Finish(q.s, q.rmq).s.turns);
      }
    }
  }

  // The pass once it has read the resource.
  lemma BegunHeard(s: Sys, rmq: RabbitmqCluster, tries: nat)
    requires Inv(s.w) && Holds(s.w, rmq)
    ensures var p := Begun(s, rmq, tries);
            p.result != Stopped(Error) && Undeleted(s.w.log, p.s.w.log) ==> HeardButLast(s.turns, p.s.turns)
  {
    hide Inv, Holds, Heard, HeardButLast, SetCondition, Preliminaries, RunBuilders, AfterChildren, Builders, Undeleted;
    if rmq.paused {
      ConditionHeard(s, rmq, NoWarnings, ConditionFalse, "reconciliation paused");
    } else {
      var p := Preliminaries(s, rmq);
      PreliminariesHeard(s, rmq);
      PreliminariesKeep(s, rmq);
      InvAfter(s, rmq, p.s, p.rmq);
      if p.flow == Go { BuildersAndRestHeard(s, rmq, p, tries); }
    }
  }

  lemma BuildersAndRestHeard(s: Sys, rmq: RabbitmqCluster, p: Step, tries: nat)
    requires Inv(s.w) && StepKeeps(s, rmq, p.s, p.rmq) && Inv(p.s.w) && Holds(p.s.w, p.rmq) && Heard(s.turns, p.s.turns)
    ensures var q := RunBuilders(p.s, p.rmq, Builders(p.rmq.spec), tries);
            var o := if q.flow != Go then Ended(q) else AfterChildren(q.s, q.rmq, tries);
            o.result != Stopped(Error) && Undeleted(s.w.log, o.s.w.log) ==> HeardButLast(s.turns, o.s.turns)
  {
    var bs := Builders(p.rmq.spec);
    var q := RunBuilders(p.s, p.rmq, bs, tries);
    var o := if q.flow != Go then Ended(q) else AfterChildren(q.s, q.rmq, tries);
    StepLog(s, rmq, p);
    BuildersHeard(p.s, p.rmq, bs, tries);
    RunBuildersBuild(p.s, p.rmq, bs, tries);
    assert StsBuilder in bs && Kept(p.s.w, q.s.w) && Holds(q.s.w, q.rmq) && p.s.w.log <= q.s.w.log;
    if q.flow == Go {
      assert Settled(q.s.w, q.rmq.spec, StsBuilder) && Inv(q.s.w);
      AfterChildrenKeeps(q.s, q.rmq, tries);
      LogKept(q.s.w, o.s.w);
    }
    hide *;
    if o.result != Stopped(Error) && Undeleted(s.w.log, o.s.w.log) {
      UndeletedParts(s.w.log, p.s.w.log, o.s.w.log);
      UndeletedParts(p.s.w.log, q.s.w.log, o.s.w.log);
      RestHeard(q.s, q.rmq, tries);
      LastHeard(s, p.s, q, o, tries);
    }
  }

  lemma LastHeard(s: Sys, t: Sys, q: Step, o: Pass, tries: nat)
    requires Heard(s.turns, t.turns) && Hears(t, q) && Undeleted(t.w.log, q.s.w.log) && o.result != Stopped(Error)
    requires o == if q.flow != Go then Ended(q) else AfterChildren(q.s, q.rmq, tries)
    requires q.flow == Go ==> HeardButLast(q.s.turns, o.s.turns)
    ensures HeardButLast(s.turns, o.s.turns)
  {
    HeardTransitive(s.turns, t.turns, q.s.turns);
    if q.flow == Go { HeardTransitive(s.turns, q.s.turns, o.s.turns); }
    hide Heard, HeardButLast, AfterChildren;
  }

  // Whatever happens at the calls: unless a pass ends in an error, every call
  // it made reached the server, but for the last, the write of the outcome; and
  // but for the polls for the end of a StatefulSet it deleted, whose failure
  // counts as "not yet".
  lemma NoRefusalPassedOver(s: Sys, tries: nat)
    requires Inv(s.w)
    ensures var p := Reconcile(s, tries);
            p.result != Stopped(Error) && Undeleted(s.w.log, p.s.w.log) ==>
              s.turns != [] && HeardButLast(s.turns, p.s.turns)
  {
    var (s1, r) := ReadCluster(s);
    EnterSteady(s);
    CallHeard(s);
    if r.Ok? {
      var s2 := Note(s1, PassBegan(r.value.spec));
      PassOpens(s1, r.value);
      BegunHeard(s2, r.value, tries);
      var p := Reconcile(s, tries);
      BegunKeeps(s2, r.value, tries);
      assert s2.w.log <= p.s.w.log;
      assert s.w.log == s1.w.log && |s.w.log| <= |s2.w.log|;
      hide *;
      if p.result != Stopped(Error) && Undeleted(s.w.log, p.s.w.log) {
        UndeletedParts(s.w.log, s2.w.log, p.s.w.log);
        HeardTransitive(s.turns, s1.turns, p.s.turns);
      }
    }
  }
}
