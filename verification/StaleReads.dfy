// The StatefulSet's step when its reads come from a cache: the manager's client
// shows objects of earlier stores. Scale alone reads from the server.
module StaleReads {
  import opened Text
  import opened Conditions
  import opened Spec
  import opened ApiServer
  import opened Invariants
  import opened Calls
  import opened Controllers
  import opened Passes
  import opened Children
  import opened Convergence
  import opened Runs
  import opened Settling
  import opened Applying
  import Expansion
  import Metadata
  import Scaling

  // What the cache shows of the StatefulSet: nothing, or one that was stored.
  predicate Cached(w: World, seen: Option<Sts>) {
    seen.Some? ==> HoldsSts(w, seen.value)
  }

  ghost predicate AllCached(w: World, copies: seq<Option<Sts>>) {
    forall k :: 0 <= k < |copies| ==> Cached(w, copies[k])
  }

  // CreateOrUpdate in its retry loop: each attempt takes the next copy.
  function ApplyCached(s: Sys, rmq: RabbitmqCluster, copies: seq<Option<Sts>>): Sys
    decreases |copies|
  {
    if copies == [] then s
    else if copies[0].None? then CreateSts(s, UpdatedSts(BuiltSts(rmq), rmq)).0
    else
      var sts := UpdatedSts(copies[0].value, rmq);
      if sts == copies[0].value then s
      else
        var (s1, u) := UpdateSts(s, sts, Apply);
        if u.Conflict? then ApplyCached(s1, rmq, copies[1..]) else s1
  }

  // The guard against scaling down, the expansion, and the update.
  function StsCached(s: Sys, rmq: RabbitmqCluster, seen: Option<Sts>, copies: seq<Option<Sts>>): Sys {
    if seen.Some? && seen.value.replicas > rmq.spec.replicas
    then SetReconcileSuccess(s, rmq, ConditionFalse, "UnsupportedOperation").s
    else
      var p := ReconcilePVC(s, rmq);
      if p.flow == Go then ApplyCached(p.s, rmq, copies) else p.s
  }

  // The StatefulSet has fewer replicas than before.
  predicate Lowered(w: World, v: World) {
    && w.sts.Some? && v.sts.Some? && v.sts.value.uid == w.sts.value.uid
    && v.sts.value.replicas < w.sts.value.replicas
  }

  // The write of the next copy gets through: its version is the stored one and
  // it has more replicas than are wanted. An older version leads to the next.
  predicate Lowers(s: Sys, rmq: RabbitmqCluster, copies: seq<Option<Sts>>)
    decreases |copies|
  {
    && copies != [] && copies[0].Some? && UpdatedSts(copies[0].value, rmq) != copies[0].value
    && FateOf(s) != Refused && Enter(s).w.sts.Some?
    && if Enter(s).w.sts.value.rv == copies[0].value.rv then copies[0].value.replicas > rmq.spec.replicas
       else Lowers(Enter(s), rmq, copies[1..])
  }

  // What the update relies on, whatever the guard saw.
  ghost predicate Ready(w: World, rmq: RabbitmqCluster) {
    Inv(w) && Proper(rmq) && Expanded(w, rmq.spec.replicas, DesiredCapacity(rmq.spec))
  }

  lemma EnterReady(s: Sys, rmq: RabbitmqCluster, copies: seq<Option<Sts>>)
    requires Ready(s.w, rmq) && AllCached(s.w, copies)
    ensures Ready(Enter(s).w, rmq) && AllCached(Enter(s).w, copies) && Steady(s.w, Enter(s).w)
  {
    EnterBriefly(s);
    ExpandedOn(s.w, Enter(s).w, rmq.spec.replicas, DesiredCapacity(rmq.spec));
    forall k | 0 <= k < |copies| ensures Cached(Enter(s).w, copies[k]) {
      assert Cached(s.w, copies[k]);
      if copies[k].Some? { HoldsStsOn(s.w, Enter(s).w, copies[k].value); }
    }
    hide Inv, Steady, LeftAlone, Grows, Expanded;
  }

  // What holds in any case: the log stays good, nothing in it is lost, and no
  // claim shrinks.
  ghost predicate Held(w: World, v: World) {
    Inv(v) && w.log <= v.log && ClaimsGrow(w.claims, v.claims)
  }

  lemma HeldTransitive(w: World, v: World, u: World)
    requires Held(w, v) && Held(v, u)
    ensures Held(w, u)
  {
    hide Inv;
  }

  lemma KeptIsHeld(w: World, v: World)
    requires Kept(w, v)
    ensures Held(w, v)
  {
    hide Inv;
  }

  lemma ReplicasAreLowered(w: World, obj: Sts)
    requires Inv(w) && w.sts.Some? && SameMarks(w.sts.value, obj) && obj.uid == w.sts.value.uid
    ensures Held(w, w.(sts := Some(obj.(rv := w.nextId)), nextId := w.nextId + 1))
  {
  }

  // A write over more replicas than are wanted, when it gets through.
  lemma LoweringWrite(s: Sys, rmq: RabbitmqCluster, cur: Sts)
    requires Ready(s.w, rmq) && HoldsSts(s.w, cur) && cur.replicas > rmq.spec.replicas
    ensures var v := UpdateSts(s, UpdatedSts(cur, rmq), Apply).0.w; Held(s.w, v)
  {
    var obj, w := UpdatedSts(cur, rmq), Enter(s).w;
    UpdatedStsFits(cur, rmq);
    var v := UpdateSts(s, obj, Apply).0.w;
    assert obj.rv == cur.rv && obj.uid == cur.uid;
    UpdateStsCases(s, cur, obj, Apply);
    KeptOfSteady(s.w, w);
    hide Inv, Kept, Steady, LeftAlone, UpdateSts, Enter, UpdatedSts, Expanded, Held;
    KeptIsHeld(s.w, w);
    if v != w {
      assert StsEvents(w, cur, obj, Apply) == [] && w.log + [] == w.log;
      ReplicasAreLowered(w, obj);
      HeldTransitive(s.w, w, v);
    }
  }

  lemma KeptOfSteady(w: World, v: World)
    requires Steady(w, v)
    ensures Kept(w, v)
  {
  }

  // One write: the store grows, or the replicas are lowered.
  lemma WriteCached(s: Sys, rmq: RabbitmqCluster, cur: Sts)
    requires Ready(s.w, rmq) && HoldsSts(s.w, cur)
    ensures var (v, u) := UpdateSts(s, UpdatedSts(cur, rmq), Apply); var w := Enter(s).w;
            && (u.Conflict? ==> v == Enter(s))
            && (u.Conflict? <==> FateOf(s) != Refused && w.sts.Some? && w.sts.value.rv != cur.rv)
            && if FateOf(s) != Refused && w.sts.Some? && w.sts.value.rv == cur.rv && cur.replicas > rmq.spec.replicas
               then Lowered(s.w, v.w) && Held(s.w, v.w) else Kept(s.w, v.w)
  {
    var obj := UpdatedSts(cur, rmq);
    EnterBriefly(s);
    if cur.replicas <= rmq.spec.replicas {
      UpdatedStsFits(cur, rmq);
      UpdateStsKeeps(s, cur, obj, Apply);
    } else {
      UpdateStsCases(s, cur, obj, Apply);
      LoweringWrite(s, rmq, cur);
    }
    hide Inv, Kept, StsEvents, Grows, Expanded, Metadata.Merged, Held;
  }

  lemma CreateCached(s: Sys, rmq: RabbitmqCluster)
    requires Ready(s.w, rmq)
    ensures Kept(s.w, CreateSts(s, UpdatedSts(BuiltSts(rmq), rmq)).0.w)
  {
    BuiltStsIsExpanded(rmq);
    CreateStsKeeps(s, UpdatedSts(BuiltSts(rmq), rmq));
  }

  lemma LoweredLater(w: World, v: World, u: World)
    requires Steady(w, v) && Lowered(v, u)
    ensures Lowered(w, u)
  {
  }

  lemma {:induction false} ApplyCachedLowers(s: Sys, rmq: RabbitmqCluster, copies: seq<Option<Sts>>)
    requires Ready(s.w, rmq) && AllCached(s.w, copies)
    ensures var v := ApplyCached(s, rmq, copies);
            if Lowers(s, rmq, copies) then Lowered(s.w, v.w) && Held(s.w, v.w) else Kept(s.w, v.w)
    decreases |copies|
  {
    hide Ready, AllCached, Lowered, Kept, Held, Steady, UpdatedSts, BuiltSts, UpdateSts, CreateSts, Enter;
    ReadyStays(s.w, rmq);
    if copies == [] {
    } else if copies[0].None? {
      CreateCached(s, rmq);
    } else {
      FirstCached(s, copies);
      WriteCached(s, rmq, copies[0].value);
      EnterReady(s, rmq, copies);
      LaterCached(Enter(s).w, copies);
      ApplyCachedLowers(Enter(s), rmq, copies[1..]);
      var v := ApplyCached(Enter(s), rmq, copies[1..]);
      if Lowers(Enter(s), rmq, copies[1..]) {
        LoweredLater(s.w, Enter(s).w, v.w);
        KeptOfSteady(s.w, Enter(s).w);
        KeptIsHeld(s.w, Enter(s).w);
        HeldTransitive(s.w, Enter(s).w, v.w);
      } else {
        SteadyThenKept(s.w, Enter(s).w, v.w);
      }
    }
  }

  lemma ReadyStays(w: World, rmq: RabbitmqCluster)
    requires Ready(w, rmq)
    ensures Inv(w) && Kept(w, w)
  {
  }

  lemma SteadyThenKept(w: World, v: World, u: World)
    requires Inv(w) && Steady(w, v) && Kept(v, u)
    ensures Kept(w, u)
  {
    KeptTransitive(w, v, u);
  }

  lemma FirstCached(s: Sys, copies: seq<Option<Sts>>)
    requires AllCached(s.w, copies) && copies != [] && copies[0].Some?
    ensures HoldsSts(s.w, copies[0].value)
  {
  }

  lemma LaterCached(w: World, copies: seq<Option<Sts>>)
    requires AllCached(w, copies) && copies != []
    ensures AllCached(w, copies[1..])
  {
    forall k | 0 <= k < |copies[1..]| ensures Cached(w, copies[1..][k]) {
      assert Cached(w, copies[k + 1]);
    }
  }

  /* ---- the step ---- */

  // The guard saw no more replicas than are wanted, and the update gets
  // through with a copy that has more.
  predicate SlipsThrough(s: Sys, rmq: RabbitmqCluster, seen: Option<Sts>, copies: seq<Option<Sts>>) {
    && (seen.Some? ==> seen.value.replicas <= rmq.spec.replicas)
    && ReconcilePVC(s, rmq).flow == Go && Lowers(ReconcilePVC(s, rmq).s, rmq, copies)
  }

  lemma ReconcilePVCReadies(s: Sys, rmq: RabbitmqCluster)
    requires Inv(s.w) && Holds(s.w, rmq)
    ensures var p := ReconcilePVC(s, rmq); Steady(s.w, p.s.w) && (p.flow == Go ==> Ready(p.s.w, rmq))
  {
    var desired := DesiredCapacity(rmq.spec);
    Expansion.ScaleKeeps(s, rmq, desired);
    var (s1, scaled) := Scaling.Scale(s, rmq, desired);
    HoldsOn(s.w, s1.w, rmq);
    assert Inv(s1.w);
    hide Inv, Holds, Steady, Scaling.Scale, DesiredCapacity, Expanded, SetCondition;
    if scaled != Scaling.Done {
      SetConditionKeeps(s1, rmq, ReconcileSuccess, ConditionFalse, "FailedReconcilePVC");
      var failed := SetReconcileSuccess(s1, rmq, ConditionFalse, "FailedReconcilePVC");
      SteadyOfStep(s1, rmq, failed.s, failed.rmq);
      SteadyTransitive(s.w, s1.w, failed.s.w);
    }
    ProperHeld(s.w, rmq);
  }

  lemma SteadyOfStep(s: Sys, rmq: RabbitmqCluster, t: Sys, held: RabbitmqCluster)
    requires StepKeeps(s, rmq, t, held)
    ensures Steady(s.w, t.w)
  {
  }

  lemma ProperHeld(w: World, rmq: RabbitmqCluster)
    requires Holds(w, rmq)
    ensures Proper(rmq)
  {
  }

  lemma CachedOn(w: World, v: World, copies: seq<Option<Sts>>)
    requires AllCached(w, copies) && Steady(w, v)
    ensures AllCached(v, copies)
  {
    forall k | 0 <= k < |copies| ensures Cached(v, copies[k]) {
      assert Cached(w, copies[k]);
    }
  }

  // With reads as old as may be the step lowers the replicas exactly when it
  // slips through the guard; otherwise the store only grows, as it does with
  // fresh reads. In any case the log stays good and no claim shrinks.
  lemma LoweredExactly(s: Sys, rmq: RabbitmqCluster, seen: Option<Sts>, copies: seq<Option<Sts>>)
    requires Inv(s.w) && Holds(s.w, rmq) && AllCached(s.w, copies)
    ensures var v := StsCached(s, rmq, seen, copies);
            && (Lowered(s.w, v.w) <==> SlipsThrough(s, rmq, seen, copies))
            && (Kept(s.w, v.w) <==> !SlipsThrough(s, rmq, seen, copies)) && Held(s.w, v.w)
  {
    hide Inv, Holds, Held, AllCached, Lowered, Kept, Steady, Ready, SetCondition, ReconcilePVC, ApplyCached, Lowers;
    var v := StsCached(s, rmq, seen, copies);
    LoweredIsNotKept(s.w, v.w);
    if seen.Some? && seen.value.replicas > rmq.spec.replicas {
      SetConditionKeeps(s, rmq, ReconcileSuccess, ConditionFalse, "UnsupportedOperation");
      SteadyOfStep(s, rmq, v, SetReconcileSuccess(s, rmq, ConditionFalse, "UnsupportedOperation").rmq);
      KeptOfSteady(s.w, v.w);
      KeptIsHeld(s.w, v.w);
    } else {
      var p := ReconcilePVC(s, rmq);
      ReconcilePVCReadies(s, rmq);
      KeptOfSteady(s.w, p.s.w);
      KeptIsHeld(s.w, p.s.w);
      if p.flow == Go {
        CachedOn(s.w, p.s.w, copies);
        ApplyCachedLowers(p.s, rmq, copies);
        if Lowers(p.s, rmq, copies) {
          LoweredLater(s.w, p.s.w, v.w);
          HeldTransitive(s.w, p.s.w, v.w);
        } else {
          KeptTransitive(s.w, p.s.w, v.w);
          KeptIsHeld(s.w, v.w);
        }
      }
    }
  }

  lemma LoweredIsNotKept(w: World, v: World)
    requires Inv(w)
    ensures !(Lowered(w, v) && Kept(w, v))
  {
  }

  lemma {:induction false} OneVersionLowersNothing(s: Sys, rmq: RabbitmqCluster, seen: Sts, copies: seq<Option<Sts>>)
    requires Inv(s.w) && HoldsSts(s.w, seen) && AllCached(s.w, copies) && seen.replicas <= rmq.spec.replicas
    requires forall k :: 0 <= k < |copies| && copies[k].Some? ==> copies[k].value.rv == seen.rv
    ensures !Lowers(s, rmq, copies)
    decreases |copies|
  {
    if copies != [] && copies[0].Some? {
      EnterBriefly(s);
      var w := Enter(s).w;
      HoldsStsOn(s.w, w, seen);
      FirstCached(s, copies);
      HoldsStsOn(s.w, w, copies[0].value);
      LaterCached(s.w, copies);
      CachedOn(s.w, w, copies[1..]);
      assert forall k :: 0 <= k < |copies[1..]| ==> copies[1..][k] == copies[k + 1];
      hide Inv, Steady, LeftAlone, Grows, AllCached, Enter, UpdatedSts;
      OneVersionLowersNothing(Enter(s), rmq, seen, copies[1..]);
    }
  }

  // It cannot slip through while the cache shows the version the guard saw.
  lemma OneVersionKeeps(s: Sys, rmq: RabbitmqCluster, seen: Sts, copies: seq<Option<Sts>>)
    requires Inv(s.w) && Holds(s.w, rmq) && HoldsSts(s.w, seen) && AllCached(s.w, copies)
    requires forall k :: 0 <= k < |copies| && copies[k].Some? ==> copies[k].value.rv == seen.rv
    ensures Kept(s.w, StsCached(s, rmq, Some(seen), copies).w)
  {
    LoweredExactly(s, rmq, Some(seen), copies);
    var p := ReconcilePVC(s, rmq);
    ReconcilePVCReadies(s, rmq);
    if seen.replicas <= rmq.spec.replicas && p.flow == Go {
      CachedOn(s.w, p.s.w, copies);
      CachedOn(s.w, p.s.w, [Some(seen)]);
      FirstCached(p.s, [Some(seen)]);
      assert Inv(p.s.w);
      hide Inv, AllCached, Lowers, ReconcilePVC, HoldsSts;
      OneVersionLowersNothing(p.s, rmq, seen, copies);
    }
    hide Inv, Holds, AllCached, Lowers, ReconcilePVC, StsCached;
  }

  // It does slip through when the guard is shown an older StatefulSet that was
  // not larger than is wanted by now, and the update the one that is stored.
  lemma StaleGuardLowers(w: World, rmq: RabbitmqCluster, seen: Sts, turns: seq<Turn>)
    requires Inv(w) && rmq == w.cluster && w.sts.Some? && ClaimsLarge(w, rmq.spec)
    requires Scaling.Guard(Ok(w.sts.value), DesiredCapacity(rmq.spec)) == Scaling.Done
    requires seen.replicas <= rmq.spec.replicas < w.sts.value.replicas
    requires Quiet(Sys(w, turns), 3 + Count(rmq.spec.replicas))
    ensures var v := StsCached(Sys(w, turns), rmq, Some(seen), [w.sts]).w;
            && Lowered(w, v) && v.sts.value.replicas == rmq.spec.replicas
            && Kept(w, StsCached(Sys(w, turns), rmq, w.sts, [w.sts]).w)
  {
    var s, desired := Sys(w, turns), DesiredCapacity(rmq.spec);
    assert Holds(w, rmq) && AllCached(w, [w.sts]);
    ListingGoes(s, 3 + Count(rmq.spec.replicas), rmq);
    QuietCall(s, 3 + Count(rmq.spec.replicas));
    var (t, cs) := Scaling.GetClusterClaims(Enter(s), rmq.name, 0, rmq.spec.replicas);
    ScaleAfterListing(s, rmq, desired, t, cs.value);
    if Scaling.ClaimsNeedingScaling(cs.value, desired) != [] {
      Expansion.SmallOnesAreBelow(rmq, w, cs.value, desired);
      assert false;
    }
    var p := ReconcilePVC(s, rmq);
    assert p.flow == Go && p.s.w == w.(log := p.s.w.log) && Quiet(p.s, 1);
    QuietCall(p.s, 1);
    assert UpdatedSts(w.sts.value, rmq).replicas == rmq.spec.replicas;
    assert Lowers(p.s, rmq, [w.sts]);
    LoweredExactly(s, rmq, Some(seen), [w.sts]);
    LoweredExactly(s, rmq, w.sts, [w.sts]);
    hide Inv, Holds, AllCached, Kept, ReconcilePVC, Lowers, ClaimsLarge, Scaling.Guard;
  }

  /* ---- runs ---- */

  // A run in which the StatefulSet's step may also be taken with the cache's
  // reads, at any time and with any copy of the resource a pass may hold.
  datatype CachedAction =
    | Plain(action: Action)
    | StsStep(turns: seq<Turn>, rmq: RabbitmqCluster, seen: Option<Sts>, copies: seq<Option<Sts>>)

  function NextCached(w: World, a: CachedAction): World {
    match a
    case Plain(action) => Next(w, action)
    case StsStep(turns, rmq, seen, copies) => StsCached(Sys(w, turns), rmq, seen, copies).w
  }

  function RunCached(w: World, run: seq<CachedAction>): World
    decreases |run|
  {
    if run == [] then w else RunCached(NextCached(w, run[0]), run[1..])
  }

  // The copies are of objects that were stored.
  ghost predicate Shown(w: World, a: CachedAction) {
    a.StsStep? ==> Holds(w, a.rmq) && AllCached(w, a.copies)
  }

  ghost predicate AllShown(w: World, run: seq<CachedAction>)
    decreases |run|
  {
    run != [] ==> Shown(w, run[0]) && AllShown(NextCached(w, run[0]), run[1..])
  }

  predicate NoneSlips(w: World, run: seq<CachedAction>)
    decreases |run|
  {
    run != [] ==>
      && (run[0].StsStep? ==> !SlipsThrough(Sys(w, run[0].turns), run[0].rmq, run[0].seen, run[0].copies))
      && NoneSlips(NextCached(w, run[0]), run[1..])
  }

  lemma NextCachedKeeps(w: World, a: CachedAction)
    requires Inv(w) && Shown(w, a)
    ensures var v := NextCached(w, a);
            && Held(w, v)
            && (a.StsStep? ==> SlipsThrough(Sys(w, a.turns), a.rmq, a.seen, a.copies) || Kept(w, v))
            && (a.Plain? ==> Kept(w, v))
  {
    match a
    case Plain(action) =>
      NextKeeps(w, action);
      KeptIsHeld(w, NextCached(w, a));
    case StsStep(turns, rmq, seen, copies) =>
      LoweredExactly(Sys(w, turns), rmq, seen, copies);
  }

  // What survives stale reads of the StatefulSet over any run: the invariant,
  // and with it what the log tells of commands, restarts and expansions, and
  // that no claim shrinks; and all growth, of replicas too, as long as no step
  // slips through.
  lemma {:induction false} CachedRunKeeps(w: World, run: seq<CachedAction>)
    requires Inv(w) && AllShown(w, run)
    ensures Held(w, RunCached(w, run)) && (NoneSlips(w, run) ==> Kept(w, RunCached(w, run)))
    decreases |run|
  {
    if run == [] {
      GrowsReflexive(w);
    } else {
      var v := NextCached(w, run[0]);
      NextCachedKeeps(w, run[0]);
      InvOfHeld(w, v);
      hide Inv, Held, Kept, NextCached, SlipsThrough, Shown;
      CachedRunKeeps(v, run[1..]);
      HeldTransitive(w, v, RunCached(w, run));
      if NoneSlips(w, run) { KeptTransitive(w, v, RunCached(w, run)); }
    }
  }

  lemma InvOfHeld(w: World, v: World)
    requires Held(w, v)
    ensures Inv(v)
  {
  }
}
