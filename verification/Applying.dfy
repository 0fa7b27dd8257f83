// The first pass over a new or edited resource, with every call answered: it
// applies the resource to all children.
module Applying {
  import opened Text
  import opened Rfc3339
  import opened Conditions
  import opened Spec
  import opened ApiServer
  import opened Invariants
  import opened Calls
  import opened Controllers
  import opened Passes
  import opened Children
  import opened Convergence
  import opened Runs
  import opened Settling
  import opened Recovery
  import Expansion
  import Metadata
  import Scaling

  // Nothing stands in the way: the resource is in order, and the StatefulSet,
  // if there is one, has neither to shrink nor to get volumes for the first
  // time.
  predicate Startable(w: World) {
    InOrder(w) && Growable(w, w.cluster.spec)
  }

  // The garbage collector comes by while a StatefulSet's end is waited for.
  predicate Collected(turns: seq<Turn>) {
    forall k :: 0 <= k < |turns| ==> CollectedFrom(turns, k)
  }

  predicate CollectedFrom(turns: seq<Turn>, k: nat) {
    k + Scaling.RETRIES <= |turns| ==> ReapedIn(turns[k..k + Scaling.RETRIES])
  }

  // No claim has to grow, or the StatefulSet will be gone in time for it.
  predicate Expandable(w: World, turns: seq<Turn>) {
    ClaimsLarge(w, w.cluster.spec) || (!Terminating(w) && Collected(turns))
  }

  // The marker of a change of the plugins, if there is one, is a time past.
  predicate Datable(a: Annotations, now: Time) {
    PLUGINS_UPDATED_AT in a ==> a[PLUGINS_UPDATED_AT].Stamp? && Seconds(a[PLUGINS_UPDATED_AT].t) <= Seconds(now)
  }

  predicate Dated(w: World) {
    && Datable(w.cluster.annotations, w.now)
    && (w.plugins.Some? ==> Datable(w.plugins.value.annotations, w.now))
  }

  // Only the ConfigMaps, the generated children and the log differ.
  predicate StsSide(w: World, v: World) {
    && v == w.(plugins := v.plugins, server := v.server, others := v.others, nextId := v.nextId, log := v.log)
    && (Dated(w) ==> Dated(v))
  }

  lemma StsSideTransitive(w: World, v: World, u: World)
    requires StsSide(w, v) && StsSide(v, u)
    ensures StsSide(w, u)
  {
  }

  lemma OtherGoes(s: Sys, n: int, kind: Kind, spec: ClusterSpec)
    requires Quiet(s, n) && n > 2
    ensures var (v, r) := ApplyOther(s, kind, spec); r.Ok? && StsSide(s.w, v.w) && Quiet(v, n - 2)
  {
    QuietCall(s, n);
    QuietCall(Enter(s), n - 1);
  }

  // A new ConfigMap takes over the annotations of the resource.
  lemma InheritedIsDatable(rmq: RabbitmqCluster, now: Time)
    requires Datable(rmq.annotations, now)
    ensures Datable(Metadata.Merged(Metadata.IsNotKubernetesAnnotation, map[], [rmq.annotations]), now)
  {
    MergedOne(Metadata.IsNotKubernetesAnnotation, map[], rmq.annotations);
  }

  lemma MapCreationGoes(s: Sys, n: int, which: Which, rmq: RabbitmqCluster, tries: nat)
    requires Quiet(s, n) && n > 2 && tries > 0 && rmq.annotations == s.w.cluster.annotations && MapOf(s.w, which).None?
    ensures var (v, r) := ApplyMap(s, which, rmq, tries);
            r.Ok? && StsSide(s.w, v.w) && Quiet(v, n - 2) && MapOf(v.w, which).Some?
  {
    QuietCall(s, n);
    QuietCall(Enter(s), n - 1);
    if Dated(s.w) { InheritedIsDatable(rmq, s.w.now); }
    hide UpdatedData, BuiltData, Metadata.Merged, MapEvents, Datable, UpdateMap;
  }

  lemma MapUpdateGoes(s: Sys, n: int, which: Which, rmq: RabbitmqCluster, tries: nat)
    requires Quiet(s, n) && n > 2 && tries > 0 && MapOf(s.w, which).Some?
    ensures var (v, r) := ApplyMap(s, which, rmq, tries);
            r.Ok? && StsSide(s.w, v.w) && Quiet(v, n - 2) && MapOf(v.w, which).Some?
  {
    QuietCall(s, n);
    QuietCall(Enter(s), n - 1);
    hide UpdatedData, BuiltData, Metadata.Merged, MapEvents, Datable, CreateMap;
  }

  lemma MapGoes(s: Sys, n: int, which: Which, rmq: RabbitmqCluster, tries: nat)
    requires Quiet(s, n) && n > 2 && tries > 0 && rmq.annotations == s.w.cluster.annotations
    ensures var (v, r) := ApplyMap(s, which, rmq, tries);
            r.Ok? && StsSide(s.w, v.w) && Quiet(v, n - 2) && MapOf(v.w, which).Some?
  {
    hide ApplyMap, Quiet, StsSide;
    if MapOf(s.w, which).None? {
      MapCreationGoes(s, n, which, rmq, tries);
    } else {
      MapUpdateGoes(s, n, which, rmq, tries);
    }
  }

  lemma MarkGoes(s: Sys, n: int, which: Which, tries: nat)
    requires Quiet(s, n) && n > 2 && tries > 0 && MapOf(s.w, which).Some?
    ensures var (v, ok) := AnnotateMap(s, which, s.w.now, tries); ok && StsSide(s.w, v.w) && Quiet(v, n - 2)
  {
    QuietCall(s, n);
    QuietCall(Enter(s), n - 1);
    hide MapEvents;
  }

  lemma ChildGoes(s: Sys, n: int, rmq: RabbitmqCluster, b: Builder, tries: nat)
    requires Quiet(s, n) && n > 5 && tries > 0 && !b.StsBuilder? && rmq.annotations == s.w.cluster.annotations
    ensures var p := RunBuilder(s, rmq, b, tries);
            p.flow == Go && p.rmq == rmq && StsSide(s.w, p.s.w) && Quiet(p.s, n - 4)
  {
    hide Quiet, ApplyOther, ApplyMap, AnnotateMap, Dated;
    QuietLess(s, n);
    match b
    case OtherBuilder(kind) =>
      OtherGoes(s, n, kind, rmq.spec);
      QuietLess(ApplyOther(s, kind, rmq.spec).0, n - 2);
    case MapBuilder(which) =>
      MapGoes(s, n, which, rmq, tries);
      var (s1, r) := ApplyMap(s, which, rmq, tries);
      QuietLess(s1, n - 2);
      if r == Ok(Updated) { MarkGoes(s1, n - 2, which, tries); }
  }

  lemma QuietLess(s: Sys, n: int)
    requires Quiet(s, n)
    ensures forall m :: m <= n ==> Quiet(s, m)
  {
  }

  /* ---- the turns that are left ---- */

  // Steps take turns from the front.
  predicate Left(turns: seq<Turn>, rest: seq<Turn>) {
    |rest| <= |turns| && rest == turns[|turns| - |rest|..]
  }

  lemma LeftTransitive(a: seq<Turn>, b: seq<Turn>, c: seq<Turn>)
    requires Left(a, b) && Left(b, c)
    ensures Left(a, c)
  {
  }

  lemma CallsLeave(s: Sys)
    ensures var a, b := Enter(s), Enter(Enter(s));
            Left(s.turns, s.turns) && Left(s.turns, a.turns) && Left(s.turns, b.turns) && Left(s.turns, Enter(b).turns)
  {
    LeftTransitive(s.turns, Enter(s).turns, Enter(Enter(s)).turns);
    LeftTransitive(s.turns, Enter(Enter(s)).turns, Enter(Enter(Enter(s))).turns);
  }

  lemma MapCallsEnter(s: Sys, which: Which)
    ensures ReadMap(s, which).0 == Enter(s)
    ensures forall data, a :: CreateMap(s, which, data, a).0.turns == Enter(s).turns
    ensures forall m, why :: UpdateMap(s, which, m, why).0.turns == Enter(s).turns
  {
    hide Enter, MapEvents;
  }

  lemma {:induction false} ApplyMapLeaves(s: Sys, which: Which, rmq: RabbitmqCluster, tries: nat)
    ensures Left(s.turns, ApplyMap(s, which, rmq, tries).0.turns)
    decreases tries
  {
    hide Left, Enter, ReadMap, CreateMap, UpdateMap, UpdatedData, BuiltData, Metadata.Merged;
    CallsLeave(s);
    if tries > 0 {
      var (s1, r) := ReadMap(s, which);
      MapCallsEnter(s, which);
      MapCallsEnter(s1, which);
      if r.Ok? {
        var s2 := UpdateMap(s1, which, r.value.(data := UpdatedData(which, r.value.data, rmq.spec)), Apply).0;
        ApplyMapLeaves(s2, which, rmq, tries - 1);
        LeftTransitive(s.turns, s2.turns, ApplyMap(s2, which, rmq, tries - 1).0.turns);
      }
    }
  }

  lemma {:induction false} AnnotateMapLeaves(s: Sys, which: Which, t: Time, tries: nat)
    ensures Left(s.turns, AnnotateMap(s, which, t, tries).0.turns)
    decreases tries
  {
    hide Left, Enter, ReadMap, UpdateMap;
    CallsLeave(s);
    if tries > 0 {
      var (s1, r) := ReadMap(s, which);
      MapCallsEnter(s, which);
      MapCallsEnter(s1, which);
      AnnotateMapLeaves(s1, which, t, tries - 1);
      LeftTransitive(s.turns, s1.turns, AnnotateMap(s1, which, t, tries - 1).0.turns);
      if r.Ok? {
        var m := r.value.(annotations := r.value.annotations[MarkerKey(which) := Stamp(t)]);
        var s2 := UpdateMap(s1, which, m, Mark).0;
        AnnotateMapLeaves(s2, which, t, tries - 1);
        LeftTransitive(s.turns, s2.turns, AnnotateMap(s2, which, t, tries - 1).0.turns);
      }
    }
  }

  lemma SetConditionLeaves(s: Sys, rmq: RabbitmqCluster, kind: ConditionType, status: ConditionStatus, reason: string)
    ensures SetCondition(s, rmq, kind, status, reason).s.turns == Enter(s).turns
  {
    hide AfterSetCondition, ActedAll;
  }

  lemma ApplyOtherLeaves(s: Sys, kind: Kind, spec: ClusterSpec)
    ensures Left(s.turns, ApplyOther(s, kind, spec).0.turns)
  {
    CallsLeave(s);
    hide Left, ActedAll;
  }

  // What follows the application of a child.
  lemma AfterwardsLeaves(s: Sys, rmq: RabbitmqCluster, b: Builder, op: Operation, tries: nat)
    requires !b.StsBuilder?
    ensures Left(s.turns, AnnotateIfNeeded(s, b, op, tries).0.turns)
    ensures Left(s.turns, SetCondition(s, rmq, ReconcileSuccess, ConditionFalse, "Error").s.turns)
  {
    CallsLeave(s);
    SetConditionLeaves(s, rmq, ReconcileSuccess, ConditionFalse, "Error");
    if b.MapBuilder? { AnnotateMapLeaves(s, b.which, s.w.now, tries); }
    hide Left, AnnotateMap, SetCondition, Enter;
  }

  lemma ApplyLeaves(s: Sys, rmq: RabbitmqCluster, b: Builder, tries: nat)
    requires !b.StsBuilder?
    ensures Left(s.turns, RunBuilder(s, rmq, b, tries).s.turns)
  {
    hide Left, ApplyOther, ApplyMap, AnnotateIfNeeded, SetCondition;
    var (s1, r) := CreateOrUpdate(s, rmq, b, tries);
    match b {
      case OtherBuilder(kind) => ApplyOtherLeaves(s, kind, rmq.spec);
      case MapBuilder(which) => ApplyMapLeaves(s, which, rmq, tries);
    }
    AfterwardsLeaves(s1, rmq, b, if r.Ok? then r.value else Unchanged, tries);
    LeftTransitive(s.turns, s1.turns, RunBuilder(s, rmq, b, tries).s.turns);
  }

  lemma {:induction false} ChildrenLeave(s: Sys, rmq: RabbitmqCluster, bs: seq<Builder>, tries: nat)
    requires forall b :: b in bs ==> !b.StsBuilder?
    ensures Left(s.turns, RunBuilders(s, rmq, bs, tries).s.turns)
    decreases |bs|
  {
    if bs != [] {
      var p := RunBuilder(s, rmq, bs[0], tries);
      ApplyLeaves(s, rmq, bs[0], tries);
      hide RunBuilder;
      if p.flow == Go {
        ChildrenLeave(p.s, p.rmq, bs[1..], tries);
        LeftTransitive(s.turns, p.s.turns, RunBuilders(p.s, p.rmq, bs[1..], tries).s.turns);
      }
    }
  }

  lemma TLSLeaves(s: Sys, rmq: RabbitmqCluster)
    ensures Left(s.turns, ReconcileTLS(s, rmq).s.turns)
  {
    CallsLeave(s);
    SetConditionLeaves(s, rmq, ReconcileSuccess, ConditionFalse, "TLSError");
    var s1 := CheckTLSSecrets(s, rmq.spec).0;
    assert s1 == Enter(s) || s1 == Enter(Enter(s)) by { hide Enter; }
    SetConditionLeaves(s1, rmq, ReconcileSuccess, ConditionFalse, "TLSError");
    hide Left, CheckTLSSecrets, SetCondition, ClusterSpec.TLSEnabled, ClusterSpec.SecretTLSEnabled, Enter;
  }

  lemma FinalizerLeaves(s: Sys, rmq: RabbitmqCluster)
    ensures Left(s.turns, AddFinalizerIfNeeded(s, rmq).s.turns)
  {
    CallsLeave(s);
    hide Left, ActedAll;
  }

  lemma ConditionsLeave(s: Sys, rmq: RabbitmqCluster)
    ensures Left(s.turns, UpdateStatusConditions(s, rmq).s.turns)
  {
    CallsLeave(s);
    hide Left, ActedAll, AfterSetConditions;
  }

  lemma RebalanceLeaves(s: Sys, rmq: RabbitmqCluster)
    ensures var rest := MarkForQueueRebalance(s, rmq).s.turns;
            rest == Enter(s).turns || rest == Enter(Enter(s)).turns
  {
    hide Enter, NeedsQueueRebalance, Pending;
  }

  lemma PreliminariesLeave(s: Sys, rmq: RabbitmqCluster)
    ensures Left(s.turns, Preliminaries(s, rmq).s.turns)
  {
    hide AddFinalizerIfNeeded, UpdateStatusConditions, ReconcileTLS, MarkForQueueRebalance, Left;
    var p1 := AddFinalizerIfNeeded(s, rmq);
    FinalizerLeaves(s, rmq);
    var p2 := UpdateStatusConditions(p1.s, p1.rmq);
    ConditionsLeave(p1.s, p1.rmq);
    var p3 := ReconcileTLS(p2.s, p2.rmq);
    TLSLeaves(p2.s, p2.rmq);
    var p4 := MarkForQueueRebalance(p3.s, p3.rmq);
    RebalanceLeaves(p3.s, p3.rmq);
    CallsLeave(p3.s);
    LeftTransitive(s.turns, p1.s.turns, p2.s.turns);
    LeftTransitive(s.turns, p2.s.turns, p3.s.turns);
    LeftTransitive(s.turns, p3.s.turns, p4.s.turns);
  }

  // What makes room for the claims later on.
  lemma ExpandableLater(w: World, turns: seq<Turn>, v: World, rest: seq<Turn>)
    requires Expandable(w, turns) && Left(turns, rest)
    requires v.sts == w.sts && v.claims == w.claims && v.cluster.spec == w.cluster.spec
    requires v.cluster.name == w.cluster.name
    ensures Expandable(v, rest)
  {
    hide PVCName, DesiredCapacity;
    if Collected(turns) {
      var d := |turns| - |rest|;
      forall k | 0 <= k < |rest| ensures CollectedFrom(rest, k) {
        assert CollectedFrom(turns, d + k);
        assert k + Scaling.RETRIES <= |rest| ==>
          rest[k..k + Scaling.RETRIES] == turns[d + k..d + k + Scaling.RETRIES];
      }
    }
  }

  /* ---- the claims ---- */

  // Only the StatefulSet, which may have gone, the claims and the log differ.
  predicate ScaleSide(w: World, v: World) {
    && v == w.(sts := v.sts, claims := v.claims, nextId := v.nextId, log := v.log)
    && (v.sts == w.sts || v.sts.None?) && v.claims.Keys == w.claims.Keys
  }

  lemma {:induction false} PollGoes(s: Sys, retries: nat)
    requires Tidy(s.turns) && |s.turns| >= retries && Terminating(s.w) && ReapedIn(s.turns[..retries])
    ensures var (v, gone) := Scaling.PollGone(s, retries);
            gone && v.w == s.w.(sts := None) && Tidy(v.turns) && |v.turns| >= |s.turns| - retries
    decreases retries
  {
    var first, rest := s.turns[0], s.turns[1..];
    assert s.turns[..retries] == [first] + rest[..retries - 1];
    ReapedLater(first, rest[..retries - 1]);
    assert [Reap][1..] == [];
    if first.env == [] { PollGoes(Enter(s), retries - 1); }
  }

  lemma RemoveGoes(s: Sys, n: int, rmq: RabbitmqCluster, desired: int)
    requires Quiet(s, n) && n > 2 + Scaling.RETRIES && !Terminating(s.w)
    requires ReapedIn(s.turns[2..2 + Scaling.RETRIES])
    ensures var (v, gone) := Scaling.RemoveSts(s, rmq, desired);
            gone && ScaleSide(s.w, v.w) && v.w.sts.None? && v.w.claims == s.w.claims
              && Quiet(v, n - 2 - Scaling.RETRIES)
  {
    QuietCall(s, n);
    QuietCall(Enter(s), n - 1);
    if s.w.sts.Some? {
      var s2 := DeleteSts(Enter(s), rmq, desired).0;
      assert s2.turns == s.turns[2..];
      assert s2.turns[..Scaling.RETRIES] == s.turns[2..2 + Scaling.RETRIES];
      hide ReapedIn;
      PollGoes(s2, Scaling.RETRIES);
    }
  }

  /* ---- the StatefulSet ---- */

  lemma {:induction false} ScaleUpGoes(s: Sys, n: int, cs: seq<Scaling.Claim>, desired: int)
    requires Quiet(s, n) && n > 2 * |cs| && s.w.sts.None? && Expansion.Below(s.w.claims, cs, desired)
    ensures var (v, ok) := Scaling.ScaleUp(s, cs, desired);
            ok && ScaleSide(s.w, v.w) && v.w.sts.None? && Quiet(v, n - 2 * |cs|)
    decreases |cs|
  {
    if cs != [] {
      var name := cs[0].name;
      QuietCall(s, n);
      QuietCall(Enter(s), n - 1);
      var s2 := UpdateClaim(Enter(s), name, desired).0;
      assert s2.w == s.w.(claims := s.w.claims[name := desired], log := s2.w.log);
      assert Scaling.ScaleUp(s, cs, desired) == Scaling.ScaleUp(s2, cs[1..], desired);
      hide Scaling.ScaleUp;
      Expansion.BelowWithout(s.w.claims, cs[1..], desired, name, desired);
      ScaleUpGoes(s2, n - 2, cs[1..], desired);
    }
  }

  function CallsOfScale(r: nat): nat {
    4 + 3 * r + Scaling.RETRIES
  }

  // After the listing, with claims to grow.
  lemma GrowingGoes(s: Sys, n: int, rmq: RabbitmqCluster, cs: seq<Scaling.Claim>, desired: int)
    requires Quiet(s, n) && n > 3 + Scaling.RETRIES + 2 * |cs| && !Terminating(s.w)
    requires ReapedIn(s.turns[2..2 + Scaling.RETRIES]) && Expansion.ListedIn(s.w, cs)
    ensures var small := Scaling.ClaimsNeedingScaling(cs, desired);
            var (s1, gone) := Scaling.RemoveSts(s, rmq, desired); var (v, ok) := Scaling.ScaleUp(s1, small, desired);
            gone && ok && ScaleSide(s.w, v.w) && Quiet(v, n - 3 - Scaling.RETRIES - 2 * |cs|)
  {
    var small := Scaling.ClaimsNeedingScaling(cs, desired);
    var s1 := Scaling.RemoveSts(s, rmq, desired).0;
    hide Quiet, Scaling.RemoveSts, Scaling.ScaleUp, ReapedIn, Expansion.ListedIn;
    RemoveGoes(s, n, rmq, desired);
    Expansion.SmallOnes(s.w, cs, desired, "");
    Convergence.NotMore(cs, desired);
    ScaleUpGoes(s1, n - 2 - Scaling.RETRIES, small, desired);
    QuietLess(Scaling.ScaleUp(s1, small, desired).0, n - 2 - Scaling.RETRIES - 2 * |small|);
  }

  // The listing finds the claims as they are.
  lemma ListingGoes(s: Sys, n: int, rmq: RabbitmqCluster)
    requires Inv(s.w) && Quiet(s, n) && n > 1 + Count(rmq.spec.replicas)
    ensures var r := Count(rmq.spec.replicas);
            var (v, cs) := Scaling.GetClusterClaims(Enter(s), rmq.name, 0, rmq.spec.replicas);
            && v == Sys(s.w, s.turns[1 + r..]) && Quiet(v, n - 1 - r) && cs.Ok? && |cs.value| <= r
            && Expansion.ListedIn(s.w, cs.value) && Expansion.OfReplicas(cs.value, rmq.name, 0, rmq.spec.replicas)
  {
    var r := Count(rmq.spec.replicas);
    QuietCall(s, n);
    assert Count(rmq.spec.replicas - 0) == r && Enter(s).turns == s.turns[1..] && AllAnswered(Enter(s).turns);
    assert s.turns[1..][r..] == s.turns[1 + r..];
    hide Inv, Quiet, AllAnswered, Enter, Scaling.GetClusterClaims, Expansion.ListedIn, Expansion.OfReplicas, Count;
    ListingPasses(Enter(s), n - 1, rmq.name, 0, rmq.spec.replicas);
    ListingAnswered(Enter(s), rmq.name, 0, rmq.spec.replicas);
    Expansion.ListingIsExact(Enter(s), rmq.name, 0, rmq.spec.replicas);
  }

  // A reap is ahead after the listing.
  lemma CollectedAhead(w: World, turns: seq<Turn>, r: nat, rest: seq<Turn>)
    requires Expandable(w, turns)
    requires ClaimBelow(w.cluster.name, w.cluster.spec.replicas, w.claims, DesiredCapacity(w.cluster.spec))
    requires |turns| >= 3 + r + Scaling.RETRIES && rest == turns[1 + r..]
    ensures !Terminating(w) && ReapedIn(rest[2..2 + Scaling.RETRIES])
  {
    hide PVCName, DesiredCapacity, ReapedIn;
    assert !ClaimsLarge(w, w.cluster.spec);
    assert CollectedFrom(turns, 3 + r);
    assert rest[2..2 + Scaling.RETRIES] == turns[3 + r..3 + r + Scaling.RETRIES];
  }

  // The call of Scale after its listing.
  lemma ScaleAfterListing(s: Sys, rmq: RabbitmqCluster, desired: int, t: Sys, cs: seq<Scaling.Claim>)
    requires FateOf(s) == Delivered && Enter(s).w == s.w
    requires s.w.sts.Some? ==> Scaling.Guard(Ok(s.w.sts.value), desired) == Scaling.Done
    requires Scaling.GetClusterClaims(Enter(s), rmq.name, 0, rmq.spec.replicas) == (t, Ok(cs))
    ensures var (v, o) := Scaling.Scale(s, rmq, desired); var small := Scaling.ClaimsNeedingScaling(cs, desired);
            var (s1, gone) := Scaling.RemoveSts(t, rmq, desired); var (s2, ok) := Scaling.ScaleUp(s1, small, desired);
            && (small == [] ==> o == Scaling.Done && v == t.(w := t.w.(log := v.w.log)))
            && (small != [] && gone && ok ==> o == Scaling.Done && v == s2.(w := s2.w.(log := v.w.log)))
  {
    hide Scaling.GetClusterClaims, Scaling.RemoveSts, Scaling.ScaleUp, Scaling.ClaimsNeedingScaling, Enter;
  }

  lemma SideWithLog(w: World, t: Sys, v: Sys, n: int, m: int)
    requires ScaleSide(w, t.w) && Quiet(t, n) && m <= n && v == t.(w := t.w.(log := v.w.log))
    ensures ScaleSide(w, v.w) && Quiet(v, m)
  {
  }

  // Scale gets to its end ...
  lemma ScaleEnds(s: Sys, n: int, rmq: RabbitmqCluster)
    requires Inv(s.w) && Quiet(s, n) && n > CallsOfScale(Count(rmq.spec.replicas)) && rmq == s.w.cluster
    requires Startable(s.w) && Expandable(s.w, s.turns)
    ensures var (v, o) := Scaling.Scale(s, rmq, DesiredCapacity(rmq.spec));
            o == Scaling.Done && ScaleSide(s.w, v.w) && Quiet(v, n - CallsOfScale(Count(rmq.spec.replicas)))
  {
    var desired, r := DesiredCapacity(rmq.spec), Count(rmq.spec.replicas);
    assert |s.turns| >= 3 + r + Scaling.RETRIES && CallsOfScale(r) == 4 + 3 * r + Scaling.RETRIES;
    assert s.w.sts.Some? ==> Scaling.Guard(Ok(s.w.sts.value), desired) == Scaling.Done;
    assert ScaleSide(s.w, s.w);
    hide *;
    ListingGoes(s, n, rmq);
    QuietCall(s, n);
    var (t, cs) := Scaling.GetClusterClaims(Enter(s), rmq.name, 0, rmq.spec.replicas);
    ScaleAfterListing(s, rmq, desired, t, cs.value);
    var small := Scaling.ClaimsNeedingScaling(cs.value, desired);
    var v := Scaling.Scale(s, rmq, desired).0;
    if small == [] {
      SideWithLog(s.w, t, v, n - 1 - r, n - CallsOfScale(r));
    } else {
      Expansion.SmallOnesAreBelow(rmq, s.w, cs.value, desired);
      CollectedAhead(s.w, s.turns, r, t.turns);
      GrowingGoes(t, n - 1 - r, rmq, cs.value, desired);
      var grown := Scaling.ScaleUp(Scaling.RemoveSts(t, rmq, desired).0, small, desired).0;
      SideWithLog(s.w, grown, v, n - 4 - r - Scaling.RETRIES - 2 * |cs.value|, n - CallsOfScale(r));
    }
  }

  // ... and the claims there are then are large.
  lemma ScaleGoes(s: Sys, n: int, rmq: RabbitmqCluster)
    requires Inv(s.w) && Quiet(s, n) && n > CallsOfScale(Count(rmq.spec.replicas)) && rmq == s.w.cluster
    requires Startable(s.w) && Expandable(s.w, s.turns)
    ensures var (v, o) := Scaling.Scale(s, rmq, DesiredCapacity(rmq.spec));
            && o == Scaling.Done && ScaleSide(s.w, v.w) && ClaimsLarge(v.w, rmq.spec)
            && Quiet(v, n - CallsOfScale(Count(rmq.spec.replicas)))
  {
    var desired := DesiredCapacity(rmq.spec);
    hide Inv, Scaling.Scale, DesiredCapacity, Quiet, Startable, Expandable, PVCName;
    ScaleEnds(s, n, rmq);
    var v := Scaling.Scale(s, rmq, desired).0;
    forall i | 0 <= i < rmq.spec.replicas && PVCName(rmq.name, i) in v.w.claims
      ensures v.w.claims[PVCName(rmq.name, i)] >= desired
    {
      Expansion.DoneMeansExpanded(s, rmq, desired, i);
    }
  }

  lemma PrepareGoes(s: Sys, n: int, rmq: RabbitmqCluster)
    requires Inv(s.w) && Quiet(s, n) && n > 1 + CallsOfScale(Count(rmq.spec.replicas)) && rmq == s.w.cluster
    requires Startable(s.w) && Expandable(s.w, s.turns)
    ensures var p := PrepareSts(s, rmq);
            && p.flow == Go && p.rmq == rmq && ScaleSide(s.w, p.s.w) && ClaimsLarge(p.s.w, rmq.spec)
            && Quiet(p.s, n - 1 - CallsOfScale(Count(rmq.spec.replicas)))
  {
    QuietCall(s, n);
    CallsLeave(s);
    ExpandableLater(s.w, s.turns, s.w, Enter(s).turns);
    ScaleGoes(Enter(s), n - 1, rmq);
    hide Scaling.Scale, DesiredCapacity, SetCondition, InOrder, ClaimsLarge;
  }

  // The StatefulSet is as the resource wants it.
  predicate StsReady(w: World) {
    w.sts.Some? && StsFits(w.sts.value, w.cluster) && Scaling.CapacityOf(w.sts.value) == DesiredCapacity(w.cluster.spec)
  }

  // Only the StatefulSet and the log differ.
  predicate StsOnly(w: World, v: World) {
    v == w.(sts := v.sts, nextId := v.nextId, log := v.log)
  }

  lemma UpdatedIsReady(sts: Sts, rmq: RabbitmqCluster)
    requires Scaling.Guard(Ok(sts), DesiredCapacity(rmq.spec)) == Scaling.Done
    ensures var obj := UpdatedSts(sts, rmq);
            && StsFits(obj, rmq) && Scaling.CapacityOf(obj) == DesiredCapacity(rmq.spec)
            && obj.terminating == sts.terminating && obj.rv == sts.rv
  {
    UpdatedFits(sts, rmq);
    UpdatedStsSettles(sts, rmq);
    hide StsFits;
  }

  lemma ReadyAnyVersion(sts: Sts, rmq: RabbitmqCluster, uid: nat, rv: nat)
    requires StsFits(sts, rmq) && Scaling.CapacityOf(sts) == DesiredCapacity(rmq.spec)
    ensures var obj := sts.(uid := uid, rv := rv, terminating := false);
            StsFits(obj, rmq) && Scaling.CapacityOf(obj) == DesiredCapacity(rmq.spec)
    ensures var obj := sts.(rv := rv);
            StsFits(obj, rmq) && Scaling.CapacityOf(obj) == DesiredCapacity(rmq.spec)
  {
  }

  lemma StsApplies(s: Sys, n: int, rmq: RabbitmqCluster, tries: nat)
    requires Quiet(s, n) && n > 2 && tries > 0 && rmq == s.w.cluster && Startable(s.w)
    ensures var (v, r) := ApplySts(s, rmq, tries); r.Ok? && StsOnly(s.w, v.w) && StsReady(v.w) && Quiet(v, n - 2)
  {
    var base := if s.w.sts.Some? then s.w.sts.value else BuiltSts(rmq);
    assert Scaling.Guard(Ok(base), DesiredCapacity(rmq.spec)) == Scaling.Done;
    UpdatedIsReady(base, rmq);
    ReadyAnyVersion(UpdatedSts(base, rmq), rmq, s.w.nextId, s.w.nextId);
    QuietCall(s, n);
    QuietCall(Enter(s), n - 1);
    QuietLess(Enter(s), n - 1);
    hide UpdatedSts, BuiltSts, StsEvents, Startable, StsFits, Scaling.CapacityOf, DesiredCapacity;
  }

  lemma CreationGoes(s: Sys, n: int, t: Time, tries: nat)
    requires Quiet(s, n) && n > 2 && tries > 0 && StsReady(s.w) && CREATED_AT !in s.w.cluster.annotations
    ensures var (v, ok) := AnnotateSts(s, t, tries); ok && StsOnly(s.w, v.w) && StsReady(v.w) && Quiet(v, n - 2)
  {
    QuietCall(s, n);
    QuietCall(Enter(s), n - 1);
    hide StsEvents, DesiredCapacity, Metadata.IsNotKubernetesAnnotation;
  }

  // The StatefulSet's step as a whole.
  predicate StsStepped(w: World, v: World) {
    v == w.(sts := v.sts, claims := v.claims, nextId := v.nextId, log := v.log)
  }

  function CallsOfSts(r: nat): nat {
    5 + CallsOfScale(r)
  }

  lemma StsGoes(s: Sys, n: int, rmq: RabbitmqCluster, tries: nat)
    requires Inv(s.w) && Quiet(s, n) && n > 1 + CallsOfSts(Count(rmq.spec.replicas)) && tries > 0
    requires rmq == s.w.cluster && Startable(s.w) && Expandable(s.w, s.turns)
    ensures var p := RunBuilder(s, rmq, StsBuilder, tries);
            && p.flow == Go && p.rmq == rmq && StsStepped(s.w, p.s.w) && StsReady(p.s.w)
            && ClaimsLarge(p.s.w, rmq.spec) && Quiet(p.s, n - CallsOfSts(Count(rmq.spec.replicas)))
  {
    PrepareGoes(s, n, rmq);
    var p := PrepareSts(s, rmq);
    var m := n - 1 - CallsOfScale(Count(rmq.spec.replicas));
    assert Startable(p.s.w) && CREATED_AT !in rmq.annotations by { hide SecretsFit, DesiredCapacity; }
    hide Quiet, PrepareSts, ApplySts, AnnotateSts, Startable, StsReady, Inv, Expandable, PVCName;
    StsApplies(p.s, m, rmq, tries);
    var (s1, op) := ApplySts(p.s, rmq, tries);
    QuietLess(s1, m - 2);
    if op == Ok(Created) { CreationGoes(s1, m - 2, s1.w.now, tries); }
  }

  /* ---- all children ---- */

  lemma StartableOn(w: World, v: World)
    requires Startable(w) && StsSide(w, v)
    ensures Startable(v)
  {
  }

  // The builders before the last.
  lemma {:induction false} ChildrenGo(s: Sys, n: int, rmq: RabbitmqCluster, bs: seq<Builder>, tries: nat)
    requires Quiet(s, n) && n > 4 * |bs| + 2 && tries > 0 && forall b :: b in bs ==> !b.StsBuilder?
    requires rmq.annotations == s.w.cluster.annotations
    ensures var p := RunBuilders(s, rmq, bs, tries);
            p.flow == Go && p.rmq == rmq && StsSide(s.w, p.s.w) && Quiet(p.s, n - 4 * |bs|)
    decreases |bs|
  {
    if bs != [] {
      hide Quiet, RunBuilder, Dated;
      ChildGoes(s, n, rmq, bs[0], tries);
      var p := RunBuilder(s, rmq, bs[0], tries);
      assert p.s.w.cluster == s.w.cluster;
      hide StsSide;
      ChildrenGo(p.s, n - 4, rmq, bs[1..], tries);
      StsSideTransitive(s.w, p.s.w, RunBuilders(p.s, rmq, bs[1..], tries).s.w);
    } else {
      hide Quiet;
    }
  }

  lemma {:induction false} BuildersSplit(s: Sys, rmq: RabbitmqCluster, bs: seq<Builder>, b: Builder, tries: nat)
    ensures var p := RunBuilders(s, rmq, bs, tries);
            p.flow == Go ==> RunBuilders(s, rmq, bs + [b], tries) == RunBuilder(p.s, p.rmq, b, tries)
    decreases |bs|
  {
    hide RunBuilder;
    if bs == [] {
      assert [b][1..] == [] && bs + [b] == [b];
      var p := RunBuilder(s, rmq, b, tries);
      assert RunBuilders(p.s, p.rmq, [], tries) == Step(p.s, p.rmq, Go);
    } else {
      assert (bs + [b])[1..] == bs[1..] + [b];
      var p := RunBuilder(s, rmq, bs[0], tries);
      if p.flow == Go { BuildersSplit(p.s, p.rmq, bs[1..], b, tries); }
    }
  }

  function AllBut(spec: ClusterSpec): seq<Builder> {
    Builders(spec)[..|Builders(spec)| - 1]
  }

  lemma StsComesLast(spec: ClusterSpec)
    ensures Builders(spec) == AllBut(spec) + [StsBuilder] && |AllBut(spec)| <= 9
    ensures forall b :: b in AllBut(spec) ==> !b.StsBuilder?
  {
  }

  function CallsOfBuilders(spec: ClusterSpec): nat {
    38 + CallsOfSts(Count(spec.replicas))
  }

  // What the builders before the last leave for the last.
  lemma ChildrenReady(s: Sys, n: int, rmq: RabbitmqCluster, tries: nat)
    requires Inv(s.w) && Quiet(s, n) && n > CallsOfBuilders(rmq.spec) && tries > 0 && rmq == s.w.cluster
    requires Startable(s.w) && Expandable(s.w, s.turns)
    ensures var p := RunBuilders(s, rmq, AllBut(rmq.spec), tries);
            && p.flow == Go && p.rmq == rmq == p.s.w.cluster && Inv(p.s.w) && StsSide(s.w, p.s.w)
            && Startable(p.s.w) && Expandable(p.s.w, p.s.turns) && Quiet(p.s, n - 36)
  {
    var bs := AllBut(rmq.spec);
    StsComesLast(rmq.spec);
    assert Holds(s.w, rmq);
    hide Inv, Builders, AllBut, Quiet, Expandable, Holds, Startable, RunBuilders, Dated;
    ChildrenGo(s, n, rmq, bs, tries);
    var p := RunBuilders(s, rmq, bs, tries);
    RunBuildersBuild(s, rmq, bs, tries);
    KeptAfter(s, rmq, p.s, p.rmq);
    ChildrenLeave(s, rmq, bs, tries);
    StartableOn(s.w, p.s.w);
    ExpandableLater(s.w, s.turns, p.s.w, p.s.turns);
    QuietLess(p.s, n - 4 * |bs|);
  }

  lemma KeptAfter(s: Sys, rmq: RabbitmqCluster, t: Sys, held: RabbitmqCluster)
    requires ChildrenStep(s, rmq, t, held)
    ensures Inv(t.w)
  {
  }

  // The time is the same, and a plugins marker still a time past.
  predicate Paced(w: World, v: World) {
    v.now == w.now && (Dated(w) ==> Dated(v))
  }

  lemma SidesArePaced(w: World, v: World, u: World)
    requires StsSide(w, v) && StsStepped(v, u)
    ensures Paced(w, u) && u.cluster == w.cluster
  {
  }

  lemma BuildersApply(s: Sys, n: int, rmq: RabbitmqCluster, tries: nat)
    requires Inv(s.w) && Quiet(s, n) && n > CallsOfBuilders(rmq.spec) && tries > 0 && rmq == s.w.cluster
    requires Startable(s.w) && Expandable(s.w, s.turns)
    ensures var p := RunBuilders(s, rmq, Builders(rmq.spec), tries);
            && p.flow == Go && p.rmq == rmq == p.s.w.cluster && Applied(p.s.w) && Paced(s.w, p.s.w)
            && Quiet(p.s, n - CallsOfBuilders(rmq.spec))
  {
    var bs := AllBut(rmq.spec);
    StsComesLast(rmq.spec);
    assert Holds(s.w, rmq);
    hide RunBuilder, Builders, RunBuilders, AllBut, Inv, Startable, Expandable, Quiet, Holds;
    ChildrenReady(s, n, rmq, tries);
    var p := RunBuilders(s, rmq, bs, tries);
    BuildersSplit(s, rmq, bs, StsBuilder, tries);
    StsGoes(p.s, n - 36, rmq, tries);
    var q := RunBuilders(s, rmq, Builders(rmq.spec), tries);
    SidesArePaced(s.w, p.s.w, q.s.w);
    RunBuildersBuild(s, rmq, Builders(rmq.spec), tries);
    BuiltIsApplied(s.w, q.s.w);
    QuietLess(q.s, n - 36 - CallsOfSts(Count(rmq.spec.replicas)));
  }

  lemma BuiltIsApplied(w: World, v: World)
    requires InOrder(w) && v.cluster == w.cluster && v.secrets == w.secrets && StsReady(v)
    requires AllSettled(v, v.cluster.spec, Builders(v.cluster.spec)) && ClaimsLarge(v, v.cluster.spec)
    ensures Applied(v)
  {
    FixedWhenFits(v.sts.value, v.cluster);
    hide StsFits, AllSettled, ClaimsLarge, Builders, UpdatedSts;
  }

  /* ---- before and after ---- */

  // The resource is current, and no more than the rebalance marker was added.
  predicate Prefaced(w: World, v: World) {
    && v == w.(cluster := v.cluster, nextId := v.nextId, log := v.log)
    && v.cluster == w.cluster.(status := v.cluster.status, finalizer := v.cluster.finalizer, rv := v.cluster.rv,
         annotations := v.cluster.annotations)
    && (v.cluster.annotations == w.cluster.annotations
        || v.cluster.annotations == w.cluster.annotations[QUEUE_REBALANCE_NEEDED_AT := Stamp(w.now)])
  }

  lemma StartableAfter(w: World, v: World)
    requires Startable(w) && Prefaced(w, v)
    ensures Startable(v) && Paced(w, v)
  {
    KeysApart();
    hide PVCName, DesiredCapacity, ClusterSpec.MutualTLSEnabled, ClusterSpec.SecretTLSEnabled;
  }

  lemma KeysApart()
    ensures QUEUE_REBALANCE_NEEDED_AT !in {SERVER_CONF_UPDATED_AT, CREATED_AT, PLUGINS_UPDATED_AT}
  {
    assert |QUEUE_REBALANCE_NEEDED_AT| == 35 && |SERVER_CONF_UPDATED_AT| == 32 && |CREATED_AT| == 22;
    assert |PLUGINS_UPDATED_AT| == 29;
  }

  lemma RebalanceGoes(s: Sys, n: int, rmq: RabbitmqCluster)
    requires Quiet(s, n) && n > 2 && rmq == s.w.cluster
    ensures var p := MarkForQueueRebalance(s, rmq);
            p.flow == Go && Prefaced(s.w, p.s.w) && p.rmq == p.s.w.cluster && Quiet(p.s, n - 2)
  {
    QuietCall(s, n);
    QuietCall(Enter(s), n - 1);
    hide NeedsQueueRebalance, Pending;
  }

  lemma PreliminariesGo(s: Sys, n: int, rmq: RabbitmqCluster)
    requires Quiet(s, n) && n > 9 && rmq == s.w.cluster && InOrder(s.w)
    ensures var p := Preliminaries(s, rmq);
            p.flow == Go && Prefaced(s.w, p.s.w) && p.rmq == p.s.w.cluster && Quiet(p.s, n - 8)
  {
    hide InOrder, Quiet, AddFinalizerIfNeeded, UpdateStatusConditions, ReconcileTLS, MarkForQueueRebalance;
    var p1 := AddFinalizerIfNeeded(s, rmq);
    FinalizerPasses(s, n, rmq);
    var p2 := UpdateStatusConditions(p1.s, p1.rmq);
    ConditionsPass(p1.s, n - 1, p1.rmq);
    ClusterOnlyTransitive(s.w, p1.s.w, p2.s.w);
    AppliedOn(s.w, p2.s.w);
    var p3 := ReconcileTLS(p2.s, p2.rmq);
    TLSPasses(p2.s, n - 4, p2.rmq);
    ClusterOnlyTransitive(s.w, p2.s.w, p3.s.w);
    RebalanceGoes(p3.s, n - 6, p3.rmq);
    PrefacedAfter(s.w, p3.s.w, MarkForQueueRebalance(p3.s, p3.rmq).s.w);
  }

  lemma PrefacedAfter(w: World, v: World, u: World)
    requires ClusterOnly(w, v) && Prefaced(v, u)
    ensures Prefaced(w, u)
  {
  }

  // No command brings the plugins marker back.
  lemma HealedIsPaced(w: World, v: World)
    requires Kin(w, v) && (PLUGINS_UPDATED_AT !in v.plugins.value.annotations || v.plugins == w.plugins)
    ensures Paced(w, v)
  {
  }

  lemma CommandsGo(s: Sys, n: int, rmq: RabbitmqCluster)
    requires Quiet(s, n) && n > Count(rmq.spec.replicas) + 8 && rmq == s.w.cluster && Applied(s.w)
    ensures var c := RunCommands(s, rmq);
            && (c.flow == Go || c.flow == Requeue || c.flow == Error) && Applied(c.s.w) && c.rmq == c.s.w.cluster
            && Quiet(c.s, 1) && Paced(s.w, c.s.w) && c.rmq.spec == rmq.spec
  {
    AppliedFits(s.w);
    QuietCall(s, n);
    QuietCall(Enter(s), n - 1);
    var s2 := Enter(Enter(s));
    QuietLess(s2, n - 2);
    QuietLess(Enter(s), n - 1);
    var sts, m := s.w.sts.value, s.w.plugins.value;
    hide Applied, RunMarkedCommands, UpdatedRecently, ReadyAndUpdated, Quiet, Enter;
    if ReadyAndUpdated(sts) && UpdatedRecently(m.annotations, s.w.now) == Some(false) {
      var c := Cli(Note(s2, Looked(Look(rmq, sts, m))), rmq, sts, m, Go);
      assert RunCommands(s, rmq) == RunMarkedCommands(c);
      hide RunCommands;
      MarkedGo(s.w, c, n - 2);
    }
  }

  lemma MarkedGo(w: World, c: Cli, n: int)
    requires Applied(w) && w.sts.Some? && ReadyAndUpdated(w.sts.value) && w.plugins.Some?
    requires UpdatedRecently(w.plugins.value.annotations, w.now) == Some(false) && Quiet(c.s, n)
    requires c == Cli(c.s, w.cluster, w.sts.value, w.plugins.value, Go) && c.s.w == w.(log := c.s.w.log)
    requires n > Count(w.cluster.spec.replicas) + 6
    ensures var d := RunMarkedCommands(c);
            && d.flow == Go && Applied(d.s.w) && d.rmq == d.s.w.cluster && Quiet(d.s, 1) && Paced(w, d.s.w)
            && d.rmq.spec == w.cluster.spec
  {
    LogOnly(w, c.s.w);
    assert Paced(w, c.s.w);
    hide RunMarkedCommands, Applied, Dated, UpdatedRecently, Quiet, ReadyAndUpdated;
    AllHeal(c, n);
    var d := RunMarkedCommands(c);
    HealedIsPaced(c.s.w, d.s.w);
    QuietLess(d.s, n - 5 - Count(w.cluster.spec.replicas));
  }

  lemma PacedTransitive(w: World, v: World, u: World)
    requires Paced(w, v) && Paced(v, u)
    ensures Paced(w, u)
  {
  }

  lemma ClusterOnlyIsPaced(w: World, v: World)
    requires ClusterOnly(w, v)
    ensures Paced(w, v)
  {
  }

  lemma FinishGoes(s: Sys, n: int, rmq: RabbitmqCluster)
    requires Quiet(s, n) && n > Count(rmq.spec.replicas) + 8 && rmq == s.w.cluster && Applied(s.w)
    ensures var v := Finish(s, rmq).s.w; Applied(v) && v.cluster.spec == rmq.spec && Paced(s.w, v)
  {
    CommandsGo(s, n, rmq);
    var c, v := RunCommands(s, rmq), Finish(s, rmq).s.w;
    QuietCall(c.s, 1);
    hide Applied, RunCommands, AfterSetCondition, Paced;
    AppliedOn(c.s.w, v);
    ClusterOnlyIsPaced(c.s.w, v);
    PacedTransitive(s.w, c.s.w, v);
  }

  lemma RestartIsPaced(w: World, v: World)
    requires RestartStep(w, v)
    ensures Paced(w, v) && Applied(v) && v.cluster == w.cluster
  {
    hide Applied, Sound, RestartDue;
  }

  lemma RestGoes(s: Sys, n: int, rmq: RabbitmqCluster, tries: nat)
    requires Quiet(s, n) && n > Count(rmq.spec.replicas) + 14 && rmq == s.w.cluster && Applied(s.w) && tries > 0
    ensures var v := AfterChildren(s, rmq, tries).s.w; Applied(v) && v.cluster.spec == rmq.spec && Paced(s.w, v)
  {
    hide Applied, Quiet, RestartIfNeeded, ReconcileStatus, Finish, Paced, RestartStep;
    RestartHeals(s, n, tries);
    var s1 := RestartIfNeeded(s, tries).0;
    RestartIsPaced(s.w, s1.w);
    StatusPasses(s1, n - 4, rmq);
    var q := ReconcileStatus(s1, rmq);
    AppliedOn(s1.w, q.s.w);
    ClusterOnlyIsPaced(s1.w, q.s.w);
    FinishGoes(q.s, n - 5, q.rmq);
    var v := AfterChildren(s, rmq, tries).s.w;
    PacedTransitive(s.w, s1.w, q.s.w);
    PacedTransitive(s.w, q.s.w, v);
  }

  function CallsOfFirst(spec: ClusterSpec): nat {
    25 + CallsOfBuilders(spec) + Count(spec.replicas)
  }

  lemma PrefaceGoes(s: Sys, n: int, rmq: RabbitmqCluster)
    requires Inv(s.w) && Startable(s.w) && Expandable(s.w, s.turns) && rmq == s.w.cluster && Quiet(s, n) && n > 9
    ensures var p := Preliminaries(s, rmq);
            && p.flow == Go && p.rmq == p.s.w.cluster && p.rmq.spec == rmq.spec && Quiet(p.s, n - 8)
            && Inv(p.s.w) && Startable(p.s.w) && Expandable(p.s.w, p.s.turns) && Paced(s.w, p.s.w)
  {
    assert Holds(s.w, rmq) && InOrder(s.w);
    PreliminariesGo(s, n, rmq);
    PreliminariesKeep(s, rmq);
    PreliminariesLeave(s, rmq);
    var p := Preliminaries(s, rmq);
    assert p.rmq.spec == rmq.spec && p.s.w.sts == s.w.sts && p.s.w.claims == s.w.claims;
    assert p.s.w.cluster.spec == s.w.cluster.spec && p.s.w.cluster.name == s.w.cluster.name;
    hide *;
    InvAfter(s, rmq, p.s, p.rmq);
    StartableAfter(s.w, p.s.w);
    ExpandableLater(s.w, s.turns, p.s.w, p.s.turns);
  }

  // The first pass up to the children.
  lemma FirstPassBuilds(s: Sys, tries: nat)
    requires Inv(s.w) && Startable(s.w) && tries > 0 && Quiet(s, CallsOfFirst(s.w.cluster.spec))
    requires Expandable(s.w, s.turns)
    ensures var q := Built(s, tries);
            && GetsPast(s, tries) && Applied(q.s.w) && q.rmq == q.s.w.cluster && q.rmq == Opened(s).rmq
            && q.rmq.spec == s.w.cluster.spec && Paced(s.w, q.s.w) && Quiet(q.s, Count(q.rmq.spec.replicas) + 15)
  {
    var rmq, n := s.w.cluster, CallsOfFirst(s.w.cluster.spec);
    QuietCall(s, n);
    CallsLeave(s);
    var s1 := Note(Enter(s), PassBegan(rmq.spec));
    assert FateOf(s) == Delivered && Enter(s).w == s.w && !rmq.paused && Quiet(s1, n - 1) && Holds(s.w, rmq);
    ExpandableLater(s.w, s.turns, s1.w, s1.turns);
    assert Startable(s1.w) && Paced(s.w, s1.w) by { hide Inv, PVCName, SecretsFit, Expandable; }
    PassOpens(Enter(s), rmq);
    assert n - 9 > CallsOfBuilders(rmq.spec) && s1.w.cluster == rmq && Opened(s) == Preliminaries(s1, rmq);
    assert n - 9 - CallsOfBuilders(rmq.spec) > Count(rmq.spec.replicas) + 14;
    var p := Preliminaries(s1, rmq);
    assert Built(s, tries) == RunBuilders(p.s, p.rmq, Builders(p.rmq.spec), tries) by {
      hide Preliminaries, RunBuilders;
    }
    hide *;
    PrefaceGoes(s1, n - 1, rmq);
    BuildersApply(p.s, n - 9, p.rmq, tries);
    var q := Built(s, tries);
    PacedTransitive(s.w, s1.w, p.s.w);
    PacedTransitive(s.w, p.s.w, q.s.w);
    InPast(s, tries);
    QuietFewer(q.s, n - 9 - CallsOfBuilders(rmq.spec), Count(rmq.spec.replicas) + 15);
  }

  lemma InPast(s: Sys, tries: nat)
    requires FateOf(s) == Delivered && !Enter(s).w.cluster.paused && Opened(s).flow == Go && Built(s, tries).flow == Go
    ensures GetsPast(s, tries)
  {
  }

  // A pass over a resource with nothing in its way, every call answered,
  // applies it to all children: it expands the claims that are too small, for
  // which it deletes the StatefulSet and creates it again, and updates or
  // creates the rest.
  lemma FirstPassApplies(s: Sys, tries: nat)
    requires Inv(s.w) && Startable(s.w) && tries > 0 && Quiet(s, CallsOfFirst(s.w.cluster.spec))
    requires Expandable(s.w, s.turns)
    ensures var w := Reconcile(s, tries).s.w; Applied(w) && w.cluster.spec == s.w.cluster.spec && Paced(s.w, w)
  {
    var q := Built(s, tries);
    FirstPassBuilds(s, tries);
    PastBuilders(s, tries);
    hide *;
    RestGoes(q.s, Count(q.rmq.spec.replicas) + 15, q.rmq, tries);
    PacedTransitive(s.w, q.s.w, Reconcile(s, tries).s.w);
  }

  // The replicas are reported ready on one revision, and time passes.
  function Readied(w: World, revision: nat, t: Time): World {
    Acted(Acted(w, ReportStatus(w.cluster.spec.replicas, revision, revision)), Tick(t))
  }

  // Readiness, versions and the clock do not bear on what was applied.
  predicate SameButReady(w: World, v: World) {
    && v == w.(sts := v.sts, now := v.now, nextId := v.nextId) && w.sts.Some? && v.sts.Some?
    && v.sts.value == w.sts.value.(rv := v.sts.value.rv, ready := v.sts.value.ready,
         currentRevision := v.sts.value.currentRevision, updateRevision := v.sts.value.updateRevision)
  }

  lemma AppliedStays(w: World, v: World)
    requires Applied(w) && SameButReady(w, v)
    ensures Applied(v)
  {
    AppliedFits(w);
    var spec := w.cluster.spec;
    forall b | b in Builders(spec) ensures Settled(v, spec, b) {
      assert Settled(w, spec, b);
    }
    assert StsFits(v.sts.value, v.cluster);
    FixedWhenFits(v.sts.value, v.cluster);
    hide Settled, UpdatedSts, StsFits, PVCName, DesiredCapacity, Builders;
  }

  lemma ReadiedIsSound(w: World, revision: nat, t: Time)
    requires Applied(w)
    ensures Sound(Readied(w, revision, t)) && Readied(w, revision, t).cluster == w.cluster
  {
    AppliedFits(w);
    var v := Readied(w, revision, t);
    assert SameButReady(w, v) && ReadyAndUpdated(v.sts.value) by { hide Applied, Seconds; }
    AppliedStays(w, v);
    hide Applied, SameButReady, ReadyAndUpdated, Seconds;
  }

  // What was written in the first pass has aged two seconds later.
  lemma ReadiedIsAged(w: World, revision: nat, t: Time)
    requires Inv(w) && Applied(w) && Dated(w) && Seconds(w.now) + 2 <= Seconds(t)
    ensures Aged(Readied(w, revision, t))
  {
    AppliedFits(w);
    LastMarkLogged(w.log, w.now);
    hide Applied, Seconds, StsFits;
  }

  // Two passes lead to health: from a resource in order, new or edited, with
  // claims to expand or none, and with the calls answered, one pass applies
  // it; once the replicas are ready, two seconds later, one more completes and
  // leaves a healthy cluster with its generation observed.
  lemma TwoPassesHeal(w: World, first: seq<Turn>, revision: nat, t: Time, second: seq<Turn>, tries: nat)
    requires Inv(w) && Startable(w) && tries > 0 && Quiet(Sys(w, first), CallsOfFirst(w.cluster.spec))
    requires Expandable(w, first) && Dated(w) && Seconds(w.now) + 2 <= Seconds(t)
    ensures var v := Readied(Reconcile(Sys(w, first), tries).s.w, revision, t);
            var p := Reconcile(Sys(v, second), tries);
            Quiet(Sys(v, second), CallsOfPass(w.cluster.spec)) ==>
              p.result.Completed? && Healthy(p.s.w) && p.s.w.cluster.status.observedGeneration == v.cluster.generation
  {
    FirstPassApplies(Sys(w, first), tries);
    var w1 := Reconcile(Sys(w, first), tries).s.w;
    NextKeeps(w, Begin(first, tries));
    assert Inv(w1) && Dated(w1) && w1.now == w.now;
    ReadiedIsSound(w1, revision, t);
    ReadiedIsAged(w1, revision, t);
    var v := Readied(w1, revision, t);
    hide Reconcile, Applied, Sound, Aged, Quiet, Healthy, Readied, CallsOfPass, Inv;
    if Quiet(Sys(v, second), CallsOfPass(w.cluster.spec)) { ReadyPassHeals(Sys(v, second), tries); }
  }
}
