// When Scale gets to its end: exactly when it refuses, and exactly when a call
// that meets no failure is done.
module Convergence {
  import opened Rfc3339
  import opened Spec
  import opened ApiServer
  import opened Invariants
  import opened Calls
  import opened Scaling
  import opened Expansion

  // A refusal is decided by the StatefulSet that was read, and nothing has
  // been touched.
  lemma RefusalsAreExact(s: Sys, rmq: RabbitmqCluster, desired: int)
    ensures var (v, o) := Scale(s, rmq, desired); var sts := Enter(s).w.sts;
            && (o == EphemeralToPersistent <==>
                FateOf(s) == Delivered && sts.Some? && CapacityOf(sts.value) == 0 && desired != 0)
            && (o == Shrinking <==>
                && FateOf(s) == Delivered && sts.Some? && CapacityOf(sts.value) > desired
                && (CapacityOf(sts.value) != 0 || desired == 0))
            && (o == EphemeralToPersistent || o == Shrinking ==> v == Enter(s))
  {
    hide GetClusterClaims, RemoveSts, ScaleUp, Enter;
  }

  // Every call is answered, and nobody else deletes the StatefulSet.
  predicate AllAnswered(turns: seq<Turn>) {
    forall k :: 0 <= k < |turns| ==> turns[k].fate == Delivered && DeleteStatefulSet !in turns[k].env
  }

  predicate ReapedIn(turns: seq<Turn>) {
    exists k :: 0 <= k < |turns| && Reap in turns[k].env
  }

  // A StatefulSet goes exactly when it is terminating and reaped.
  lemma {:induction false} Reaping(w: World, es: seq<EnvStep>)
    ensures w.sts.None? ==> ActedAll(w, es).sts.None?
    ensures Live(w) && DeleteStatefulSet !in es ==> Live(ActedAll(w, es))
    ensures Terminating(w) ==> if Reap in es then ActedAll(w, es).sts.None? else Terminating(ActedAll(w, es))
    decreases |es|
  {
    if es != [] {
      Reaping(Acted(w, es[0]), es[1..]);
      ReapingOnce(w, es[0]);
    }
  }

  lemma ReapingOnce(w: World, e: EnvStep)
    ensures w.sts.None? ==> Acted(w, e).sts.None?
    ensures Live(w) && !e.DeleteStatefulSet? ==> Live(Acted(w, e))
    ensures Terminating(w) ==> if e.Reap? then Acted(w, e).sts.None? else Terminating(Acted(w, e))
  {
    hide Seconds, PVCName;
  }

  lemma {:induction false} PollGoneExact(s: Sys, retries: nat)
    requires AllAnswered(s.turns) && |s.turns| >= retries && Terminating(s.w)
    ensures var (v, gone) := PollGone(s, retries);
            && (gone <==> ReapedIn(s.turns[..retries]))
            && |v.turns| >= |s.turns| - retries && AllAnswered(v.turns)
    decreases retries
  {
    if retries > 0 {
      var (s1, r) := ReadSts(s);
      Reaping(s.w, s.turns[0].env);
      var first, rest := s.turns[..retries], s1.turns[..retries - 1];
      assert first == [s.turns[0]] + rest;
      if Reap in s.turns[0].env {
        assert Reap in first[0].env;
      } else {
        PollGoneExact(s1, retries - 1);
        ReapedLater(s.turns[0], rest);
      }
    }
  }

  // The end of a deleted StatefulSet is asked for ten times.
  lemma TenPolls(s: Sys)
    requires AllAnswered(s.turns) && |s.turns| >= 10 && Terminating(s.w)
    ensures PollGone(s, RETRIES).1 <==> exists k :: 0 <= k < 10 && Reap in s.turns[k].env
  {
    PollGoneExact(s, RETRIES);
    assert forall k :: 0 <= k < 10 ==> s.turns[..10][k] == s.turns[k];
  }

  lemma ReapedLater(t: Turn, rest: seq<Turn>)
    ensures ReapedIn([t] + rest) <==> Reap in t.env || ReapedIn(rest)
  {
    var all := [t] + rest;
    if ReapedIn(rest) {
      var k :| 0 <= k < |rest| && Reap in rest[k].env;
      assert all[k + 1] == rest[k];
    }
    assert all[0] == t;
  }

  function Count(n: int): nat {
    if n < 0 then 0 else n
  }

  lemma {:induction false} ListingAnswered(s: Sys, name: string, i: nat, n: int)
    requires AllAnswered(s.turns) && |s.turns| >= Count(n - i)
    ensures var (v, r) := GetClusterClaims(s, name, i, n);
            r.Ok? && v.turns == s.turns[Count(n - i)..] && |r.value| <= Count(n - i)
    decreases n - i
  {
    if i < n {
      hide PVCName, ActedAll;
      ListingAnswered(ReadClaim(s, PVCName(name, i)).0, name, i + 1, n);
    }
  }

  // What becomes of the StatefulSet while k calls are answered.
  predicate StsFate(w: World, v: World, turns: seq<Turn>, k: nat)
    requires |turns| >= k
  {
    && (w.sts.None? ==> v.sts.None?) && (Live(w) ==> Live(v))
    && (Terminating(w) ==> if ReapedIn(turns[..k]) then v.sts.None? else Terminating(v))
  }

  lemma FateAfter(s: Sys, v: World, k: nat)
    requires |s.turns| > k && DeleteStatefulSet !in s.turns[0].env && StsFate(Enter(s).w, v, Enter(s).turns, k)
    ensures StsFate(s.w, v, s.turns, k + 1)
  {
    Reaping(s.w, s.turns[0].env);
    assert s.turns[..k + 1] == [s.turns[0]] + s.turns[1..][..k];
    hide ActedAll, ReapedIn;
    ReapedLater(s.turns[0], s.turns[1..][..k]);
  }

  lemma {:induction false} ListingDelivered(s: Sys, name: string, i: nat, n: int)
    requires AllAnswered(s.turns) && |s.turns| >= Count(n - i)
    ensures StsFate(s.w, GetClusterClaims(s, name, i, n).0.w, s.turns, Count(n - i))
    decreases n - i
  {
    if i < n {
      var s1 := ReadClaim(s, PVCName(name, i)).0;
      ListingAnswered(s, name, i, n);
      hide PVCName, ActedAll, StsFate;
      ListingDelivered(s1, name, i + 1, n);
      FateAfter(s, GetClusterClaims(s1, name, i + 1, n).0.w, Count(n - i - 1));
    } else {
      assert !ReapedIn([]);
    }
  }

  lemma {:induction false} ScaleUpDelivered(s: Sys, cs: seq<Claim>, desired: int)
    requires Inv(s.w) && s.w.sts.None? && Below(s.w.claims, cs, desired)
    requires AllAnswered(s.turns) && |s.turns| >= 2 * |cs|
    ensures ScaleUp(s, cs, desired).1
    decreases |cs|
  {
    if cs != [] {
      var s1 := ReadClaim(s, cs[0].name).0;
      var s2 := UpdateClaim(s1, cs[0].name, desired).0;
      GrownOnce(s, cs[0].name, desired);
      hide Inv, Enter, ReadClaim, UpdateClaim;
      BelowWithout(s.w.claims, cs[1..], desired, cs[0].name, desired);
      assert ScaleUp(s, cs, desired) == ScaleUp(s2, cs[1..], desired);
      hide ScaleUp;
      ScaleUpDelivered(s2, cs[1..], desired);
    }
  }

  // One claim, with both calls answered.
  lemma GrownOnce(s: Sys, name: string, desired: int)
    requires Inv(s.w) && s.w.sts.None? && name in s.w.claims && s.w.claims[name] < desired
    requires AllAnswered(s.turns) && |s.turns| >= 2
    ensures var (s1, r) := ReadClaim(s, name); var (s2, u) := UpdateClaim(s1, name, desired);
            && r.Ok? && u.Ok? && Inv(s2.w) && s2.w.sts.None? && s2.w.claims == s.w.claims[name := desired]
            && s2.turns == s.turns[2..] && AllAnswered(s2.turns)
  {
    var s1 := ReadClaim(s, name).0;
    EnterSteady(s);
    assert s1.w.claims == s.w.claims && s1.w.sts.None? && Inv(s1.w) && s1.turns == s.turns[1..];
    hide Steady, LeftAlone, ActedAll;
    UpdateClaimSteady(s1, name, desired);
    EnterSteady(s1);
    assert Enter(s1).w.claims == s.w.claims by { ClaimsStand(s1.w, Enter(s1).w); }
    InvOfSteady(s1.w, UpdateClaim(s1, name, desired).0.w);
    hide Inv;
  }

  lemma ClaimsStand(w: World, v: World)
    requires LeftAlone(w, v) && !Live(w)
    ensures v.claims == w.claims
  {
  }

  // A terminating StatefulSet is gone before the deletion is tried, or it is
  // still there at the deletion and goes while being waited for.
  predicate GoesInTime(w: World, turns: seq<Turn>)
    requires |turns| >= 2 + RETRIES
  {
    || w.sts.None?
    || (w.sts.value.terminating && Reap in turns[0].env)
    || ((w.sts.value.terminating ==> Reap !in turns[1].env) && ReapedIn(turns[2..2 + RETRIES]))
  }

  lemma RemoveStsExact(s: Sys, rmq: RabbitmqCluster, desired: int)
    requires AllAnswered(s.turns) && |s.turns| >= 2 + RETRIES
    ensures var (v, gone) := RemoveSts(s, rmq, desired);
            (gone <==> GoesInTime(s.w, s.turns)) && |v.turns| >= |s.turns| - 2 - RETRIES && AllAnswered(v.turns)
  {
    var (s1, r) := ReadSts(s);
    Reaping(s.w, s.turns[0].env);
    if r.Ok? {
      Reaping(s1.w, s1.turns[0].env);
      var (s2, d) := DeleteSts(s1, rmq, desired);
      assert s2.turns == s.turns[2..];
      assert s2.turns[..RETRIES] == s.turns[2..2 + RETRIES];
      if d.Ok? { PollGoneExact(s2, RETRIES); }
    }
  }

  // The same, seen from the start of Scale: the read, then r claims listed.
  predicate ScaleInTime(w: World, turns: seq<Turn>, r: nat)
    requires |turns| >= 3 + r + RETRIES
  {
    || w.sts.None?
    || (w.sts.value.terminating && ReapedIn(turns[..r + 2]))
    || ((w.sts.value.terminating ==> Reap !in turns[r + 2].env) && ReapedIn(turns[r + 3..r + 3 + RETRIES]))
  }

  lemma ReapedSplit(a: seq<Turn>, b: seq<Turn>)
    ensures ReapedIn(a + b) <==> ReapedIn(a) || ReapedIn(b)
  {
    if ReapedIn(a) {
      var k :| 0 <= k < |a| && Reap in a[k].env;
      assert (a + b)[k] == a[k];
    }
    if ReapedIn(b) {
      var k :| 0 <= k < |b| && Reap in b[k].env;
      assert (a + b)[|a| + k] == b[k];
    }
  }

  lemma ReapedOne(t: Turn)
    ensures ReapedIn([t]) <==> Reap in t.env
  {
    assert [t][0] == t;
  }

  // The same, seen from the end of the listing.
  lemma InTimeLater(w: World, v: World, turns: seq<Turn>, r: nat)
    requires |turns| >= 3 + r + RETRIES && StsFate(w, v, turns, 1 + r)
    ensures GoesInTime(v, turns[1 + r..]) <==> ScaleInTime(w, turns, r)
  {
    var later := turns[1 + r..];
    assert later[0] == turns[r + 1] && later[1] == turns[r + 2];
    assert later[2..2 + RETRIES] == turns[r + 3..r + 3 + RETRIES];
    assert turns[..r + 2] == turns[..1 + r] + [turns[r + 1]];
    ReapedSplit(turns[..1 + r], [turns[r + 1]]);
    ReapedOne(turns[r + 1]);
    hide ReapedIn;
  }

  lemma ListedInTime(s: Sys, rmq: RabbitmqCluster)
    requires var r := Count(rmq.spec.replicas); AllAnswered(s.turns) && |s.turns| >= 3 + r + RETRIES
    ensures var r := Count(rmq.spec.replicas);
            var (v, cs) := GetClusterClaims(ReadSts(s).0, rmq.name, 0, rmq.spec.replicas);
            && cs.Ok? && |cs.value| <= r && v.turns == s.turns[1 + r..]
            && (GoesInTime(v.w, v.turns) <==> ScaleInTime(s.w, s.turns, r))
  {
    var r := Count(rmq.spec.replicas);
    var s1 := ReadSts(s).0;
    assert s1.turns == s.turns[1..] && s1 == Enter(s) && AllAnswered(s1.turns);
    assert DeleteStatefulSet !in s.turns[0].env && Count(rmq.spec.replicas - 0) == r;
    assert s1.turns[r..] == s.turns[1 + r..];
    hide *;
    ListingAnswered(s1, rmq.name, 0, rmq.spec.replicas);
    ListingDelivered(s1, rmq.name, 0, rmq.spec.replicas);
    var v := GetClusterClaims(s1, rmq.name, 0, rmq.spec.replicas).0;
    FateAfter(s, v.w, r);
    InTimeLater(s.w, v.w, s.turns, r);
  }

  lemma StagesExact(s: Sys, rmq: RabbitmqCluster, desired: int)
    requires Inv(s.w) && rmq.name == s.w.cluster.name && !Stopped(s, rmq, desired)
    requires var g := StagesOf(s, rmq, desired);
             AllAnswered(g.listed.turns) && |g.listed.turns| >= 2 + RETRIES + 2 * |g.claims|
    ensures var g := StagesOf(s, rmq, desired);
            g.ok <==> ClaimsNeedingScaling(g.claims, desired) == [] || GoesInTime(g.listed.w, g.listed.turns)
  {
    StagesAreGood(s, rmq, desired);
    var g := StagesOf(s, rmq, desired);
    var small := ClaimsNeedingScaling(g.claims, desired);
    assert Inv(g.removed.w);
    if small != [] {
      RemoveStsExact(g.listed, rmq, desired);
      if g.gone {
        SmallOnes(g.listed.w, g.claims, desired, "");
        BelowOn(g.listed.w.claims, g.removed.w.claims, small, desired);
        NotMore(g.claims, desired);
        hide Inv, Steady, RemoveSts, ReadSts, GetClusterClaims, ClaimsNeedingScaling, GoesInTime;
        ScaleUpDelivered(g.removed, small, desired);
      }
    }
  }

  // The StatefulSet controller claims no volume in these turns.
  predicate NoneClaimed(turns: seq<Turn>) {
    forall k, e :: 0 <= k < |turns| && e in turns[k].env ==> !e.ClaimVolume?
  }

  lemma {:induction false} ClaimsUnchanged(w: World, es: seq<EnvStep>)
    requires forall k :: 0 <= k < |es| ==> !es[k].ClaimVolume?
    ensures ActedAll(w, es).claims == w.claims
    decreases |es|
  {
    if es != [] { ClaimsUnchanged(Acted(w, es[0]), es[1..]); }
  }

  lemma NoneClaimedLater(turns: seq<Turn>, k: nat)
    requires |turns| > k && NoneClaimed(turns[..k + 1])
    ensures NoneClaimed(turns[1..][..k])
    ensures forall j :: 0 <= j < |turns[0].env| ==> !turns[0].env[j].ClaimVolume?
  {
    assert turns[..k + 1][0] == turns[0];
    forall j, e | 0 <= j < k && e in turns[1..][..k][j].env ensures !e.ClaimVolume? {
      assert turns[1..][..k][j] == turns[..k + 1][j + 1];
    }
  }

  lemma {:induction false} ListingUnclaimed(s: Sys, name: string, i: nat, n: int)
    requires |s.turns| >= Count(n - i) && NoneClaimed(s.turns[..Count(n - i)])
    ensures GetClusterClaims(s, name, i, n).0.w.claims == s.w.claims
    decreases n - i
  {
    if i < n {
      NoneClaimedLater(s.turns, n - i - 1);
      ClaimsUnchanged(s.w, s.turns[0].env);
      var s1 := ReadClaim(s, PVCName(name, i)).0;
      hide ActedAll, PVCName, NoneClaimed;
      ListingUnclaimed(s1, name, i + 1, n);
    }
  }

  // With no volume claimed up to the end of the listing, the claims to grow
  // are those that were below the size at the start.
  lemma ListedAsBefore(s: Sys, rmq: RabbitmqCluster, desired: int)
    requires Inv(s.w) && rmq.name == s.w.cluster.name && !Stopped(s, rmq, desired)
    requires var r := Count(rmq.spec.replicas); |s.turns| >= 1 + r && NoneClaimed(s.turns[..1 + r])
    ensures ClaimsNeedingScaling(StagesOf(s, rmq, desired).claims, desired) != [] ==>
              ClaimBelow(rmq.name, rmq.spec.replicas, s.w.claims, desired)
  {
    var r, s1, g := Count(rmq.spec.replicas), ReadSts(s).0, StagesOf(s, rmq, desired);
    NoneClaimedLater(s.turns, r);
    ClaimsUnchanged(s.w, s.turns[0].env);
    assert Count(rmq.spec.replicas - 0) == r && s1.turns == s.turns[1..] && s1.w.claims == s.w.claims;
    assert g.listed == GetClusterClaims(s1, rmq.name, 0, rmq.spec.replicas).0;
    ListedIsGood(s, rmq, desired);
    assert ListedIn(g.listed.w, g.claims) && OfReplicas(g.claims, rmq.name, 0, rmq.spec.replicas);
    hide *;
    ListingUnclaimed(s1, rmq.name, 0, rmq.spec.replicas);
    if ClaimsNeedingScaling(g.claims, desired) != [] { SmallOnesAreBelow(rmq, g.listed.w, g.claims, desired); }
  }

  // With every call answered, from any state in between - the StatefulSet
  // there, going or gone, any of the claims grown already - a call past its
  // guard is done if the StatefulSet goes in time, and only then if there is
  // a claim to grow. So it is done exactly when the StatefulSet goes in time
  // or no claim is below the size, if none is made before the listing ends.
  lemma ScaleExact(s: Sys, rmq: RabbitmqCluster, desired: int)
    requires var r := Count(rmq.spec.replicas); AllAnswered(s.turns) && |s.turns| >= 3 + r + RETRIES + 2 * r
    requires Inv(s.w) && rmq.name == s.w.cluster.name && Guard(ReadSts(s).1, desired) == Done
    ensures var r := Count(rmq.spec.replicas);
            var o, inTime := Scale(s, rmq, desired).1, ScaleInTime(s.w, s.turns, r);
            var below := ClaimBelow(rmq.name, rmq.spec.replicas, s.w.claims, desired);
            && (o == Done || o == Failure) && (inTime ==> o == Done) && (!inTime && below ==> o == Failure)
            && (NoneClaimed(s.turns[..1 + r]) ==> (o == Done <==> inTime || !below))
  {
    ListedInTime(s, rmq);
    ScaleInStages(s, rmq, desired);
    assert ReadSts(s).1 != Failed && !Stopped(s, rmq, desired);
    hide Inv, Scale, StagesOf, GetClusterClaims, ReadSts, ScaleInTime, GoesInTime, ClaimBelow, NoneClaimed, AllAnswered;
    StagesExact(s, rmq, desired);
    var g := StagesOf(s, rmq, desired);
    if ClaimBelow(rmq.name, rmq.spec.replicas, s.w.claims, desired) { BelowIsListed(s, rmq, desired); }
    if NoneClaimed(s.turns[..1 + Count(rmq.spec.replicas)]) { ListedAsBefore(s, rmq, desired); }
  }

  lemma BelowIsListed(s: Sys, rmq: RabbitmqCluster, desired: int)
    requires Inv(s.w) && rmq.name == s.w.cluster.name && !Stopped(s, rmq, desired)
    requires ClaimBelow(rmq.name, rmq.spec.replicas, s.w.claims, desired)
    ensures ClaimsNeedingScaling(StagesOf(s, rmq, desired).claims, desired) != []
  {
    StagesAreGood(s, rmq, desired);
    var g := StagesOf(s, rmq, desired);
    var i: nat :| i < rmq.spec.replicas && PVCName(rmq.name, i) in s.w.claims
      && s.w.claims[PVCName(rmq.name, i)] < desired;
    NeedingScaling(g.claims, desired, Claim(PVCName(rmq.name, i), s.w.claims[PVCName(rmq.name, i)]));
  }

  lemma {:induction false} NotMore(cs: seq<Claim>, desired: int)
    ensures |ClaimsNeedingScaling(cs, desired)| <= |cs|
  {
    if cs != [] { NotMore(cs[1..], desired); }
  }
}
