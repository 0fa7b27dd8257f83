// When a call of Scale that is done can have missed a claim: the StatefulSet
// controller may claim a volume after the claims were listed.
module LateClaims {
  import opened Rfc3339
  import opened Spec
  import opened ApiServer
  import opened Invariants
  import opened Calls
  import opened Scaling
  import opened Expansion
  import opened Convergence

  /* ---- which claims others can make ---- */

  // From w to v replica i's claim was left alone, or was made as the
  // StatefulSet of w asks for it.
  predicate ClaimedAt(w: World, v: World, i: nat) {
    var n := PVCName(w.cluster.name, i);
    && v.cluster.name == w.cluster.name
    && (Claiming(v, i) ==> Claiming(w, i) && v.sts.value.storage == w.sts.value.storage)
    && (n in w.claims ==> n in v.claims && v.claims[n] == w.claims[n])
    && (n in v.claims && n !in w.claims ==> Claiming(w, i) && v.claims[n] == w.sts.value.storage.value)
  }

  lemma ClaimedTransitive(w: World, v: World, u: World, i: nat)
    requires ClaimedAt(w, v, i) && ClaimedAt(v, u, i)
    ensures ClaimedAt(w, u, i)
  {
  }

  lemma ActedClaims(w: World, e: EnvStep, i: nat)
    ensures ClaimedAt(w, Acted(w, e), i)
  {
    if e.ClaimVolume? { PVCNameInjective(w.cluster.name, i, e.i); }
    hide PVCName, Seconds;
  }

  lemma {:induction false} OthersClaim(w: World, es: seq<EnvStep>, i: nat)
    ensures ClaimedAt(w, ActedAll(w, es), i)
    decreases |es|
  {
    if es != [] {
      var v := Acted(w, es[0]);
      ActedClaims(w, es[0], i);
      OthersClaim(v, es[1..], i);
      hide ClaimedAt, Acted;
      ClaimedTransitive(w, v, ActedAll(w, es), i);
    }
  }

  lemma EnterClaims(s: Sys, i: nat)
    ensures ClaimedAt(s.w, Enter(s).w, i)
  {
    OthersClaim(s.w, if s.turns == [] then [] else s.turns[0].env, i);
  }

  lemma {:induction false} ListingClaims(s: Sys, name: string, j: nat, n: int, i: nat)
    ensures ClaimedAt(s.w, GetClusterClaims(s, name, j, n).0.w, i)
    decreases n - j
  {
    EnterClaims(s, i);
    if j < n {
      ListingClaims(Enter(s), name, j + 1, n, i);
      hide ClaimedAt, Enter;
      ClaimedTransitive(s.w, Enter(s).w, GetClusterClaims(Enter(s), name, j + 1, n).0.w, i);
    }
  }

  lemma {:induction false} PollClaims(s: Sys, retries: nat, i: nat)
    ensures ClaimedAt(s.w, PollGone(s, retries).0.w, i)
    decreases retries
  {
    EnterClaims(s, i);
    if retries > 0 {
      PollClaims(Enter(s), retries - 1, i);
      hide ClaimedAt, Enter;
      ClaimedTransitive(s.w, Enter(s).w, PollGone(Enter(s), retries - 1).0.w, i);
    }
  }

  lemma RemoveClaims(s: Sys, rmq: RabbitmqCluster, desired: int, i: nat)
    ensures ClaimedAt(s.w, RemoveSts(s, rmq, desired).0.w, i)
  {
    var s1 := ReadSts(s).0;
    EnterClaims(s, i);
    EnterClaims(s1, i);
    var s2 := DeleteSts(s1, rmq, desired).0;
    assert ClaimedAt(s1.w, s2.w, i);
    PollClaims(s2, RETRIES, i);
    hide ClaimedAt, Enter, PollGone, DeleteSts;
    ClaimedTransitive(s.w, s1.w, s2.w, i);
    ClaimedTransitive(s.w, s2.w, PollGone(s2, RETRIES).0.w, i);
  }

  /* ---- what becomes of a claim that was not listed ---- */

  // The claim, if it exists in the end, existed when the StatefulSet was
  // removed, and was not touched after.
  lemma UnlistedStays(s: Sys, rmq: RabbitmqCluster, desired: int, i: nat)
    requires Inv(s.w) && rmq.name == s.w.cluster.name && !Stopped(s, rmq, desired)
    requires var g := StagesOf(s, rmq, desired); !Has(g.claims, PVCName(rmq.name, i)) && g.ok
    ensures var g := StagesOf(s, rmq, desired); var n := PVCName(rmq.name, i);
            && (n in g.grown.w.claims <==> n in g.removed.w.claims)
            && (n in g.grown.w.claims ==> g.grown.w.claims[n] == g.removed.w.claims[n])
  {
    StagesAreGood(s, rmq, desired);
    var g := StagesOf(s, rmq, desired);
    var n, small := PVCName(rmq.name, i), ClaimsNeedingScaling(g.claims, desired);
    SmallOnes(g.listed.w, g.claims, desired, n);
    if small != [] {
      BelowOn(g.listed.w.claims, g.removed.w.claims, small, desired);
      assert Inv(g.removed.w);
      hide Inv, Steady, PVCName;
      ScaleUpSteady(g.removed, small, desired);
      ScaleUpGrows(g.removed, small, desired, n);
    }
  }

  // From the read of the StatefulSet to its removal.
  lemma StagesClaim(s: Sys, rmq: RabbitmqCluster, desired: int, i: nat)
    requires !Stopped(s, rmq, desired)
    ensures var g := StagesOf(s, rmq, desired);
            ClaimedAt(s.w, ReadSts(s).0.w, i) && ClaimedAt(ReadSts(s).0.w, g.removed.w, i)
              && ClaimedAt(ReadSts(s).0.w, g.listed.w, i)
  {
    var s1, g := ReadSts(s).0, StagesOf(s, rmq, desired);
    EnterClaims(s, i);
    ListingClaims(s1, rmq.name, 0, rmq.spec.replicas, i);
    RemoveClaims(g.listed, rmq, desired, i);
    hide ClaimedAt, RemoveSts, GetClusterClaims;
    ClaimedTransitive(s1.w, g.listed.w, RemoveSts(g.listed, rmq, desired).0.w, i);
  }

  // A claim there at the first read is listed.
  lemma PresentIsListed(s: Sys, rmq: RabbitmqCluster, desired: int, i: nat)
    requires Inv(s.w) && rmq.name == s.w.cluster.name && !Stopped(s, rmq, desired) && i < rmq.spec.replicas
    requires PVCName(rmq.name, i) in ReadSts(s).0.w.claims
    ensures Has(StagesOf(s, rmq, desired).claims, PVCName(rmq.name, i))
  {
    StagesAreGood(s, rmq, desired);
    var g, w1, n := StagesOf(s, rmq, desired), ReadSts(s).0.w, PVCName(rmq.name, i);
    assert Claim(n, w1.claims[n]) in g.claims;
    HasIsMember(g.claims, n);
  }

  // The last claim looked for is listed if the store has it by then.
  lemma {:induction false} LastIsListed(s: Sys, name: string, j: nat, n: int)
    requires j < n && GetClusterClaims(s, name, j, n).1.Ok?
    ensures var (v, cs) := GetClusterClaims(s, name, j, n);
            PVCName(name, n - 1) in v.w.claims ==> Has(cs.value, PVCName(name, n - 1))
    decreases n - j
  {
    hide PVCName;
    var (s1, r) := ReadClaim(s, PVCName(name, j));
    var (v, cs) := GetClusterClaims(s1, name, j + 1, n);
    if j == n - 1 {
      assert cs == Ok([]) && v == s1;
      var found := if r.Ok? then [Claim(PVCName(name, j), r.value)] else [];
      assert found + [] == found;
    } else {
      LastIsListed(s1, name, j + 1, n);
      var found := if r.Ok? then [Claim(PVCName(name, j), r.value)] else [];
      assert r.Ok? ==> (found + cs.value)[1..] == cs.value;
      assert !r.Ok? ==> found + cs.value == cs.value;
    }
  }

  /* ---- the condition ---- */

  // Replica i's claim can be missed: it is not there, the StatefulSet asks for
  // it in a size that is too small but not refused, and there is a call left
  // after it was looked for.
  predicate CanMissAt(w: World, rmq: RabbitmqCluster, desired: int, i: nat) {
    && i < rmq.spec.replicas && PVCName(rmq.name, i) !in w.claims && Claiming(w, i)
    && w.sts.value.storage.value != 0 && w.sts.value.storage.value < desired
    && (i < rmq.spec.replicas - 1 || ClaimBelow(rmq.name, rmq.spec.replicas, w.claims, desired))
  }

  ghost predicate CanMiss(w: World, rmq: RabbitmqCluster, desired: int) {
    exists i: nat :: CanMissAt(w, rmq, desired, i)
  }

  // If the call is done then replica i's claim is not too small.
  predicate Promise(w: World, turns: seq<Turn>, rmq: RabbitmqCluster, desired: int, i: nat) {
    var (v, o) := Scale(Sys(w, turns), rmq, desired);
    o == Done && i < rmq.spec.replicas && PVCName(rmq.name, i) in v.w.claims ==>
      v.w.claims[PVCName(rmq.name, i)] >= desired
  }

  // Only the last claim may be absent and none is too small: then, unless the
  // last one was listed, nothing was to be grown and no call came after.
  predicate AllLargeBut(w: World, name: string, i: nat, desired: int) {
    forall k: nat :: k < i ==> PVCName(name, k) in w.claims && w.claims[PVCName(name, k)] >= desired
  }

  lemma ListedOthersLarge(w: World, v: World, cs: seq<Claim>, name: string, i: nat, desired: int, c: Claim)
    requires AllLargeBut(w, name, i, desired) && ClaimsLeft(w, v) && ListedIn(v, cs) && OfReplicas(cs, name, 0, i + 1)
    requires !Has(cs, PVCName(name, i)) && c in cs
    ensures c.capacity >= desired
  {
    hide PVCName;
    var k: nat :| k < i + 1 && c.name == PVCName(name, k);
    HasIsMember(cs, PVCName(name, i));
    assert PVCName(name, k) in w.claims;
  }

  lemma OnlyLastAbsent(s: Sys, rmq: RabbitmqCluster, desired: int, i: nat)
    requires Inv(s.w) && rmq.name == s.w.cluster.name && !Stopped(s, rmq, desired) && i == rmq.spec.replicas - 1
    requires AllLargeBut(s.w, rmq.name, i, desired) && !Has(StagesOf(s, rmq, desired).claims, PVCName(rmq.name, i))
    ensures PVCName(rmq.name, i) !in StagesOf(s, rmq, desired).grown.w.claims
  {
    StagesAreGood(s, rmq, desired);
    var g, s1 := StagesOf(s, rmq, desired), ReadSts(s).0;
    assert g.listed == GetClusterClaims(s1, rmq.name, 0, rmq.spec.replicas).0;
    assert Ok(g.claims) == GetClusterClaims(s1, rmq.name, 0, rmq.spec.replicas).1;
    assert ClaimsLeft(s.w, g.listed.w) && ListedIn(g.listed.w, g.claims) && OfReplicas(g.claims, rmq.name, 0, i + 1);
    assert ClaimsNeedingScaling(g.claims, desired) == [] ==> g.grown == g.listed;
    hide *;
    LastIsListed(s1, rmq.name, 0, rmq.spec.replicas);
    var small := ClaimsNeedingScaling(g.claims, desired);
    if small != [] {
      NeedingScaling(g.claims, desired, small[0]);
      ListedOthersLarge(s.w, g.listed.w, g.claims, rmq.name, i, desired, small[0]);
    }
  }

  lemma NoneMissed(s: Sys, rmq: RabbitmqCluster, desired: int, i: nat)
    requires Inv(s.w) && rmq.name == s.w.cluster.name && !CanMiss(s.w, rmq, desired)
    ensures Promise(s.w, s.turns, rmq, desired, i)
  {
    var n, g := PVCName(rmq.name, i), Scale(s, rmq, desired);
    ScaleInStages(s, rmq, desired);
    if g.1 == Done && i < rmq.spec.replicas && n in g.0.w.claims {
      NotMissed(s, rmq, desired, i);
    }
  }

  lemma NotMissed(s: Sys, rmq: RabbitmqCluster, desired: int, i: nat)
    requires Inv(s.w) && rmq.name == s.w.cluster.name && !CanMiss(s.w, rmq, desired) && i < rmq.spec.replicas
    requires !Stopped(s, rmq, desired) && StagesOf(s, rmq, desired).ok
    requires PVCName(rmq.name, i) in StagesOf(s, rmq, desired).grown.w.claims
    ensures StagesOf(s, rmq, desired).grown.w.claims[PVCName(rmq.name, i)] >= desired
  {
    var n, g, w1 := PVCName(rmq.name, i), StagesOf(s, rmq, desired), ReadSts(s).0.w;
    StageAt(s, rmq, desired, n);
    if !Has(g.claims, n) {
      UnlistedStays(s, rmq, desired, i);
      StagesClaim(s, rmq, desired, i);
      if n in w1.claims {
        PresentIsListed(s, rmq, desired, i);
      } else {
        ReadTellsSts(s, desired);
        assert Claiming(w1, i) && Claiming(s.w, i) && n !in s.w.claims;
        assert g.grown.w.claims[n] == s.w.sts.value.storage.value;
        if g.grown.w.claims[n] < desired {
          assert !CanMissAt(s.w, rmq, desired, i);
          forall k: nat | k < i
            ensures PVCName(rmq.name, k) in s.w.claims && s.w.claims[PVCName(rmq.name, k)] >= desired
          {
            assert !CanMissAt(s.w, rmq, desired, k);
          }
          assert AllLargeBut(s.w, rmq.name, i, desired);
          OnlyLastAbsent(s, rmq, desired, i);
        }
      }
    }
  }

  // Past the guard, a StatefulSet that was there to be read has a size that
  // Scale does not refuse.
  lemma ReadTellsSts(s: Sys, desired: int)
    ensures var (s1, r) := ReadSts(s);
            !r.Failed? && Guard(r, desired) == Done && s1.w.sts.Some? && s1.w.sts.value.storage.Some? ==>
              s1.w.sts.value.storage.value != 0 || desired == 0
  {
  }

  /* ---- and when it holds, a claim is missed ---- */

  const OK_TURN := Turn([], Delivered)

  function OkTurns(n: nat): seq<Turn> {
    seq(n, _ => OK_TURN)
  }

  function ClaimTurn(i: nat): Turn {
    Turn([ClaimVolume(i)], Delivered)
  }

  // After the listing others claim the volume, and reap when the StatefulSet
  // was deleted.
  function AfterListing(r: nat, i: nat): seq<Turn> {
    OkTurns(1 + r) + [ClaimTurn(i), OK_TURN, Turn([Reap], Delivered)] + OkTurns(RETRIES + 2 * r)
  }

  // At the last call of the listing others claim the volume.
  function DuringListing(r: nat, i: nat): seq<Turn> {
    OkTurns(r) + [ClaimTurn(i)]
  }

  lemma QuietRead(s: Sys)
    requires s.turns != [] && s.turns[0] == OK_TURN
    ensures Enter(s) == Sys(s.w, s.turns[1..]) && FateOf(s) == Delivered
  {
  }

  lemma {:induction false} ListingQuiet(s: Sys, name: string, j: nat, n: int)
    requires |s.turns| >= Count(n - j) && forall k :: 0 <= k < Count(n - j) ==> s.turns[k] == OK_TURN
    ensures var (v, cs) := GetClusterClaims(s, name, j, n); cs.Ok? && v == Sys(s.w, s.turns[Count(n - j)..])
    decreases n - j
  {
    if j < n {
      QuietRead(s);
      ListingQuiet(Enter(s), name, j + 1, n);
    }
  }

  lemma {:induction false} ListingLate(s: Sys, name: string, j: nat, n: int, i: nat)
    requires j < n && i < n - 1 && |s.turns| >= n - j && name == s.w.cluster.name
    requires s.turns[n - j - 1] == ClaimTurn(i) && forall k :: 0 <= k < n - j - 1 ==> s.turns[k] == OK_TURN
    ensures var (v, cs) := GetClusterClaims(s, name, j, n);
            && cs.Ok? && v.w == Acted(s.w, ClaimVolume(i))
            && (forall c :: c in cs.value ==>
                  exists k ::
                    && j <= k < n && c.name == PVCName(name, k)
                    && c.name in s.w.claims && c.capacity == s.w.claims[c.name])
    decreases n - j
  {
    hide PVCName;
    var (s1, r) := ReadClaim(s, PVCName(name, j));
    if j == n - 1 {
      PVCNameInjective(name, i, j);
      ClaimTurnActs(s, i);
      assert GetClusterClaims(s1, name, j + 1, n) == (s1, Ok([]));
    } else {
      QuietRead(s);
      ListingLate(s1, name, j + 1, n, i);
    }
  }

  // What the first read of the removal shows stays.
  lemma RemoveKeepsRead(s: Sys, rmq: RabbitmqCluster, desired: int)
    requires Inv(s.w) && ClaimBelow(rmq.name, rmq.spec.replicas, s.w.claims, desired) && rmq.name == s.w.cluster.name
    ensures ClaimsLeft(ReadSts(s).0.w, RemoveSts(s, rmq, desired).0.w)
  {
    var (s1, r) := ReadSts(s);
    ReadIsRemovalStep(s);
    assert Inv(s1.w) && ClaimsLeft(s.w, s1.w) && s1.w.cluster.name == rmq.name;
    hide Steady, Inv, Live, PollGone, DeleteSts, ReadSts, ClaimBelow;
    ClaimBelowOn(s.w, s1.w, rmq, desired);
    if r.Ok? {
      DeleteIsRemovalStep(s1, rmq, desired);
      var (s2, d) := DeleteSts(s1, rmq, desired);
      PollIsRemovalStep(s2, RETRIES);
      if d.Ok? { RemovalTransitive(s1.w, s2.w, PollGone(s2, RETRIES).0.w); }
    }
  }

  lemma AfterListingAnswered(r: nat, i: nat)
    ensures var turns := AfterListing(r, i);
            && AllAnswered(turns) && |turns| == 4 + r + RETRIES + 2 * r && turns[0] == OK_TURN
            && turns[1 + r..][0] == ClaimTurn(i) && (forall k :: 0 <= k < r ==> turns[1..][k] == OK_TURN)
            && ReapedIn(turns[r + 3..r + 3 + RETRIES])
  {
    var turns := AfterListing(r, i);
    assert turns[r + 3..r + 3 + RETRIES][0] == Turn([Reap], Delivered);
  }

  // Up to the end of the listing nobody acts ...
  lemma ListedQuietly(s: Sys, rmq: RabbitmqCluster, desired: int)
    requires var r := Count(rmq.spec.replicas);
             && |s.turns| > r && s.turns[0] == OK_TURN
             && forall k :: 0 <= k < r ==> s.turns[1..][k] == OK_TURN
    requires s.w.sts.Some? && Guard(Ok(s.w.sts.value), desired) == Done
    ensures !Stopped(s, rmq, desired) && Guard(ReadSts(s).1, desired) == Done
    ensures StagesOf(s, rmq, desired).listed == Sys(s.w, s.turns[1 + Count(rmq.spec.replicas)..])
  {
    var r, s1 := Count(rmq.spec.replicas), Sys(s.w, s.turns[1..]);
    QuietRead(s);
    assert ReadSts(s) == (s1, Ok(s.w.sts.value));
    assert s1.turns[r..] == s.turns[1 + r..] && Count(rmq.spec.replicas - 0) == r;
    hide Count, ReadSts;
    ListingQuiet(s1, rmq.name, 0, rmq.spec.replicas);
    hide GetClusterClaims;
  }

  // ... and the call goes on to its end.
  lemma ListedThenDone(w: World, rmq: RabbitmqCluster, desired: int, i: nat)
    requires Inv(w) && rmq.name == w.cluster.name && CanMissAt(w, rmq, desired, i)
    ensures var s := Sys(w, AfterListing(rmq.spec.replicas, i));
            && !Stopped(s, rmq, desired)
            && var g := StagesOf(s, rmq, desired);
               g.ok && g.listed == Sys(w, s.turns[1 + rmq.spec.replicas..])
  {
    var s := Sys(w, AfterListing(rmq.spec.replicas, i));
    AfterListingAnswered(rmq.spec.replicas, i);
    assert Count(rmq.spec.replicas) == rmq.spec.replicas;
    assert ScaleInTime(w, s.turns, rmq.spec.replicas) by { hide AfterListing; }
    hide AfterListing, Inv, ScaleInTime, AllAnswered, ReapedIn, Count, Stopped, StagesOf, Scale, ReadSts;
    ListedQuietly(s, rmq, desired);
    ScaleExact(s, rmq, desired);
    ScaleInStages(s, rmq, desired);
  }

  lemma MissedAfterListing(w: World, rmq: RabbitmqCluster, desired: int, i: nat)
    requires Inv(w) && rmq.name == w.cluster.name && CanMissAt(w, rmq, desired, i)
    requires ClaimBelow(rmq.name, rmq.spec.replicas, w.claims, desired)
    ensures !Promise(w, AfterListing(rmq.spec.replicas, i), rmq, desired, i)
  {
    var r, n := rmq.spec.replicas, PVCName(rmq.name, i);
    var s := Sys(w, AfterListing(r, i));
    AfterListingAnswered(r, i);
    ListedThenDone(w, rmq, desired, i);
    ScaleInStages(s, rmq, desired);
    var g := StagesOf(s, rmq, desired);
    BelowIsListed(s, rmq, desired);
    ClaimIsMade(g.listed, i);
    StagesAreGood(s, rmq, desired);
    SmallOnes(w, g.claims, desired, n);
    RemoveKeepsRead(g.listed, rmq, desired);
    UnlistedStays(s, rmq, desired, i);
    RemoveClaims(g.listed, rmq, desired, i);
    hide *;
    assert n in g.removed.w.claims;
  }

  lemma ClaimTurnActs(s: Sys, i: nat)
    requires s.turns != [] && s.turns[0] == ClaimTurn(i)
    ensures Enter(s) == Sys(Acted(s.w, ClaimVolume(i)), s.turns[1..]) && FateOf(s) == Delivered
  {
    assert ActedAll(Acted(s.w, ClaimVolume(i)), []) == Acted(s.w, ClaimVolume(i));
    assert [ClaimVolume(i)][1..] == [];
  }

  lemma ClaimIsMade(s: Sys, i: nat)
    requires s.turns != [] && s.turns[0] == ClaimTurn(i) && Claiming(s.w, i)
    ensures PVCName(s.w.cluster.name, i) in Enter(s).w.claims
  {
    ClaimTurnActs(s, i);
  }

  lemma MissedDuringListing(w: World, rmq: RabbitmqCluster, desired: int, i: nat)
    requires Inv(w) && rmq.name == w.cluster.name && CanMissAt(w, rmq, desired, i)
    requires !ClaimBelow(rmq.name, rmq.spec.replicas, w.claims, desired)
    ensures !Promise(w, DuringListing(rmq.spec.replicas, i), rmq, desired, i)
  {
    var r, n := rmq.spec.replicas, PVCName(rmq.name, i);
    var turns := DuringListing(r, i);
    var s := Sys(w, turns);
    QuietRead(s);
    var s1 := ReadSts(s).0;
    assert s1 == Sys(w, turns[1..]) && Guard(ReadSts(s).1, desired) == Done;
    ListingLate(s1, rmq.name, 0, r, i);
    var (v, cs) := GetClusterClaims(s1, rmq.name, 0, r);
    var small := ClaimsNeedingScaling(cs.value, desired);
    hide PVCName, GetClusterClaims;
    forall c | c in cs.value ensures c.capacity >= desired {
      var k :| 0 <= k < r && c.name == PVCName(rmq.name, k) && c.name in w.claims && c.capacity == w.claims[c.name];
    }
    if small != [] { NeedingScaling(cs.value, desired, small[0]); }
    assert Scale(s, rmq, desired) == (Note(v, DoneEvent(s, rmq, desired, cs.value)), Done);
  }

  // Scale's promise - when it is done no claim of the cluster is too small -
  // holds of a state, whatever others do and whichever calls fail, exactly
  // when no claim can be missed.
  lemma NilMeansNoneLeft(w: World, rmq: RabbitmqCluster, desired: int)
    requires Inv(w) && rmq.name == w.cluster.name
    ensures (forall turns, i: nat :: Promise(w, turns, rmq, desired, i)) <==> !CanMiss(w, rmq, desired)
  {
    if CanMiss(w, rmq, desired) {
      var i: nat :| CanMissAt(w, rmq, desired, i);
      if ClaimBelow(rmq.name, rmq.spec.replicas, w.claims, desired) {
        MissedAfterListing(w, rmq, desired, i);
      } else {
        MissedDuringListing(w, rmq, desired, i);
      }
    } else {
      forall turns, i: nat ensures Promise(w, turns, rmq, desired, i) {
        NoneMissed(Sys(w, turns), rmq, desired, i);
      }
    }
  }
}
