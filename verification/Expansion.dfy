// What Scale does to the claims, whatever others do and whichever calls fail.
module Expansion {
  import opened Text
  import opened Spec
  import opened ApiServer
  import opened Invariants
  import opened Calls
  import opened Scaling

  /* ---- listing the claims ---- */

  // The claims as listed are claims of the store, each listed once.
  ghost predicate ListedIn(w: World, cs: seq<Claim>) {
    && (forall c :: c in cs ==> c.name in w.claims && w.claims[c.name] == c.capacity)
    && (forall i, j :: 0 <= i < j < |cs| ==> cs[i].name != cs[j].name)
  }

  // Each is the claim of one of the replicas i .. n-1.
  ghost predicate OfReplicas(cs: seq<Claim>, name: string, i: nat, n: int) {
    forall c :: c in cs ==> exists k :: i <= k < n && c.name == PVCName(name, k)
  }

  // Every claim of these replicas that the store held is listed.
  ghost predicate Complete(w: World, cs: seq<Claim>, name: string, i: nat, n: int) {
    forall k :: i <= k < n && PVCName(name, k) in w.claims ==> Claim(PVCName(name, k), w.claims[PVCName(name, k)]) in cs
  }

  predicate ClaimsLeft(w: World, v: World) {
    forall n :: n in w.claims ==> n in v.claims && v.claims[n] == w.claims[n]
  }

  lemma {:induction false} ListingIsReading(s: Sys, name: string, i: nat, n: int)
    requires Inv(s.w)
    ensures LeftAlone(s.w, GetClusterClaims(s, name, i, n).0.w) && Steady(s.w, GetClusterClaims(s, name, i, n).0.w)
    decreases n - i
  {
    if i < n {
      var (s1, r) := ReadClaim(s, PVCName(name, i));
      EnterSteady(s);
      ListingIsReading(s1, name, i + 1, n);
      var s2 := GetClusterClaims(s1, name, i + 1, n).0;
      SteadyTransitive(s.w, s1.w, s2.w);
      LeftAloneTransitive(s.w, s1.w, s2.w);
    }
  }

  lemma Prepended(w: World, v: World, c: Option<Claim>, cs: seq<Claim>, name: string, i: nat, n: int)
    requires ClaimsLeft(w, v) && ListedIn(v, cs) && OfReplicas(cs, name, i + 1, n) && Complete(w, cs, name, i + 1, n)
    requires i < n
    requires if c.Some? then c.value.name == PVCName(name, i) && c.value.name in w.claims
      && w.claims[c.value.name] == c.value.capacity
             else PVCName(name, i) !in w.claims
    ensures var all := (if c.Some? then [c.value] else []) + cs;
            ListedIn(v, all) && OfReplicas(all, name, i, n) && Complete(w, all, name, i, n)
  {
    hide PVCName;
    var all := (if c.Some? then [c.value] else []) + cs;
    forall d | d in all ensures exists k :: i <= k < n && d.name == PVCName(name, k) {
      if d in cs {
        var k :| i + 1 <= k < n && d.name == PVCName(name, k);
      } else {
        assert d.name == PVCName(name, i);
      }
    }
    forall d | c.Some? && d in cs ensures d.name != c.value.name {
      var k :| i + 1 <= k < n && d.name == PVCName(name, k);
      PVCNameInjective(name, i, k);
    }
    forall k | i <= k < n && PVCName(name, k) in w.claims
      ensures Claim(PVCName(name, k), w.claims[PVCName(name, k)]) in all
    {
      if k > i { assert Claim(PVCName(name, k), w.claims[PVCName(name, k)]) in cs; }
    }
  }

  lemma {:induction false} ListingIsExact(s: Sys, name: string, i: nat, n: int)
    requires Inv(s.w)
    ensures var (v, r) := GetClusterClaims(s, name, i, n);
            r.Ok? ==> ListedIn(v.w, r.value) && OfReplicas(r.value, name, i, n) && Complete(s.w, r.value, name, i, n)
    decreases n - i
  {
    var (v, r) := GetClusterClaims(s, name, i, n);
    if i < n && r.Ok? {
      var (s1, read) := ReadClaim(s, PVCName(name, i));
      EnterSteady(s);
      ListingIsExact(s1, name, i + 1, n);
      ListingIsReading(s1, name, i + 1, n);
      var (s2, rest) := GetClusterClaims(s1, name, i + 1, n);
      var c := if read.Ok? then Some(Claim(PVCName(name, i), read.value)) else None;
      assert ClaimsLeft(s1.w, v.w) && ClaimsLeft(s.w, s1.w);
      assert read.Ok? ==> PVCName(name, i) in s1.w.claims && s1.w.claims[PVCName(name, i)] == read.value;
      assert read.NotFound? ==> PVCName(name, i) !in s1.w.claims;
      assert r.value == (if c.Some? then [c.value] else []) + rest.value && v == s2;
      hide *;
      Prepended(s1.w, v.w, c, rest.value, name, i, n);
      assert Complete(s.w, r.value, name, i, n) by { CompleteEarlier(s.w, s1.w, r.value, name, i, n); }
    }
  }

  lemma CompleteEarlier(w: World, v: World, cs: seq<Claim>, name: string, i: nat, n: int)
    requires ClaimsLeft(w, v) && Complete(v, cs, name, i, n)
    ensures Complete(w, cs, name, i, n)
  {
  }

  /* ---- removing the StatefulSet ---- */

  lemma {:induction false} PollGoneReads(s: Sys, retries: nat)
    requires Inv(s.w)
    ensures var (v, gone) := PollGone(s, retries);
            Steady(s.w, v.w) && LeftAlone(s.w, v.w) && (gone ==> v.w.sts.None?)
    decreases retries
  {
    if retries > 0 {
      var (s1, r) := ReadSts(s);
      EnterSteady(s);
      if !r.NotFound? {
        PollGoneReads(s1, retries - 1);
        var v := PollGone(s1, retries - 1).0;
        SteadyTransitive(s.w, s1.w, v.w);
        LeftAloneTransitive(s.w, s1.w, v.w);
      }
    }
  }

  // A step of the removal: nothing but the StatefulSet goes.
  ghost predicate RemovalStep(w: World, v: World) {
    && Inv(v) && Steady(w, v) && ClaimsLeft(w, v) && v.cluster.name == w.cluster.name
    && (!Live(w) ==> !Live(v) && v.claims == w.claims)
  }

  lemma RemovalTransitive(w: World, v: World, u: World)
    requires Inv(w) && RemovalStep(w, v) && RemovalStep(v, u)
    ensures RemovalStep(w, u)
  {
    SteadyTransitive(w, v, u);
  }

  lemma ReadIsRemovalStep(s: Sys)
    requires Inv(s.w)
    ensures var (s1, r) := ReadSts(s); RemovalStep(s.w, s1.w) && (r.NotFound? ==> s1.w.sts.None?)
  {
    EnterSteady(s);
  }

  lemma DeleteIsRemovalStep(s: Sys, rmq: RabbitmqCluster, desired: int)
    requires Inv(s.w) && ClaimBelow(rmq.name, rmq.spec.replicas, s.w.claims, desired) && rmq.name == s.w.cluster.name
    ensures var (v, r) := DeleteSts(s, rmq, desired); RemovalStep(s.w, v.w) && (r.Ok? ==> !Live(v.w))
  {
    DeleteStsSteady(s, rmq, desired);
    hide DeleteSts, Inv;
  }

  lemma PollIsRemovalStep(s: Sys, retries: nat)
    requires Inv(s.w)
    ensures var (v, gone) := PollGone(s, retries); RemovalStep(s.w, v.w) && (gone ==> v.w.sts.None?)
  {
    PollGoneReads(s, retries);
    hide PollGone, Inv;
  }

  lemma RemoveStsRemoves(s: Sys, rmq: RabbitmqCluster, desired: int)
    requires Inv(s.w) && ClaimBelow(rmq.name, rmq.spec.replicas, s.w.claims, desired) && rmq.name == s.w.cluster.name
    ensures var (v, gone) := RemoveSts(s, rmq, desired); RemovalStep(s.w, v.w) && (gone ==> v.w.sts.None?)
  {
    var (s1, r) := ReadSts(s);
    ReadIsRemovalStep(s);
    assert Inv(s1.w) && ClaimsLeft(s.w, s1.w) && s1.w.cluster.name == rmq.name;
    hide Steady, Inv, Live, PollGone, DeleteSts, ReadSts, ClaimBelow;
    ClaimBelowOn(s.w, s1.w, rmq, desired);
    if r.Ok? {
      DeleteIsRemovalStep(s1, rmq, desired);
      var (s2, d) := DeleteSts(s1, rmq, desired);
      RemovalTransitive(s.w, s1.w, s2.w);
      PollIsRemovalStep(s2, RETRIES);
      if d.Ok? { RemovalTransitive(s.w, s2.w, PollGone(s2, RETRIES).0.w); }
    }
  }

  lemma ClaimBelowOn(w: World, v: World, rmq: RabbitmqCluster, desired: int)
    requires ClaimBelow(rmq.name, rmq.spec.replicas, w.claims, desired) && ClaimsLeft(w, v)
    ensures ClaimBelow(rmq.name, rmq.spec.replicas, v.claims, desired)
  {
    var i :| 0 <= i < rmq.spec.replicas && PVCName(rmq.name, i) in w.claims && w.claims[PVCName(rmq.name, i)] < desired;
    assert PVCName(rmq.name, i) in v.claims;
  }

  /* ---- growing the claims ---- */

  predicate Has(cs: seq<Claim>, name: string) {
    cs != [] && (cs[0].name == name || Has(cs[1..], name))
  }

  // Different claims of the store, all below the size.
  predicate Below(claims: map<string, int>, cs: seq<Claim>, desired: int) {
    cs != [] ==>
      && cs[0].name in claims && claims[cs[0].name] < desired && !Has(cs[1..], cs[0].name)
      && Below(claims, cs[1..], desired)
  }

  lemma {:induction false} BelowWithout(claims: map<string, int>, cs: seq<Claim>, desired: int, name: string,
    capacity: int)
    requires Below(claims, cs, desired) && !Has(cs, name)
    ensures Below(claims[name := capacity], cs, desired)
  {
    if cs != [] { BelowWithout(claims, cs[1..], desired, name, capacity); }
  }

  // Each claim of the list is grown or, when the call failed, perhaps not yet;
  // all other claims stay as they are.
  predicate GrownAt(a: map<string, int>, b: map<string, int>, cs: seq<Claim>, desired: int, all: bool, n: string) {
    n in a ==> n in b && (if Has(cs, n) then b[n] == desired || (!all && b[n] == a[n]) else b[n] == a[n])
  }

  lemma {:induction false} ScaleUpSteady(s: Sys, cs: seq<Claim>, desired: int)
    requires Inv(s.w) && s.w.sts.None? && Below(s.w.claims, cs, desired)
    ensures var (v, ok) := ScaleUp(s, cs, desired);
            Steady(s.w, v.w) && v.w.sts.None? && v.w.claims.Keys == s.w.claims.Keys
    decreases |cs|
  {
    if cs != [] {
      var (s1, r) := ReadClaim(s, cs[0].name);
      EnterSteady(s);
      assert s1.w.claims == s.w.claims && s1.w.sts.None?;
      UpdateClaimSteady(s1, cs[0].name, desired);
      var (s2, u) := UpdateClaim(s1, cs[0].name, desired);
      assert Inv(s1.w) && Inv(s2.w);
      SteadyTransitive(s.w, s1.w, s2.w);
      BelowWithout(s1.w.claims, cs[1..], desired, cs[0].name, desired);
      if r.Ok? && u.Ok? {
        assert ScaleUp(s, cs, desired) == ScaleUp(s2, cs[1..], desired);
        hide *;
        ScaleUpSteady(s2, cs[1..], desired);
        SteadyTransitive(s.w, s2.w, ScaleUp(s2, cs[1..], desired).0.w);
      }
    }
  }

  lemma {:induction false} ScaleUpGrows(s: Sys, cs: seq<Claim>, desired: int, n: string)
    requires Inv(s.w) && s.w.sts.None? && Below(s.w.claims, cs, desired)
    ensures var (v, ok) := ScaleUp(s, cs, desired); GrownAt(s.w.claims, v.w.claims, cs, desired, ok, n)
    decreases |cs|
  {
    if cs != [] {
      var (s1, r) := ReadClaim(s, cs[0].name);
      EnterSteady(s);
      assert s1.w.claims == s.w.claims && s1.w.sts.None?;
      UpdateClaimSteady(s1, cs[0].name, desired);
      var (s2, u) := UpdateClaim(s1, cs[0].name, desired);
      assert Inv(s1.w) && Inv(s2.w);
      BelowWithout(s1.w.claims, cs[1..], desired, cs[0].name, desired);
      assert s2.w.claims == s.w.claims || s2.w.claims == s.w.claims[cs[0].name := desired];
      if r.Ok? && u.Ok? {
        assert ScaleUp(s, cs, desired) == ScaleUp(s2, cs[1..], desired);
        assert s2.w.claims == s.w.claims[cs[0].name := desired] && s2.w.sts.None?;
        hide Inv, Steady, ScaleUp, Enter, ReadClaim, UpdateClaim, LeftAlone;
        ScaleUpGrows(s2, cs[1..], desired, n);
      }
    }
  }

  lemma {:induction false} SmallOnes(w: World, cs: seq<Claim>, desired: int, n: string)
    requires ListedIn(w, cs)
    ensures Below(w.claims, ClaimsNeedingScaling(cs, desired), desired)
    ensures Has(cs, n) ==> n in w.claims
    ensures Has(ClaimsNeedingScaling(cs, desired), n) <==> Has(cs, n) && w.claims[n] < desired
  {
    if cs != [] {
      forall i, j | 0 <= i < j < |cs[1..]| ensures cs[1..][i].name != cs[1..][j].name {
        assert cs[1..][i] == cs[i + 1] && cs[1..][j] == cs[j + 1];
      }
      assert ListedIn(w, cs[1..]);
      SmallOnes(w, cs[1..], desired, n);
      SmallOnes(w, cs[1..], desired, cs[0].name);
      HasIsMember(cs[1..], cs[0].name);
      assert cs[0] in cs;
      var small := ClaimsNeedingScaling(cs[1..], desired);
      assert ([cs[0]] + small)[1..] == small;
      assert [] + small == small;
    }
  }

  lemma {:induction false} HasIsMember(cs: seq<Claim>, n: string)
    ensures Has(cs, n) <==> exists k :: 0 <= k < |cs| && cs[k].name == n
  {
    if cs != [] {
      HasIsMember(cs[1..], n);
      if Has(cs[1..], n) {
        var k :| 0 <= k < |cs[1..]| && cs[1..][k].name == n;
        assert cs[k + 1].name == n;
      }
      if k :| 0 <= k < |cs| && cs[k].name == n {
        if k > 0 { assert cs[1..][k - 1].name == n; }
      }
    }
  }

  lemma SmallOnesAreBelow(rmq: RabbitmqCluster, w: World, cs: seq<Claim>, desired: int)
    requires ListedIn(w, cs) && OfReplicas(cs, rmq.name, 0, rmq.spec.replicas)
    requires ClaimsNeedingScaling(cs, desired) != []
    ensures ClaimBelow(rmq.name, rmq.spec.replicas, w.claims, desired)
  {
    var c := ClaimsNeedingScaling(cs, desired)[0];
    NeedingScaling(cs, desired, c);
    var k: nat :| k < rmq.spec.replicas && c.name == PVCName(rmq.name, k);
    assert PVCName(rmq.name, k) in w.claims;
  }

  /* ---- Scale ---- */

  // The stages of a call that got past its guard and its listing.
  datatype Stages = Stages(listed: Sys, claims: seq<Claim>, removed: Sys, gone: bool, grown: Sys, ok: bool)

  function StagesOf(s: Sys, rmq: RabbitmqCluster, desired: int): Stages
    requires GetClusterClaims(ReadSts(s).0, rmq.name, 0, rmq.spec.replicas).1.Ok?
  {
    var (s2, claims) := GetClusterClaims(ReadSts(s).0, rmq.name, 0, rmq.spec.replicas);
    var small := ClaimsNeedingScaling(claims.value, desired);
    if small == [] then Stages(s2, claims.value, s2, true, s2, true)
    else
      var (s3, gone) := RemoveSts(s2, rmq, desired);
      var (s4, ok) := if gone then ScaleUp(s3, small, desired) else (s3, false);
      Stages(s2, claims.value, s3, gone, s4, ok)
  }

  // What a call that is done records.
  function DoneEvent(s: Sys, rmq: RabbitmqCluster, desired: int, cs: seq<Claim>): Event {
    Scaled(rmq.name, rmq.spec.replicas, desired, ReadSts(s).0.w.claims, Names(cs))
  }

  predicate Stopped(s: Sys, rmq: RabbitmqCluster, desired: int) {
    var (s1, r) := ReadSts(s);
    r.Failed? || Guard(r, desired) != Done || !GetClusterClaims(s1, rmq.name, 0, rmq.spec.replicas).1.Ok?
  }

  lemma ScaleInStages(s: Sys, rmq: RabbitmqCluster, desired: int)
    ensures var (v, o) := Scale(s, rmq, desired); var s1 := ReadSts(s).0;
            if Stopped(s, rmq, desired) then
              o != Done && (v == s1 || v == GetClusterClaims(s1, rmq.name, 0, rmq.spec.replicas).0)
            else var g := StagesOf(s, rmq, desired);
              && (o == Done <==> g.ok)
              && v == if g.ok then Note(g.grown, DoneEvent(s, rmq, desired, g.claims)) else g.grown
  {
    hide ReadSts, GetClusterClaims, RemoveSts, ScaleUp;
  }

  // How the store develops over the stages.
  ghost predicate StagesGood(s: Sys, rmq: RabbitmqCluster, desired: int, g: Stages) {
    && Steady(s.w, g.listed.w) && Steady(g.listed.w, g.removed.w) && Steady(g.removed.w, g.grown.w)
    && Shaped(ReadSts(s).0.w, g.listed.w)
    && ClaimsLeft(s.w, g.listed.w) && ClaimsLeft(g.listed.w, g.removed.w)
    && ListedIn(g.listed.w, g.claims) && OfReplicas(g.claims, rmq.name, 0, rmq.spec.replicas)
    && Complete(ReadSts(s).0.w, g.claims, rmq.name, 0, rmq.spec.replicas)
    && Complete(s.w, g.claims, rmq.name, 0, rmq.spec.replicas)
    && (g.ok ==> g.gone)
    && (!Live(s.w) ==> g.grown.w.claims.Keys == s.w.claims.Keys)
    && (ClaimsNeedingScaling(g.claims, desired) == [] ==> g.grown == g.listed)
    && (g.gone && ClaimsNeedingScaling(g.claims, desired) != [] ==> g.removed.w.sts.None?)
  }

  // The stage that lists, and the stages after it.
  ghost predicate ListedGood(s: Sys, rmq: RabbitmqCluster, g: Sys, cs: seq<Claim>) {
    && Inv(g.w) && Steady(s.w, g.w) && Shaped(ReadSts(s).0.w, g.w) && ClaimsLeft(s.w, g.w)
    && ListedIn(g.w, cs) && OfReplicas(cs, rmq.name, 0, rmq.spec.replicas)
    && Complete(ReadSts(s).0.w, cs, rmq.name, 0, rmq.spec.replicas) && Complete(s.w, cs, rmq.name, 0, rmq.spec.replicas)
    && g.w.cluster.name == s.w.cluster.name
    && (!Live(s.w) ==> !Live(g.w) && g.w.claims == s.w.claims)
  }

  lemma ListedIsGood(s: Sys, rmq: RabbitmqCluster, desired: int)
    requires Inv(s.w) && rmq.name == s.w.cluster.name && !Stopped(s, rmq, desired)
    ensures var g := StagesOf(s, rmq, desired); ListedGood(s, rmq, g.listed, g.claims)
  {
    var s1 := ReadSts(s).0;
    var (s2, claims) := GetClusterClaims(s1, rmq.name, 0, rmq.spec.replicas);
    var g := StagesOf(s, rmq, desired);
    assert g.listed == s2 && g.claims == claims.value;
    EnterSteady(s);
    ListingIsReading(s1, rmq.name, 0, rmq.spec.replicas);
    ListingIsExact(s1, rmq.name, 0, rmq.spec.replicas);
    assert Inv(s1.w) && Inv(s2.w) && ClaimsLeft(s.w, s1.w) && ClaimsLeft(s.w, s2.w);
    assert !Live(s.w) ==> !Live(s2.w) && s2.w.claims == s.w.claims;
    assert s2.w.cluster.name == s.w.cluster.name && Shaped(s1.w, s2.w);
    hide *;
    CompleteEarlier(s.w, s1.w, g.claims, rmq.name, 0, rmq.spec.replicas);
    SteadyTransitive(s.w, s1.w, s2.w);
  }

  lemma StagesAreGood(s: Sys, rmq: RabbitmqCluster, desired: int)
    requires Inv(s.w) && rmq.name == s.w.cluster.name && !Stopped(s, rmq, desired)
    ensures StagesGood(s, rmq, desired, StagesOf(s, rmq, desired))
  {
    var g := StagesOf(s, rmq, desired);
    ListedIsGood(s, rmq, desired);
    SteadyReflexive(g.listed.w);
    var small := ClaimsNeedingScaling(g.claims, desired);
    if small != [] {
      SmallOnesAreBelow(rmq, g.listed.w, g.claims, desired);
      RemoveStsRemoves(g.listed, rmq, desired);
      InvOfSteady(g.listed.w, g.removed.w);
      hide Steady, Inv, Complete, OfReplicas, RemoveSts, ScaleUp, GetClusterClaims, ClaimsNeedingScaling, ReadSts;
      SteadyReflexive(g.removed.w);
      if g.gone {
        SmallOnes(g.listed.w, g.claims, desired, "");
        BelowOn(g.listed.w.claims, g.removed.w.claims, small, desired);
        ScaleUpSteady(g.removed, small, desired);
      }
    }
  }

  lemma {:induction false} BelowOn(a: map<string, int>, b: map<string, int>, cs: seq<Claim>, desired: int)
    requires Below(a, cs, desired) && forall n :: n in a ==> n in b && b[n] == a[n]
    ensures Below(b, cs, desired)
  {
    if cs != [] { BelowOn(a, b, cs[1..], desired); }
  }

  // What a call that got to the end leaves of the claim n.
  lemma StageAt(s: Sys, rmq: RabbitmqCluster, desired: int, n: string)
    requires Inv(s.w) && rmq.name == s.w.cluster.name && !Stopped(s, rmq, desired)
    ensures var g := StagesOf(s, rmq, desired);
            && (Has(g.claims, n) ==> n in g.listed.w.claims)
            && (n in g.listed.w.claims && !Has(g.claims, n) ==>
                n in g.grown.w.claims && g.grown.w.claims[n] == g.listed.w.claims[n])
            && (Has(g.claims, n) && g.ok ==> n in g.grown.w.claims && g.grown.w.claims[n] >= desired)
  {
    StagesAreGood(s, rmq, desired);
    var g := StagesOf(s, rmq, desired);
    var small := ClaimsNeedingScaling(g.claims, desired);
    SmallOnes(g.listed.w, g.claims, desired, n);
    if small != [] && g.gone {
      BelowOn(g.listed.w.claims, g.removed.w.claims, small, desired);
      assert Inv(g.removed.w);
      ScaleUpGrows(g.removed, small, desired, n);
    }
  }

  lemma FoundAreLarge(s: Sys, rmq: RabbitmqCluster, desired: int, n: string)
    requires Inv(s.w) && rmq.name == s.w.cluster.name && !Stopped(s, rmq, desired)
    requires n in Names(StagesOf(s, rmq, desired).claims)
    ensures var g := StagesOf(s, rmq, desired); n in g.grown.w.claims && (g.ok ==> g.grown.w.claims[n] >= desired)
  {
    var g := StagesOf(s, rmq, desired);
    var i :| 0 <= i < |Names(g.claims)| && Names(g.claims)[i] == n;
    assert g.claims[i].name == n;
    hide *;
    HasIsMember(g.claims, n);
    StageAt(s, rmq, desired, n);
    StageInDomain(s, rmq, desired, n);
  }

  lemma StagesSteady(s: Sys, rmq: RabbitmqCluster, desired: int)
    requires Inv(s.w) && rmq.name == s.w.cluster.name && !Stopped(s, rmq, desired)
    ensures var g := StagesOf(s, rmq, desired);
            && Steady(s.w, g.grown.w) && Inv(g.grown.w) && g.grown.w.cluster.name == rmq.name
            && Complete(ReadSts(s).0.w, g.claims, rmq.name, 0, rmq.spec.replicas)
  {
    var g := StagesOf(s, rmq, desired);
    StagesAreGood(s, rmq, desired);
    assert Inv(g.grown.w) && g.grown.w.cluster.name == rmq.name;
    hide Steady, Inv, Complete, OfReplicas, ListedIn, StagesOf, ReadSts;
    SteadyTransitive(s.w, g.listed.w, g.removed.w);
    SteadyTransitive(s.w, g.removed.w, g.grown.w);
  }

  // Any call: nothing shrinks, the log stays good, and when it is done the
  // claims it found have the size and stand recorded for the recreation.
  lemma ScaleKeeps(s: Sys, rmq: RabbitmqCluster, desired: int)
    requires Inv(s.w) && rmq.name == s.w.cluster.name
    ensures var (v, o) := Scale(s, rmq, desired);
            Steady(s.w, v.w) && (o == Done ==> Expanded(v.w, rmq.spec.replicas, desired))
  {
    assert Stopped(s, rmq, desired) || GetClusterClaims(ReadSts(s).0, rmq.name, 0, rmq.spec.replicas).1.Ok?;
    hide Steady, Inv, Scale, StagesOf, Stopped, ReadSts, GetClusterClaims, Complete, Names;
    ScaleInStages(s, rmq, desired);
    if Stopped(s, rmq, desired) {
      StoppedSteady(s, rmq);
    } else {
      var g := StagesOf(s, rmq, desired);
      StagesSteady(s, rmq, desired);
      if g.ok {
        var e := DoneEvent(s, rmq, desired, g.claims);
        FoundIsComplete(ReadSts(s).0.w, rmq, g.claims);
        forall n | n in e.found ensures n in g.grown.w.claims && g.grown.w.claims[n] >= desired {
          FoundAreLarge(s, rmq, desired, n);
        }
        NoteSteady(g.grown, e);
        Appended(g.grown.w.log, e);
        SteadyTransitive(s.w, g.grown.w, Note(g.grown, e).w);
      }
    }
  }

  // A call that is done leaves no StatefulSet that would not pass its guard.
  lemma DonePassesGuard(s: Sys, rmq: RabbitmqCluster, desired: int)
    requires Inv(s.w) && rmq.name == s.w.cluster.name
    ensures var (v, o) := Scale(s, rmq, desired);
            o == Done && v.w.sts.Some? ==> Guard(Ok(v.w.sts.value), desired) == Done
  {
    ScaleInStages(s, rmq, desired);
    var (s1, r) := ReadSts(s);
    if !Stopped(s, rmq, desired) {
      assert s1.w.sts.Some? ==> r == Ok(s1.w.sts.value);
      StagesAreGood(s, rmq, desired);
      var g := StagesOf(s, rmq, desired);
      assert Shaped(s1.w, g.listed.w) && Shaped(g.listed.w, g.removed.w) && Shaped(g.removed.w, g.grown.w);
    }
    hide Scale, StagesOf, StagesGood, Steady, Inv, ReadSts, GetClusterClaims;
  }

  lemma StoppedSteady(s: Sys, rmq: RabbitmqCluster)
    requires Inv(s.w)
    ensures var s1 := ReadSts(s).0;
            Steady(s.w, s1.w) && Steady(s.w, GetClusterClaims(s1, rmq.name, 0, rmq.spec.replicas).0.w)
  {
    var s1 := ReadSts(s).0;
    EnterSteady(s);
    ListingIsReading(s1, rmq.name, 0, rmq.spec.replicas);
    SteadyTransitive(s.w, s1.w, GetClusterClaims(s1, rmq.name, 0, rmq.spec.replicas).0.w);
  }

  lemma FoundIsComplete(w: World, rmq: RabbitmqCluster, cs: seq<Claim>)
    requires Complete(w, cs, rmq.name, 0, rmq.spec.replicas)
    ensures forall i :: 0 <= i < rmq.spec.replicas && PVCName(rmq.name, i) in w.claims ==>
      PVCName(rmq.name, i) in Names(cs)
  {
    hide PVCName;
    forall i | 0 <= i < rmq.spec.replicas && PVCName(rmq.name, i) in w.claims
      ensures PVCName(rmq.name, i) in Names(cs)
    {
      var c := Claim(PVCName(rmq.name, i), w.claims[PVCName(rmq.name, i)]);
      assert c in cs;
      var k :| 0 <= k < |cs| && cs[k] == c;
      assert Names(cs)[k] == c.name;
    }
  }

  lemma StageInDomain(s: Sys, rmq: RabbitmqCluster, desired: int, n: string)
    requires Inv(s.w) && rmq.name == s.w.cluster.name && !Stopped(s, rmq, desired)
    requires n in StagesOf(s, rmq, desired).listed.w.claims
    ensures n in StagesOf(s, rmq, desired).grown.w.claims
  {
    StagesAreGood(s, rmq, desired);
  }

  // A call that is done leaves no claim too small that was there before it.
  lemma DoneMeansExpanded(s: Sys, rmq: RabbitmqCluster, desired: int, i: nat)
    requires Inv(s.w) && rmq.name == s.w.cluster.name && i < rmq.spec.replicas && PVCName(rmq.name, i) in s.w.claims
    ensures var (v, o) := Scale(s, rmq, desired);
            o == Done ==> PVCName(rmq.name, i) in v.w.claims && v.w.claims[PVCName(rmq.name, i)] >= desired
  {
    ScaleInStages(s, rmq, desired);
    if !Stopped(s, rmq, desired) {
      var n, g := PVCName(rmq.name, i), StagesOf(s, rmq, desired);
      StagesAreGood(s, rmq, desired);
      StageAt(s, rmq, desired, n);
      assert Claim(n, s.w.claims[n]) in g.claims;
      HasIsMember(g.claims, n);
    }
    hide Scale;
  }

  /* ---- progress ---- */

  // How often one of these claims was resized.
  function Resizes(log: seq<Event>, names: set<string>): nat {
    if log == [] then 0
    else Resizes(Init(log), names) + if Last(log).ClaimResized? && Last(log).name in names then 1 else 0
  }

  function Under(names: set<string>, claims: map<string, int>, desired: int): set<string> {
    set n | n in names && n in claims && claims[n] < desired
  }

  // Every resize takes one claim out of those that are too small, and nothing
  // else changes their number.
  predicate Balanced(w: World, v: World, names: set<string>, desired: int) {
    |Under(names, v.claims, desired)| + Resizes(v.log, names)
    == |Under(names, w.claims, desired)| + Resizes(w.log, names)
  }

  lemma BalancedLeft(w: World, v: World, names: set<string>, desired: int)
    requires names <= w.claims.Keys && ClaimsLeft(w, v) && Resizes(v.log, names) == Resizes(w.log, names)
    ensures Balanced(w, v, names, desired)
  {
    assert Under(names, v.claims, desired) == Under(names, w.claims, desired);
  }

  lemma UpdateClaimBalanced(s: Sys, name: string, names: set<string>, desired: int)
    requires Inv(s.w) && s.w.sts.None? && (name in s.w.claims ==> s.w.claims[name] < desired)
    requires names <= s.w.claims.Keys
    ensures Balanced(s.w, UpdateClaim(s, name, desired).0.w, names, desired)
  {
    EnterSteady(s);
    var w, v := Enter(s).w, UpdateClaim(s, name, desired).0.w;
    if v != w {
      Appended(w.log, ClaimResized(name, w.claims[name], desired, w.sts.Some?));
      var before, after := Under(names, w.claims, desired), Under(names, v.claims, desired);
      assert after == before - {name};
    }
  }

  lemma {:induction false} ScaleUpBalanced(s: Sys, cs: seq<Claim>, names: set<string>, desired: int)
    requires Inv(s.w) && s.w.sts.None? && Below(s.w.claims, cs, desired) && names <= s.w.claims.Keys
    ensures Balanced(s.w, ScaleUp(s, cs, desired).0.w, names, desired)
    decreases |cs|
  {
    if cs != [] {
      var (s1, r) := ReadClaim(s, cs[0].name);
      EnterSteady(s);
      assert s1.w.claims == s.w.claims && s1.w.sts.None? && s1.w.log == s.w.log;
      UpdateClaimSteady(s1, cs[0].name, desired);
      UpdateClaimBalanced(s1, cs[0].name, names, desired);
      var (s2, u) := UpdateClaim(s1, cs[0].name, desired);
      assert Inv(s2.w);
      BelowWithout(s1.w.claims, cs[1..], desired, cs[0].name, desired);
      if r.Ok? && u.Ok? {
        assert ScaleUp(s, cs, desired) == ScaleUp(s2, cs[1..], desired);
        assert names <= s2.w.claims.Keys;
        hide Inv, Steady, ScaleUp, Enter, ReadClaim, UpdateClaim, LeftAlone, Under, Resizes;
        ScaleUpBalanced(s2, cs[1..], names, desired);
      }
    }
  }

  lemma {:induction false} PollGoneQuiet(s: Sys, retries: nat)
    requires Inv(s.w)
    ensures PollGone(s, retries).0.w.log == s.w.log
    decreases retries
  {
    if retries > 0 {
      EnterSteady(s);
      PollGoneQuiet(ReadSts(s).0, retries - 1);
    }
  }

  lemma DeleteStsResizesNone(s: Sys, rmq: RabbitmqCluster, desired: int, names: set<string>)
    requires Inv(s.w)
    ensures Resizes(DeleteSts(s, rmq, desired).0.w.log, names) == Resizes(s.w.log, names)
  {
    EnterSteady(s);
    var w := Enter(s).w;
    if w.sts.Some? {
      Appended(w.log, StsDeleteAccepted(w.sts.value.uid, rmq.name, rmq.spec.replicas, desired, w.claims));
    }
    hide Inv, Steady, LeftAlone;
  }

  lemma RemoveStsResizesNone(s: Sys, rmq: RabbitmqCluster, desired: int, names: set<string>)
    requires Inv(s.w) && ClaimBelow(rmq.name, rmq.spec.replicas, s.w.claims, desired) && rmq.name == s.w.cluster.name
    ensures Resizes(RemoveSts(s, rmq, desired).0.w.log, names) == Resizes(s.w.log, names)
  {
    var (s1, r) := ReadSts(s);
    EnterSteady(s);
    ClaimBelowOn(s.w, s1.w, rmq, desired);
    assert Inv(s1.w) && s1.w.log == s.w.log;
    hide Inv, Steady, LeftAlone, DeleteSts, ReadSts, Resizes;
    DeleteStsSteady(s1, rmq, desired);
    DeleteStsResizesNone(s1, rmq, desired, names);
    var (s2, d) := DeleteSts(s1, rmq, desired);
    InvOfSteady(s1.w, s2.w);
    PollGoneQuiet(s2, RETRIES);
  }

  // After the listing.
  lemma GrowingBalanced(s: Sys, rmq: RabbitmqCluster, desired: int, names: set<string>)
    requires Inv(s.w) && rmq.name == s.w.cluster.name && !Stopped(s, rmq, desired)
    requires var g := StagesOf(s, rmq, desired);
             Inv(g.listed.w) && names <= g.listed.w.claims.Keys && g.listed.w.cluster.name == rmq.name
    ensures var g := StagesOf(s, rmq, desired); Balanced(g.listed.w, g.grown.w, names, desired)
  {
    var g := StagesOf(s, rmq, desired);
    var small := ClaimsNeedingScaling(g.claims, desired);
    StagesAreGood(s, rmq, desired);
    if small != [] {
      SmallOnesAreBelow(rmq, g.listed.w, g.claims, desired);
      assert g.removed == RemoveSts(g.listed, rmq, desired).0 && g.gone == RemoveSts(g.listed, rmq, desired).1;
      assert Inv(g.removed.w) && names <= g.removed.w.claims.Keys;
      RemoveStsResizesNone(g.listed, rmq, desired, names);
      BalancedLeft(g.listed.w, g.removed.w, names, desired);
      if g.gone {
        SmallOnes(g.listed.w, g.claims, desired, "");
        BelowOn(g.listed.w.claims, g.removed.w.claims, small, desired);
        assert g.grown == ScaleUp(g.removed, small, desired).0;
        hide *;
        ScaleUpBalanced(g.removed, small, names, desired);
        BalancedTransitive(g.listed.w, g.removed.w, g.grown.w, names, desired);
      }
    }
  }

  lemma StagesBalanced(s: Sys, rmq: RabbitmqCluster, desired: int, names: set<string>)
    requires Inv(s.w) && rmq.name == s.w.cluster.name && names <= s.w.claims.Keys && !Stopped(s, rmq, desired)
    ensures Balanced(s.w, StagesOf(s, rmq, desired).grown.w, names, desired)
  {
    var g := StagesOf(s, rmq, desired);
    var s1 := ReadSts(s).0;
    EnterSteady(s);
    ListingIsReading(s1, rmq.name, 0, rmq.spec.replicas);
    ListedIsGood(s, rmq, desired);
    assert g.listed.w.log == s.w.log;
    BalancedLeft(s.w, g.listed.w, names, desired);
    assert Inv(g.listed.w) && names <= g.listed.w.claims.Keys && g.listed.w.cluster.name == rmq.name;
    hide *;
    GrowingBalanced(s, rmq, desired, names);
    BalancedTransitive(s.w, g.listed.w, g.grown.w, names, desired);
  }

  lemma BalancedTransitive(w: World, v: World, u: World, names: set<string>, desired: int)
    requires Balanced(w, v, names, desired) && Balanced(v, u, names, desired)
    ensures Balanced(w, u, names, desired)
  {
  }

  // Over any call, failing or not, the number of claims still too small drops
  // by exactly the number of resizes.
  lemma ScaleProgress(s: Sys, rmq: RabbitmqCluster, desired: int, names: set<string>)
    requires Inv(s.w) && rmq.name == s.w.cluster.name && names <= s.w.claims.Keys
    ensures Balanced(s.w, Scale(s, rmq, desired).0.w, names, desired)
  {
    ScaleInStages(s, rmq, desired);
    var v := Scale(s, rmq, desired).0;
    if Stopped(s, rmq, desired) {
      var s1 := ReadSts(s).0;
      EnterSteady(s);
      ListingIsReading(s1, rmq.name, 0, rmq.spec.replicas);
      BalancedLeft(s.w, v.w, names, desired);
    } else {
      StagesBalanced(s, rmq, desired, names);
      var g := StagesOf(s, rmq, desired);
      Appended(g.grown.w.log, DoneEvent(s, rmq, desired, g.claims));
      assert v.w.claims == g.grown.w.claims && Resizes(v.w.log, names) == Resizes(g.grown.w.log, names);
    }
  }

  // Scale called again and again with one desired size.
  function Retry(w: World, rmq: RabbitmqCluster, desired: int, calls: seq<seq<Turn>>): World
    decreases |calls|
  {
    if calls == [] then w else Retry(Scale(Sys(w, calls[0]), rmq, desired).0.w, rmq, desired, calls[1..])
  }

  // Retrying converges: all calls together resize each claim that was too
  // small at most once, and every resize is progress.
  lemma {:induction false} RetriesConverge(w: World, rmq: RabbitmqCluster, desired: int, calls: seq<seq<Turn>>,
    names: set<string>)
    requires Inv(w) && rmq.name == w.cluster.name && names <= w.claims.Keys
    ensures Balanced(w, Retry(w, rmq, desired, calls), names, desired)
    decreases |calls|
  {
    if calls != [] {
      var s := Sys(w, calls[0]);
      var v := Scale(s, rmq, desired).0.w;
      ScaleKeeps(s, rmq, desired);
      ScaleProgress(s, rmq, desired, names);
      assert Inv(v) && names <= v.claims.Keys && v.cluster.name == w.cluster.name;
      hide *;
      RetriesConverge(v, rmq, desired, calls[1..], names);
      BalancedTransitive(w, v, Retry(v, rmq, desired, calls[1..]), names, desired);
    }
  }
}
