// A pass over children that are as they should be, with every call answered
// and nobody else acting: it completes, and changes the resource only.
module Settling {
  import opened Text
  import opened Conditions
  import opened Spec
  import opened ApiServer
  import opened Invariants
  import opened Calls
  import opened Controllers
  import opened Children
  import opened Convergence
  import Ports
  import Scaling

  // Only the resource's status and finalizer differ.
  predicate ClusterOnly(w: World, v: World) {
    && v == w.(cluster := v.cluster, nextId := v.nextId, log := v.log)
    && v.cluster == w.cluster.(status := v.cluster.status, finalizer := v.cluster.finalizer, rv := v.cluster.rv)
  }

  // Goes on, in k calls at most, with an up-to-date copy of the resource.
  predicate Passed(s: Sys, n: int, p: Step, k: int) {
    p.flow == Go && ClusterOnly(s.w, p.s.w) && p.rmq == p.s.w.cluster && Quiet(p.s, n - k)
  }

  predicate SecretsFit(w: World, spec: ClusterSpec) {
    && spec.tls.secretName in w.secrets
    && "tls.key" in w.secrets[spec.tls.secretName] && "tls.crt" in w.secrets[spec.tls.secretName]
    && (spec.MutualTLSEnabled() ==> spec.tls.caSecretName in w.secrets && "ca.crt" in w.secrets[spec.tls.caSecretName])
  }

  predicate RestartDue(w: World) {
    w.server.Some? && w.sts.Some? && SERVER_CONF_UPDATED_AT in w.server.value.annotations
    && !(LAST_RESTART_AT in w.sts.value.podAnnotations
         && TextAfter(w.sts.value.podAnnotations[LAST_RESTART_AT], w.server.value.annotations[SERVER_CONF_UPDATED_AT],
              w.zone))
  }

  predicate ClaimsLarge(w: World, spec: ClusterSpec) {
    forall i :: 0 <= i < spec.replicas && PVCName(w.cluster.name, i) in w.claims ==>
      w.claims[PVCName(w.cluster.name, i)] >= DesiredCapacity(spec)
  }

  // The resource is in order, and its children are as it asks for.
  ghost predicate Applied(w: World) {
    var rmq, spec := w.cluster, w.cluster.spec;
    && InOrder(w) && AllSettled(w, spec, Builders(spec))
    && w.sts.Some? && UpdatedSts(w.sts.value, rmq) == w.sts.value
    && Scaling.CapacityOf(w.sts.value) == DesiredCapacity(spec) && ClaimsLarge(w, spec)
  }

  // Users must not set the creation marker: each update of the StatefulSet
  // would bring it back.
  predicate InOrder(w: World) {
    && !w.cluster.paused && Proper(w.cluster) && CREATED_AT !in w.cluster.annotations && Ports.Accepted(w.cluster.spec)
    && (w.cluster.spec.SecretTLSEnabled() ==> SecretsFit(w, w.cluster.spec))
  }

  // Moreover its replicas are all ready on one revision.
  ghost predicate Sound(w: World) {
    Applied(w) && ReadyAndUpdated(w.sts.value)
  }

  // No restart is due and no work is pending.
  predicate Idle(w: World) {
    && !RestartDue(w) && w.sts.Some? && w.plugins.Some? && PLUGINS_UPDATED_AT !in w.plugins.value.annotations
    && !Pending(w.sts.value.annotations, CREATED_AT) && !Pending(w.cluster.annotations, QUEUE_REBALANCE_NEEDED_AT)
  }

  ghost predicate Healthy(w: World) {
    Sound(w) && Idle(w)
  }

  lemma AppliedOn(w: World, v: World)
    requires ClusterOnly(w, v)
    ensures (InOrder(w) ==> InOrder(v)) && (Applied(w) ==> Applied(v)) && (Sound(w) ==> Sound(v))
    ensures Healthy(w) ==> Healthy(v)
  {
    if Applied(w) {
      forall b | b in Builders(v.cluster.spec) ensures Settled(v, v.cluster.spec, b) {
        assert Settled(w, w.cluster.spec, b);
      }
    }
    hide Settled, PVCName;
  }

  lemma SoundIsInOrder(w: World)
    requires Sound(w)
    ensures InOrder(w)
  {
  }

  lemma ClusterOnlyTransitive(w: World, v: World, u: World)
    requires ClusterOnly(w, v) && ClusterOnly(v, u)
    ensures ClusterOnly(w, u)
  {
  }

  /* ---- the steps ---- */

  lemma StatusWritten(s: Sys, n: int, rmq: RabbitmqCluster, st: ClusterStatus)
    requires Quiet(s, n) && n > 0 && rmq == s.w.cluster
    ensures var (v, r) := UpdateStatus(s, rmq.(status := st));
            r.Ok? && Passed(s, n, Step(v, r.value, Go), 1) && r.value.status == st
  {
    QuietCall(s, n);
  }

  lemma FinalizerPasses(s: Sys, n: int, rmq: RabbitmqCluster)
    requires Quiet(s, n) && n > 0 && rmq == s.w.cluster
    ensures Passed(s, n, AddFinalizerIfNeeded(s, rmq), 1)
  {
    QuietCall(s, n);
  }

  lemma ConditionsPass(s: Sys, n: int, rmq: RabbitmqCluster)
    requires Quiet(s, n) && n > 3 && rmq == s.w.cluster
    ensures Passed(s, n, UpdateStatusConditions(s, rmq), 3)
  {
    QuietCall(s, n);
    var (s1, sts) := ReadSts(s);
    QuietCall(s1, n - 1);
    var (s2, ep) := ReadEndpoints(s1);
    var resources := [StatefulSet(if sts.Ok? then Some(ViewOf(sts.value)) else None), Endpoints(Known(ep))];
    var conditions := AfterSetConditions(rmq.status.conditions, resources, s2.w.now);
    StatusWritten(s2, n - 2, rmq, rmq.status.(conditions := conditions));
    hide AfterSetConditions, UpdateStatus;
  }

  lemma TLSPasses(s: Sys, n: int, rmq: RabbitmqCluster)
    requires Quiet(s, n) && n > 2 && rmq == s.w.cluster && InOrder(s.w)
    ensures Passed(s, n, ReconcileTLS(s, rmq), 2)
  {
    assert Ports.Accepted(rmq.spec) && (rmq.spec.SecretTLSEnabled() ==> SecretsFit(s.w, rmq.spec));
    hide Sound, Applied;
    QuietCall(s, n);
    QuietCall(Enter(s), n - 1);
  }

  lemma RebalancePasses(s: Sys, n: int, rmq: RabbitmqCluster)
    requires Quiet(s, n) && n > 1 && rmq == s.w.cluster && Sound(s.w)
    ensures Passed(s, n, MarkForQueueRebalance(s, rmq), 1)
  {
    assert s.w.sts.Some? && ReadyAndUpdated(s.w.sts.value);
    hide Sound, Applied;
    QuietCall(s, n);
  }

  lemma PreliminariesPass(s: Sys, n: int, rmq: RabbitmqCluster)
    requires Quiet(s, n) && n > 8 && rmq == s.w.cluster && Sound(s.w)
    ensures Passed(s, n, Preliminaries(s, rmq), 7)
  {
    hide Sound, Applied, Quiet, AddFinalizerIfNeeded, UpdateStatusConditions, ReconcileTLS, MarkForQueueRebalance;
    var p1 := AddFinalizerIfNeeded(s, rmq);
    FinalizerPasses(s, n, rmq);
    var p2 := UpdateStatusConditions(p1.s, p1.rmq);
    ConditionsPass(p1.s, n - 1, p1.rmq);
    ClusterOnlyTransitive(s.w, p1.s.w, p2.s.w);
    AppliedOn(s.w, p2.s.w);
    var p3 := ReconcileTLS(p2.s, p2.rmq);
    SoundIsInOrder(p2.s.w);
    TLSPasses(p2.s, n - 4, p2.rmq);
    ClusterOnlyTransitive(s.w, p2.s.w, p3.s.w);
    AppliedOn(s.w, p3.s.w);
    var p4 := MarkForQueueRebalance(p3.s, p3.rmq);
    RebalancePasses(p3.s, n - 6, p3.rmq);
    ClusterOnlyTransitive(s.w, p3.s.w, p4.s.w);
  }

  /* ---- the children ---- */

  lemma {:induction false} ListingPasses(s: Sys, n: int, name: string, i: nat, r: int)
    requires Quiet(s, n) && n >= Count(r - i)
    ensures var (v, cs) := Scaling.GetClusterClaims(s, name, i, r);
            && v.w == s.w && Quiet(v, n - Count(r - i)) && cs.Ok?
            && (forall c :: c in cs.value ==>
                  exists k ::
                    && i <= k < r && c.name == PVCName(name, k)
                    && c.name in s.w.claims && c.capacity == s.w.claims[c.name])
    decreases r - i
  {
    hide PVCName;
    if i < r {
      QuietCall(s, n);
      ListingPasses(Enter(s), n - 1, name, i + 1, r);
    }
  }

  lemma ScalePasses(s: Sys, n: int, rmq: RabbitmqCluster)
    requires Quiet(s, n) && n > 1 + Count(rmq.spec.replicas) && rmq == s.w.cluster && Sound(s.w)
    ensures var (v, o) := Scaling.Scale(s, rmq, DesiredCapacity(rmq.spec));
            o == Scaling.Done && ClusterOnly(s.w, v.w) && v.w.cluster == s.w.cluster
              && Quiet(v, n - 1 - Count(rmq.spec.replicas))
  {
    var desired := DesiredCapacity(rmq.spec);
    assert s.w.sts.Some? && Scaling.CapacityOf(s.w.sts.value) == desired && ClaimsLarge(s.w, rmq.spec);
    hide Sound, Applied, DesiredCapacity, PVCName;
    QuietCall(s, n);
    ListingPasses(Enter(s), n - 1, rmq.name, 0, rmq.spec.replicas);
    var (v, cs) := Scaling.GetClusterClaims(Enter(s), rmq.name, 0, rmq.spec.replicas);
    var small := Scaling.ClaimsNeedingScaling(cs.value, desired);
    if small != [] {
      Scaling.NeedingScaling(cs.value, desired, small[0]);
      assert false;
    }
  }

  lemma StsPasses(s: Sys, n: int, rmq: RabbitmqCluster, tries: nat)
    requires Quiet(s, n) && n > 3 + Count(rmq.spec.replicas) && rmq == s.w.cluster && Sound(s.w) && tries > 0
    ensures Passed(s, n, RunBuilder(s, rmq, StsBuilder, tries), 3 + Count(rmq.spec.replicas))
  {
    var r := Count(rmq.spec.replicas);
    assert s.w.sts.Some? && UpdatedSts(s.w.sts.value, rmq) == s.w.sts.value
      && s.w.sts.value.replicas == rmq.spec.replicas;
    QuietCall(s, n);
    var s1 := Enter(s);
    ScalePasses(s1, n - 1, rmq);
    var s2 := Scaling.Scale(s1, rmq, DesiredCapacity(rmq.spec)).0;
    assert PrepareSts(s, rmq) == Step(s2, rmq, Go) by { hide Sound, Applied, Scaling.Scale, SetCondition, UpdatedSts; }
    hide Sound, Applied, PrepareSts, Scaling.Scale, UpdatedSts, DesiredCapacity;
    QuietCall(s2, n - 2 - r);
    assert ApplySts(s2, rmq, tries) == (Enter(s2), Ok(Unchanged));
  }

  lemma ChildPasses(s: Sys, n: int, rmq: RabbitmqCluster, b: Builder, tries: nat)
    requires Quiet(s, n) && n > 1 && rmq == s.w.cluster && Settled(s.w, rmq.spec, b) && !b.StsBuilder? && tries > 0
    ensures Passed(s, n, RunBuilder(s, rmq, b, tries), 1)
  {
    hide UpdatedData;
    QuietCall(s, n);
    if b.MapBuilder? {
      assert ApplyMap(s, b.which, rmq, tries) == (Enter(s), Ok(Unchanged));
    }
  }

  function CallsOf(bs: seq<Builder>, r: nat): nat {
    |bs| * (3 + r)
  }

  lemma {:induction false} BuildersPass(s: Sys, n: int, rmq: RabbitmqCluster, bs: seq<Builder>, tries: nat)
    requires Quiet(s, n) && rmq == s.w.cluster && Sound(s.w) && tries > 0
    requires n > CallsOf(bs, Count(rmq.spec.replicas)) + 3 + Count(rmq.spec.replicas)
    requires forall b :: b in bs ==> b in Builders(rmq.spec)
    ensures Passed(s, n, RunBuilders(s, rmq, bs, tries), CallsOf(bs, Count(rmq.spec.replicas)))
    decreases |bs|
  {
    hide Sound, Applied, Quiet, RunBuilder;
    if bs != [] {
      var r, b := Count(rmq.spec.replicas), bs[0];
      assert CallsOf(bs, r) == 3 + r + CallsOf(bs[1..], r);
      var p := RunBuilder(s, rmq, b, tries);
      OnePasses(s, n, rmq, b, tries);
      AppliedOn(s.w, p.s.w);
      BuildersPass(p.s, n - 3 - r, p.rmq, bs[1..], tries);
      ClusterOnlyTransitive(s.w, p.s.w, RunBuilders(p.s, p.rmq, bs[1..], tries).s.w);
    }
  }

  lemma OnePasses(s: Sys, n: int, rmq: RabbitmqCluster, b: Builder, tries: nat)
    requires Quiet(s, n) && rmq == s.w.cluster && Sound(s.w) && tries > 0 && b in Builders(rmq.spec)
    requires n > 3 + Count(rmq.spec.replicas)
    ensures Passed(s, n, RunBuilder(s, rmq, b, tries), 3 + Count(rmq.spec.replicas))
  {
    if b.StsBuilder? {
      StsPasses(s, n, rmq, tries);
    } else {
      assert Settled(s.w, rmq.spec, b);
      ChildPasses(s, n, rmq, b, tries);
    }
    hide Sound, Applied, RunBuilder, Builders;
  }

  /* ---- the end of the pass ---- */

  lemma RestartPasses(s: Sys, n: int, tries: nat)
    requires Quiet(s, n) && n > 2 && Healthy(s.w)
    ensures var (v, o) := RestartIfNeeded(s, tries); FlowOf(o) == Go && v.w == s.w && Quiet(v, n - 2)
  {
    assert MapBuilder(ServerMap) in Builders(s.w.cluster.spec);
    assert Settled(s.w, s.w.cluster.spec, MapBuilder(ServerMap));
    assert s.w.sts.Some? && s.w.server.Some? && !RestartDue(s.w);
    hide Healthy, Sound, Applied, Idle, TextAfter, UpdatedData;
    QuietCall(s, n);
    QuietCall(Enter(s), n - 1);
  }

  lemma StatusPasses(s: Sys, n: int, rmq: RabbitmqCluster)
    requires Quiet(s, n) && n > 1 && rmq == s.w.cluster
    ensures Passed(s, n, ReconcileStatus(s, rmq), 1)
  {
    StatusWritten(s, n, rmq, rmq.status.(userSecret := Some(!rmq.spec.VaultDefaultUserSecretEnabled())));
    hide UpdateStatus;
  }

  lemma CommandsPass(s: Sys, n: int, rmq: RabbitmqCluster)
    requires Quiet(s, n) && n > 2 && rmq == s.w.cluster && Healthy(s.w)
    ensures var c := RunCommands(s, rmq); Passed(s, n, Step(c.s, c.rmq, c.flow), 2)
  {
    QuietCall(s, n);
    QuietCall(Enter(s), n - 1);
    var plugins := s.w.plugins.value;
    assert UpdatedRecently(plugins.annotations, s.w.now) == Some(false);
    assert !Pending(plugins.annotations, PLUGINS_UPDATED_AT);
    assert s.w.sts.Some? && ReadyAndUpdated(s.w.sts.value);
    assert !Pending(s.w.sts.value.annotations, CREATED_AT) && !Pending(rmq.annotations, QUEUE_REBALANCE_NEEDED_AT);
    hide Healthy, Sound, Applied, Idle, UpdatedRecently, Pending, ReadyAndUpdated, RunOnPods;
  }

  lemma FinishPasses(s: Sys, n: int, rmq: RabbitmqCluster)
    requires Quiet(s, n) && n > 4 && rmq == s.w.cluster && Healthy(s.w)
    ensures var p := Finish(s, rmq);
            p.result.Completed? && ClusterOnly(s.w, p.s.w) && p.s.w.cluster.status.observedGeneration == rmq.generation
  {
    var c := RunCommands(s, rmq);
    CommandsPass(s, n, rmq);
    var st := c.rmq.status.(observedGeneration := c.rmq.generation);
    var conditions := AfterSetCondition(st.conditions, ReconcileSuccess, ConditionTrue, "Success", [], c.s.w.now);
    StatusWritten(c.s, n - 2, c.rmq, st.(conditions := conditions));
    hide Healthy, Sound, Applied, Idle, RunCommands, UpdateStatus, AfterSetCondition, Quiet;
    ClusterOnlyTransitive(s.w, c.s.w, Finish(s, rmq).s.w);
  }

  lemma RestPasses(s: Sys, n: int, rmq: RabbitmqCluster, tries: nat)
    requires Quiet(s, n) && n > 8 && rmq == s.w.cluster && Healthy(s.w)
    ensures var p := AfterChildren(s, rmq, tries);
            p.result.Completed? && ClusterOnly(s.w, p.s.w) && p.s.w.cluster.status.observedGeneration == rmq.generation
  {
    hide Healthy, Sound, Applied, Idle, Quiet, RestartIfNeeded, ReconcileStatus, Finish;
    RestartPasses(s, n, tries);
    var s1 := RestartIfNeeded(s, tries).0;
    StatusPasses(s1, n - 2, rmq);
    var q := ReconcileStatus(s1, rmq);
    AppliedOn(s.w, q.s.w);
    FinishPasses(q.s, n - 3, q.rmq);
    ClusterOnlyTransitive(s.w, q.s.w, Finish(q.s, q.rmq).s.w);
  }

  // A pass over a healthy cluster whose calls are all answered completes, has
  // observed the generation, and has changed nothing but the resource's status
  // and finalizer; the cluster is healthy still.
  lemma HealthyPassCompletes(s: Sys, tries: nat)
    requires Healthy(s.w) && tries > 0
    requires var r := Count(s.w.cluster.spec.replicas); Quiet(s, CallsOf(Builders(s.w.cluster.spec), r) + r + 21)
    ensures var p := Reconcile(s, tries);
            && p.result.Completed? && p.s.w.cluster.status.observedGeneration == s.w.cluster.generation
            && ClusterOnly(s.w, p.s.w) && Healthy(p.s.w)
  {
    var rmq, r := s.w.cluster, Count(s.w.cluster.spec.replicas);
    var bs := Builders(rmq.spec);
    var n := CallsOf(bs, r) + r + 21;
    QuietCall(s, n);
    var s1 := Note(Enter(s), PassBegan(rmq.spec));
    assert ReadCluster(s) == (Enter(s), Ok(rmq)) && !rmq.paused && Quiet(s1, n - 1) && ClusterOnly(s.w, s1.w);
    AppliedOn(s.w, s1.w);
    hide Healthy, Sound, Applied, Idle, Quiet, Preliminaries, RunBuilders, AfterChildren, Builders, Enter;
    PreliminariesPass(s1, n - 1, rmq);
    var p := Preliminaries(s1, rmq);
    ClusterOnlyTransitive(s.w, s1.w, p.s.w);
    AppliedOn(s.w, p.s.w);
    BuildersPass(p.s, n - 8, p.rmq, bs, tries);
    var q := RunBuilders(p.s, p.rmq, bs, tries);
    ClusterOnlyTransitive(s.w, p.s.w, q.s.w);
    AppliedOn(s.w, q.s.w);
    RestPasses(q.s, n - 8 - CallsOf(bs, r), q.rmq, tries);
    ClusterOnlyTransitive(s.w, q.s.w, Reconcile(s, tries).s.w);
    AppliedOn(s.w, Reconcile(s, tries).s.w);
  }
}
