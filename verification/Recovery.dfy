// How a cluster gets healthy: one pass applies the resource to the children,
// and once the replicas are ready and the markers have aged one more pass does
// all pending work.
module Recovery {
  import opened Text
  import opened Rfc3339
  import opened Conditions
  import opened Spec
  import opened ApiServer
  import opened Invariants
  import opened Calls
  import opened Controllers
  import opened Children
  import opened Convergence
  import opened Restarts
  import opened Commands
  import opened Settling
  import Metadata

  /* ---- what pending work may change ---- */

  // The map's entries stand in the base already.
  predicate Laid(filter: string -> bool, base: Annotations, m: Annotations) {
    forall k :: k in m && filter(k) ==> k in base && base[k] == m[k]
  }

  predicate StsFits(sts: Sts, rmq: RabbitmqCluster) {
    && sts.replicas == rmq.spec.replicas && sts.template == rmq.spec
    && (sts.storage.Some? ==> sts.storage.value == rmq.spec.storage)
    && Laid(Metadata.IsNotKubernetesAnnotation, sts.annotations, rmq.annotations)
    && Laid(Metadata.AnyAnnotation, sts.podAnnotations, rmq.spec.podAnnotations)
  }

  // An update has nothing to change exactly when the StatefulSet fits.
  lemma FixedWhenFits(sts: Sts, rmq: RabbitmqCluster)
    ensures UpdatedSts(sts, rmq) == sts <==> StsFits(sts, rmq)
  {
    LaidIsFixed(Metadata.IsNotKubernetesAnnotation, sts.annotations, rmq.annotations);
    LaidIsFixed(Metadata.AnyAnnotation, sts.podAnnotations, rmq.spec.podAnnotations);
    hide Laid;
  }

  lemma UpdatedFits(sts: Sts, rmq: RabbitmqCluster)
    ensures StsFits(UpdatedSts(sts, rmq), rmq)
  {
    MergedOne(Metadata.IsNotKubernetesAnnotation, sts.annotations, rmq.annotations);
    MergedOne(Metadata.AnyAnnotation, sts.podAnnotations, rmq.spec.podAnnotations);
  }

  lemma LaidIsFixed(filter: string -> bool, base: Annotations, m: Annotations)
    ensures Metadata.Merged(filter, base, [m]) == base <==> Laid(filter, base, m)
  {
    MergedOne(filter, base, m);
    var f := Metadata.Filtered(filter, m);
    if base + f == base {
      forall k | k in m && filter(k) ensures k in base && base[k] == m[k] {
        assert k in f && (base + f)[k] == f[k];
      }
    }
  }

  // Only annotations differ, with fewer on the resource, and what does not
  // bear on the children.
  predicate Kin(w: World, v: World) {
    && v == w.(cluster := v.cluster, sts := v.sts, plugins := v.plugins, nextId := v.nextId, log := v.log)
    && v.cluster == w.cluster.(status := v.cluster.status, finalizer := v.cluster.finalizer, rv := v.cluster.rv,
         annotations := v.cluster.annotations)
    && (forall k :: k in v.cluster.annotations ==>
        k in w.cluster.annotations && v.cluster.annotations[k] == w.cluster.annotations[k])
    && w.sts.Some? && v.sts.Some?
    && v.sts.value == w.sts.value.(rv := v.sts.value.rv, annotations := v.sts.value.annotations,
         podAnnotations := v.sts.value.podAnnotations)
    && w.plugins.Some? && v.plugins.Some?
    && v.plugins.value == w.plugins.value.(rv := v.plugins.value.rv, annotations := v.plugins.value.annotations)
  }

  lemma AppliedAfter(w: World, v: World)
    requires Applied(w) && Kin(w, v) && StsFits(v.sts.value, v.cluster)
    ensures Applied(v) && (Sound(w) ==> Sound(v))
  {
    var spec := w.cluster.spec;
    forall b | b in Builders(spec) ensures Settled(v, spec, b) {
      assert Settled(w, spec, b);
    }
    FixedWhenFits(v.sts.value, v.cluster);
    hide Settled, PVCName, Metadata.IsNotKubernetesAnnotation, UpdatedSts, StsFits;
  }

  lemma AppliedFits(w: World)
    requires Applied(w)
    ensures StsFits(w.sts.value, w.cluster) && Proper(w.cluster) && CREATED_AT !in w.cluster.annotations
    ensures w.plugins.Some? && w.server.Some?
  {
    FixedWhenFits(w.sts.value, w.cluster);
    assert MapBuilder(PluginsMap) in Builders(w.cluster.spec) && MapBuilder(ServerMap) in Builders(w.cluster.spec);
    assert Settled(w, w.cluster.spec, MapBuilder(PluginsMap)) && Settled(w, w.cluster.spec, MapBuilder(ServerMap));
  }

  /* ---- the restart ---- */

  predicate ConfWaited(w: World) {
    ConfMark(w).Some? ==> ConfMark(w).value.Stamp? && Seconds(ConfMark(w).value.t) < Seconds(w.now)
  }

  // What the restart leaves, written or not.
  ghost predicate RestartStep(w: World, v: World) {
    && Applied(v) && (Sound(w) ==> Sound(v)) && Kin(w, v) && v.plugins == w.plugins && v.cluster == w.cluster
    && v.sts.value.annotations == w.sts.value.annotations && (ConfWaited(w) ==> !RestartDue(v))
  }

  lemma NoRestartStep(w: World)
    requires Applied(w) && !RestartDue(w)
    ensures RestartStep(w, w)
  {
    AppliedFits(w);
    hide RestartDue, StsFits;
  }

  lemma RestartIsStep(w: World, v: World)
    requires Applied(w) && RestartDue(w)
    requires v == w.(sts := Some(Restamped(w.sts.value, w.now).(rv := w.nextId)), nextId := v.nextId, log := v.log)
    ensures RestartStep(w, v)
  {
    AppliedFits(w);
    if ConfWaited(w) { TextAfterIsLater(w.now, ConfMark(w).value.t, w.zone); }
    assert StsFits(v.sts.value, v.cluster);
    hide Applied, Sound, TextAfter, Laid;
    AppliedAfter(w, v);
  }

  lemma RestartHeals(s: Sys, n: int, tries: nat)
    requires Quiet(s, n) && n > 4 && tries > 0 && Applied(s.w)
    ensures var (v, o) := RestartIfNeeded(s, tries); FlowOf(o) == Go && Quiet(v, n - 4) && RestartStep(s.w, v.w)
  {
    AppliedFits(s.w);
    QuietCall(s, n);
    QuietCall(Enter(s), n - 1);
    var s2 := Enter(Enter(s));
    if RestartDue(s.w) {
      QuietRestart(s2, n - 2, tries);
      assert RestartIfNeeded(s, tries) == (WriteRestart(s2, tries).0, RestartDone);
      hide Applied, TextAfter, WriteRestart, StsEvents, RestartStep;
      RestartIsStep(s.w, WriteRestart(s2, tries).0.w);
    } else {
      hide Applied, TextAfter, WriteRestart, RestartStep;
      NoRestartStep(s.w);
    }
  }

  /* ---- the commands ---- */

  // The copies are current, and n calls without disturbance are ahead.
  ghost predicate InStep(c: Cli, n: int) {
    && c.flow == Go && c.rmq == c.s.w.cluster && c.s.w.sts == Some(c.sts) && c.s.w.plugins == Some(c.plugins)
    && Quiet(c.s, n) && Sound(c.s.w)
  }

  lemma {:induction false} PodsRunQuietly(s: Sys, n: int, cmd: Command, i: nat, r: int)
    requires Quiet(s, n) && n >= Count(r - i)
    ensures var (v, ok) := RunOnPods(s, cmd, i, r); ok && v.w == s.w.(log := v.w.log) && Quiet(v, n - Count(r - i))
    decreases r - i
  {
    if i < r {
      QuietCall(s, n);
      PodsRunQuietly(Exec(s, cmd, i).0, n - 1, cmd, i + 1, r);
    }
  }

  // What one command with its marker does.
  ghost predicate Healed(c: Cli, d: Cli, n: int) {
    && InStep(d, n) && Kin(c.s.w, d.s.w) && d.rmq == c.rmq.(annotations := d.rmq.annotations, rv := d.rmq.rv)
    && d.sts.podAnnotations == c.sts.podAnnotations
  }

  lemma SoundAfter(w: World, v: World)
    requires Sound(w) && Kin(w, v) && StsFits(v.sts.value, v.cluster)
    ensures Sound(v)
  {
    AppliedAfter(w, v);
  }

  lemma LogOnly(w: World, v: World)
    requires Sound(w) && v == w.(log := v.log)
    ensures Sound(v) && w.plugins.Some? && StsFits(w.sts.value, w.cluster) && CREATED_AT !in w.cluster.annotations
  {
    AppliedFits(w);
    AppliedAfter(w, v);
  }

  lemma PluginsHeal(c: Cli, n: int)
    requires InStep(c, n) && n > Count(c.rmq.spec.replicas) + 1
    ensures var d := RunSetPlugins(c);
            && Healed(c, d, n - Count(c.rmq.spec.replicas) - 1) && !Pending(d.plugins.annotations, PLUGINS_UPDATED_AT)
            && (!Pending(c.plugins.annotations, PLUGINS_UPDATED_AT) ==> d == c)
            && (PLUGINS_UPDATED_AT in d.plugins.annotations ==> d == c)
            && d.sts == c.sts && d.rmq == c.rmq
  {
    var r := Count(c.rmq.spec.replicas);
    LogOnly(c.s.w, c.s.w);
    if Pending(c.plugins.annotations, PLUGINS_UPDATED_AT) {
      PodsRunQuietly(c.s, n, SetPlugins, 0, c.rmq.spec.replicas);
      var s1 := RunOnPods(c.s, SetPlugins, 0, c.rmq.spec.replicas).0;
      QuietCall(s1, n - r);
      var d := RunSetPlugins(c);
      hide Sound, RunOnPods, Removal, MapEvents;
      SoundAfter(c.s.w, d.s.w);
    }
  }

  lemma FlagsHeal(c: Cli, n: int)
    requires InStep(c, n) && n > 2
    ensures var d := RunEnableFeatureFlags(c);
            Healed(c, d, n - 2) && !Pending(d.sts.annotations, CREATED_AT) && d.plugins == c.plugins && d.rmq == c.rmq
  {
    LogOnly(c.s.w, c.s.w);
    if Pending(c.sts.annotations, CREATED_AT) {
      PodsRunQuietly(c.s, n, EnableFeatureFlags, 0, 1);
      var s1 := RunOnPods(c.s, EnableFeatureFlags, 0, 1).0;
      QuietCall(s1, n - 1);
      var d := RunEnableFeatureFlags(c);
      hide Sound, RunOnPods, StsEvents, Metadata.IsNotKubernetesAnnotation;
      SoundAfter(c.s.w, d.s.w);
    }
  }

  lemma RebalanceHeals(c: Cli, n: int)
    requires InStep(c, n) && n > 2
    ensures var d := RunQueueRebalance(c);
            && Healed(c, d, n - 2) && !Pending(d.rmq.annotations, QUEUE_REBALANCE_NEEDED_AT)
            && d.plugins == c.plugins && d.sts == c.sts
  {
    LogOnly(c.s.w, c.s.w);
    if Pending(c.rmq.annotations, QUEUE_REBALANCE_NEEDED_AT) {
      PodsRunQuietly(c.s, n, RebalanceQueues, 0, 1);
      var s1 := RunOnPods(c.s, RebalanceQueues, 0, 1).0;
      QuietCall(s1, n - 1);
      var d := RunQueueRebalance(c);
      hide Sound, RunOnPods, Removal, Metadata.IsNotKubernetesAnnotation;
      SoundAfter(c.s.w, d.s.w);
    }
  }

  predicate PluginsWaited(w: World) {
    w.plugins.Some? && UpdatedRecently(w.plugins.value.annotations, w.now) == Some(false)
  }

  lemma KinTransitive(w: World, v: World, u: World)
    requires Kin(w, v) && Kin(v, u)
    ensures Kin(w, u)
  {
  }

  lemma KinKeepsRestart(w: World, v: World)
    requires Kin(w, v) && v.sts.value.podAnnotations == w.sts.value.podAnnotations
    ensures RestartDue(v) <==> RestartDue(w)
  {
    hide TextAfter;
  }

  lemma AllHeal(c: Cli, n: int)
    requires InStep(c, n) && n > Count(c.rmq.spec.replicas) + 6 && PluginsWaited(c.s.w)
    ensures var d := RunMarkedCommands(c);
            && Healed(c, d, n - Count(c.rmq.spec.replicas) - 5) && NonePending(d)
            && PLUGINS_UPDATED_AT !in d.plugins.annotations
  {
    var r := Count(c.rmq.spec.replicas);
    var c1 := RunSetPlugins(c);
    PluginsHeal(c, n);
    assert PLUGINS_UPDATED_AT in c.plugins.annotations ==> Pending(c.plugins.annotations, PLUGINS_UPDATED_AT);
    hide RunSetPlugins, RunEnableFeatureFlags, RunQueueRebalance, Pending, Sound, Quiet;
    var c2 := RunEnableFeatureFlags(c1);
    FlagsHeal(c1, n - r - 1);
    var d := RunQueueRebalance(c2);
    RebalanceHeals(c2, n - r - 3);
    KinTransitive(c.s.w, c1.s.w, c2.s.w);
    KinTransitive(c.s.w, c2.s.w, d.s.w);
  }

  lemma CommandsHeal(s: Sys, n: int, rmq: RabbitmqCluster)
    requires Quiet(s, n) && n > Count(rmq.spec.replicas) + 8 && rmq == s.w.cluster && Sound(s.w) && PluginsWaited(s.w)
    requires !RestartDue(s.w)
    ensures var c := RunCommands(s, rmq);
            && c.flow == Go && Healthy(c.s.w) && c.rmq == c.s.w.cluster && c.rmq.generation == rmq.generation
            && Quiet(c.s, n - Count(rmq.spec.replicas) - 7)
  {
    QuietCall(s, n);
    QuietCall(Enter(s), n - 1);
    var look := Look(rmq, s.w.sts.value, s.w.plugins.value);
    var s3 := Note(Enter(Enter(s)), Looked(look));
    var c0 := Cli(s3, rmq, s.w.sts.value, s.w.plugins.value, Go);
    LogOnly(s.w, s3.w);
    assert ReadyAndUpdated(s.w.sts.value);
    assert RunCommands(s, rmq) == RunMarkedCommands(c0) by { hide Sound, RunMarkedCommands, UpdatedRecently; }
    assert InStep(c0, n - 2) && PluginsWaited(s3.w);
    AllHeal(c0, n - 2);
    var d := RunMarkedCommands(c0);
    KinKeepsRestart(s3.w, d.s.w);
    assert RestartDue(s3.w) <==> RestartDue(s.w);
    hide RunMarkedCommands, RunCommands, Sound, RestartDue, Quiet, Pending;
  }

  lemma FinishHeals(s: Sys, n: int, rmq: RabbitmqCluster)
    requires Quiet(s, n) && n > Count(rmq.spec.replicas) + 9 && rmq == s.w.cluster && Sound(s.w) && PluginsWaited(s.w)
    requires !RestartDue(s.w)
    ensures var p := Finish(s, rmq);
            p.result.Completed? && Healthy(p.s.w) && p.s.w.cluster.status.observedGeneration == rmq.generation
  {
    var c := RunCommands(s, rmq);
    CommandsHeal(s, n, rmq);
    var st := c.rmq.status.(observedGeneration := c.rmq.generation);
    var conditions := AfterSetCondition(st.conditions, ReconcileSuccess, ConditionTrue, "Success", [], c.s.w.now);
    hide Healthy, Sound, RunCommands, UpdateStatus, AfterSetCondition, Quiet, RestartDue, PluginsWaited;
    StatusWritten(c.s, n - Count(rmq.spec.replicas) - 7, c.rmq, st.(conditions := conditions));
    AppliedOn(c.s.w, Finish(s, rmq).s.w);
  }

  // The markers have aged: the configuration's lies before this second, the
  // plugins' at least two seconds back.
  predicate Aged(w: World) {
    ConfWaited(w) && PluginsWaited(w)
  }

  lemma AgedOn(w: World, v: World)
    requires Aged(w) && v.server == w.server && v.plugins == w.plugins && v.now == w.now
    ensures Aged(v)
  {
  }

  lemma RestHeals(s: Sys, n: int, rmq: RabbitmqCluster, tries: nat)
    requires Quiet(s, n) && n > Count(rmq.spec.replicas) + 14 && rmq == s.w.cluster && Sound(s.w) && Aged(s.w)
    requires tries > 0
    ensures var p := AfterChildren(s, rmq, tries);
            p.result.Completed? && Healthy(p.s.w) && p.s.w.cluster.status.observedGeneration == rmq.generation
  {
    RestartHeals(s, n, tries);
    var s1 := RestartIfNeeded(s, tries).0;
    assert Aged(s1.w) && s1.w.cluster == rmq && Sound(s1.w);
    hide Healthy, Sound, Applied, Quiet, RestartIfNeeded, ReconcileStatus, Finish, Aged, RestartDue;
    StatusPasses(s1, n - 4, rmq);
    var q := ReconcileStatus(s1, rmq);
    AppliedOn(s1.w, q.s.w);
    AgedOn(s1.w, q.s.w);
    SameRestart(s1.w, q.s.w);
    AgedPlugins(q.s.w);
    FinishHeals(q.s, n - 5, q.rmq);
  }

  lemma SameRestart(w: World, v: World)
    requires ClusterOnly(w, v)
    ensures RestartDue(v) <==> RestartDue(w)
  {
  }

  lemma AgedPlugins(w: World)
    requires Aged(w)
    ensures PluginsWaited(w)
  {
  }

  function CallsOfPass(spec: ClusterSpec): nat {
    CallsOf(Builders(spec), Count(spec.replicas)) + Count(spec.replicas) + 30
  }

  // The steps of a pass up to the children, once the resource has been read.
  function Opened(s: Sys): Step {
    Preliminaries(Note(Enter(s), PassBegan(Enter(s).w.cluster.spec)), Enter(s).w.cluster)
  }

  function Built(s: Sys, tries: nat): Step {
    var p := Opened(s);
    RunBuilders(p.s, p.rmq, Builders(p.rmq.spec), tries)
  }

  predicate GetsPast(s: Sys, tries: nat) {
    FateOf(s) == Delivered && !Enter(s).w.cluster.paused && Opened(s).flow == Go && Built(s, tries).flow == Go
  }

  lemma PastBuilders(s: Sys, tries: nat)
    requires GetsPast(s, tries)
    ensures Reconcile(s, tries) == AfterChildren(Built(s, tries).s, Built(s, tries).rmq, tries)
  {
    hide Preliminaries, RunBuilders, AfterChildren, Builders, Enter;
  }

  // Over ready children the builders have nothing to do.
  lemma ReadyPassBuilds(s: Sys, tries: nat)
    requires Sound(s.w) && tries > 0 && Quiet(s, CallsOfPass(s.w.cluster.spec))
    ensures var q := Built(s, tries);
            && GetsPast(s, tries) && ClusterOnly(s.w, q.s.w) && q.rmq == q.s.w.cluster && Sound(q.s.w)
            && q.rmq.generation == s.w.cluster.generation && Quiet(q.s, Count(q.rmq.spec.replicas) + 15)
  {
    var rmq, r := s.w.cluster, Count(s.w.cluster.spec.replicas);
    var bs := Builders(rmq.spec);
    var n := CallsOfPass(rmq.spec);
    QuietCall(s, n);
    var s1 := Note(Enter(s), PassBegan(rmq.spec));
    assert FateOf(s) == Delivered && Quiet(s1, n - 1) && ClusterOnly(s.w, s1.w) && Enter(s).w.cluster == rmq;
    AppliedOn(s.w, s1.w);
    SoundIsInOrder(s.w);
    hide Healthy, Sound, Applied, Quiet, Preliminaries, RunBuilders, AfterChildren, Builders, Enter, Aged;
    PreliminariesPass(s1, n - 1, rmq);
    var p := Preliminaries(s1, rmq);
    ClusterOnlyTransitive(s.w, s1.w, p.s.w);
    AppliedOn(s.w, p.s.w);
    BuildersPass(p.s, n - 8, p.rmq, bs, tries);
    var q := RunBuilders(p.s, p.rmq, bs, tries);
    ClusterOnlyTransitive(s.w, p.s.w, q.s.w);
    AppliedOn(s.w, q.s.w);
    QuietFewer(q.s, n - 8 - CallsOf(bs, r), r + 15);
  }

  lemma QuietFewer(s: Sys, n: int, m: int)
    requires Quiet(s, n) && m <= n
    ensures Quiet(s, m)
  {
  }

  // One pass over a cluster whose children are as wanted and ready, its markers
  // aged and its calls answered, does all pending work: it restarts if that is
  // due, runs the commands that are marked, and leaves a healthy cluster.
  lemma ReadyPassHeals(s: Sys, tries: nat)
    requires Sound(s.w) && Aged(s.w) && tries > 0 && Quiet(s, CallsOfPass(s.w.cluster.spec))
    ensures var p := Reconcile(s, tries);
            p.result.Completed? && Healthy(p.s.w) && p.s.w.cluster.status.observedGeneration == s.w.cluster.generation
  {
    var q := Built(s, tries);
    ReadyPassBuilds(s, tries);
    PastBuilders(s, tries);
    AgedOn(s.w, q.s.w);
    hide Healthy, Sound, Quiet, Built, GetsPast, AfterChildren, Aged;
    RestHeals(q.s, Count(q.rmq.spec.replicas) + 15, q.rmq, tries);
  }
}
