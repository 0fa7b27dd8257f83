// The commands a pass runs in the pods: a marker is removed only after its
// command succeeded on every pod concerned.
module Commands {
  import opened Text
  import opened Spec
  import opened ApiServer
  import opened Controllers
  import opened Invariants
  import opened Calls
  import opened Passes

  lemma {:induction false} RunOnPodsRuns(s: Sys, cmd: Command, i: nat, n: int)
    requires Inv(s.w) && Due(s.w.log, cmd) && n == PodsOf(cmd, Seen(s.w.log).value)
    requires RanOnPods(s.w.log, cmd, i) && (i == 0 || i <= n)
    ensures var (v, ok) := RunOnPods(s, cmd, i, n);
            Steady(s.w, v.w) && Seen(v.w.log) == Seen(s.w.log) && (ok ==> RanOnPods(v.w.log, cmd, n))
    decreases n - i
  {
    hide Inv, Steady, Exec, Seen, GoodLog;
    SteadyReflexive(s.w);
    if i < n {
      var (s1, ok) := Exec(s, cmd, i);
      ExecSteady(s, cmd, i);
      Appended(s.w.log, Executed(cmd, i, ok));
      InvOfSteady(s.w, s1.w);
      if ok {
        RunOnPodsRuns(s1, cmd, i + 1, n);
        SteadyTransitive(s.w, s1.w, RunOnPods(s1, cmd, i + 1, n).0.w);
      }
    }
  }

  // What a pass knows while it runs commands: its copies, and that it looked.
  ghost predicate Knows(c: Cli) {
    && Inv(c.s.w) && Holds(c.s.w, c.rmq) && HoldsSts(c.s.w, c.sts) && HoldsMap(c.s.w, PluginsMap, c.plugins)
    && Seen(c.s.w.log).Some?
    && ReadyAndUpdated(Seen(c.s.w.log).value.sts) && Seen(c.s.w.log).value.sts.replicas == c.rmq.spec.replicas
  }

  predicate SameSts(a: Sts, b: Sts) {
    b == a.(annotations := b.annotations, rv := b.rv)
  }

  ghost predicate CommandStep(c: Cli, d: Cli) {
    && Steady(c.s.w, d.s.w) && Holds(d.s.w, d.rmq) && SameSpec(d.rmq, c.rmq) && SameSts(c.sts, d.sts)
    && (d.flow == Go ==> Knows(d) && Seen(d.s.w.log) == Seen(c.s.w.log))
  }

  lemma CommandStepTransitive(c: Cli, d: Cli, e: Cli)
    requires Inv(c.s.w) && CommandStep(c, d) && CommandStep(d, e) && d.flow == Go
    ensures CommandStep(c, e)
  {
    SteadyTransitive(c.s.w, d.s.w, e.s.w);
  }

  // The copies held stay what they were while the store moves on.
  lemma KnowsOn(c: Cli, v: Sys)
    requires Knows(c) && Steady(c.s.w, v.w) && Seen(v.w.log) == Seen(c.s.w.log)
    ensures Knows(c.(s := v)) && CommandStep(c, c.(s := v))
  {
    HoldsOn(c.s.w, v.w, c.rmq);
    HoldsStsOn(c.s.w, v.w, c.sts);
    HoldsMapOn(c.s.w, v.w, PluginsMap, c.plugins);
  }

  lemma CopiesOn(c: Cli, v: Sys)
    requires Knows(c) && Steady(c.s.w, v.w)
    ensures CommandStep(c, c.(s := v, flow := Error))
  {
    HoldsOn(c.s.w, v.w, c.rmq);
  }

  lemma PodsFirst(c: Cli, cmd: Command, n: int)
    requires Knows(c) && Due(c.s.w.log, cmd) && n == PodsOf(cmd, Seen(c.s.w.log).value)
    ensures var (v, ok) := RunOnPods(c.s, cmd, 0, n);
            && Knows(c.(s := v)) && CommandStep(c, c.(s := v)) && CommandStep(c, c.(s := v, flow := Error))
            && Seen(v.w.log) == Seen(c.s.w.log) && (ok ==> RanOnPods(v.w.log, cmd, n))
  {
    RunOnPodsRuns(c.s, cmd, 0, n);
    KnowsOn(c, RunOnPods(c.s, cmd, 0, n).0);
    CopiesOn(c, RunOnPods(c.s, cmd, 0, n).0);
  }

  lemma StaysKnown(c: Cli)
    requires Knows(c)
    ensures CommandStep(c, c) && Inv(c.s.w)
  {
  }

  lemma RunSetPluginsClears(c: Cli)
    requires Knows(c) && c.flow == Go && Due(c.s.w.log, SetPlugins) && Seen(c.s.w.log).value.plugins == c.plugins
    requires RanOnPods(c.s.w.log, SetPlugins, PodsOf(SetPlugins, Seen(c.s.w.log).value))
    ensures var (s2, u) := UpdateMap(c.s, PluginsMap,
      c.plugins.(annotations := c.plugins.annotations - {PLUGINS_UPDATED_AT}), Apply);
            && CommandStep(c, if u.Ok? then c.(s := s2, plugins := u.value) else c.(s := s2, flow := Error))
            && (u.Ok? ==> !Pending(u.value.annotations, PLUGINS_UPDATED_AT) && s2.w.plugins == Some(u.value))
  {
    var obj := c.plugins.(annotations := c.plugins.annotations - {PLUGINS_UPDATED_AT});
    var value := c.plugins.annotations[PLUGINS_UPDATED_AT];
    assert Finished(c.s.w.log, SetPlugins, value, c.plugins.rv) by { hide Inv, Seen, RanOnPods; }
    ClearPluginsSteady(c.s, c.plugins, obj);
    var (s2, u) := UpdateMap(c.s, PluginsMap, obj, Apply);
    if u.Ok? { KnowsOn(c, s2); } else { CopiesOn(c, s2); }
    hide Inv, Grows, RanOnPods, UpdateMap, Seen, Proper, GoodLog;
  }

  lemma RunSetPluginsRuns(c: Cli)
    requires Knows(c) && c.flow == Go && Seen(c.s.w.log).value.plugins == c.plugins && c.s.w.plugins == Some(c.plugins)
    ensures var d := RunSetPlugins(c);
            && CommandStep(c, d) && d.sts == c.sts && d.rmq == c.rmq
            && (d.flow == Go ==> !Pending(d.plugins.annotations, PLUGINS_UPDATED_AT) && !PluginsPending(d.s.w))
  {
    assert Seen(c.s.w.log).Some?;
    assert Pending(c.plugins.annotations, PLUGINS_UPDATED_AT) ==> Due(c.s.w.log, SetPlugins);
    assert c.rmq.spec.replicas == PodsOf(SetPlugins, Seen(c.s.w.log).value);
    hide Knows, CommandStep, RunOnPods, UpdateMap, Pending, Inv, RanOnPods, Due, Seen, PodsOf;
    StaysKnown(c);
    if Pending(c.plugins.annotations, PLUGINS_UPDATED_AT) {
      var (s1, ok) := RunOnPods(c.s, SetPlugins, 0, c.rmq.spec.replicas);
      var c1 := c.(s := s1);
      PodsFirst(c, SetPlugins, c.rmq.spec.replicas);
      if ok {
        DueOn(c.s.w.log, s1.w.log, SetPlugins);
        RunSetPluginsClears(c1);
        CommandStepTransitive(c, c1, RunSetPlugins(c));
      }
    }
  }

  lemma RunEnableFeatureFlagsClears(c: Cli)
    requires Knows(c) && c.flow == Go && Due(c.s.w.log, EnableFeatureFlags) && Seen(c.s.w.log).value.sts == c.sts
    requires RanOnPods(c.s.w.log, EnableFeatureFlags, PodsOf(EnableFeatureFlags, Seen(c.s.w.log).value))
    ensures var (s2, u) := UpdateSts(c.s, c.sts.(annotations := c.sts.annotations - {CREATED_AT}), Apply);
            && CommandStep(c, if u.Ok? then c.(s := s2, sts := u.value) else c.(s := s2, flow := Error))
            && (u.Ok? ==> !Pending(u.value.annotations, CREATED_AT))
  {
    var obj := c.sts.(annotations := c.sts.annotations - {CREATED_AT});
    var value := c.sts.annotations[CREATED_AT];
    assert Finished(c.s.w.log, EnableFeatureFlags, value, c.sts.rv) by { hide Inv, Seen, RanOnPods; }
    ClearCreationSteady(c.s, c.sts, obj);
    var (s2, u) := UpdateSts(c.s, obj, Apply);
    if u.Ok? { KnowsOn(c, s2); } else { CopiesOn(c, s2); }
    hide Inv, Grows, RanOnPods, UpdateSts, Seen, Proper, GoodLog;
  }

  lemma RunEnableFeatureFlagsRuns(c: Cli)
    requires Knows(c) && c.flow == Go && Seen(c.s.w.log).value.sts == c.sts
    ensures var d := RunEnableFeatureFlags(c);
            && CommandStep(c, d) && d.plugins == c.plugins && d.rmq == c.rmq
            && (d.flow == Go ==> !Pending(d.sts.annotations, CREATED_AT))
  {
    assert Seen(c.s.w.log).Some?;
    assert Pending(c.sts.annotations, CREATED_AT) ==> Due(c.s.w.log, EnableFeatureFlags);
    assert 1 == PodsOf(EnableFeatureFlags, Seen(c.s.w.log).value);
    hide Knows, CommandStep, RunOnPods, UpdateSts, Pending, Inv, RanOnPods, Due, Seen, PodsOf;
    StaysKnown(c);
    if Pending(c.sts.annotations, CREATED_AT) {
      var (s1, ok) := RunOnPods(c.s, EnableFeatureFlags, 0, 1);
      var c1 := c.(s := s1);
      PodsFirst(c, EnableFeatureFlags, 1);
      if ok {
        DueOn(c.s.w.log, s1.w.log, EnableFeatureFlags);
        RunEnableFeatureFlagsClears(c1);
        CommandStepTransitive(c, c1, RunEnableFeatureFlags(c));
      }
    }
  }

  lemma RunQueueRebalanceClears(c: Cli)
    requires Knows(c) && c.flow == Go && Due(c.s.w.log, RebalanceQueues) && Seen(c.s.w.log).value.rmq == c.rmq
    requires RanOnPods(c.s.w.log, RebalanceQueues, PodsOf(RebalanceQueues, Seen(c.s.w.log).value))
    ensures var (s2, u) := UpdateCluster(c.s, c.rmq.(annotations := c.rmq.annotations - {QUEUE_REBALANCE_NEEDED_AT}));
            && CommandStep(c, if u.Ok? then c.(s := s2, rmq := u.value) else c.(s := s2, flow := Error))
            && (u.Ok? ==> !Pending(u.value.annotations, QUEUE_REBALANCE_NEEDED_AT))
  {
    var obj := c.rmq.(annotations := c.rmq.annotations - {QUEUE_REBALANCE_NEEDED_AT});
    var value := c.rmq.annotations[QUEUE_REBALANCE_NEEDED_AT];
    assert Finished(c.s.w.log, RebalanceQueues, value, c.rmq.rv) by { hide Inv, Seen, RanOnPods; }
    ClearRebalanceSteady(c.s, c.rmq, obj);
    var (s2, u) := UpdateCluster(c.s, obj);
    if u.Ok? { KnowsOn(c, s2); } else { CopiesOn(c, s2); }
    hide Inv, Grows, RanOnPods, UpdateCluster, Seen, Proper, GoodLog;
  }

  lemma RunQueueRebalanceRuns(c: Cli)
    requires Knows(c) && c.flow == Go && Seen(c.s.w.log).value.rmq == c.rmq
    ensures var d := RunQueueRebalance(c);
            && CommandStep(c, d) && d.plugins == c.plugins && d.sts == c.sts
            && (d.flow == Go ==> !Pending(d.rmq.annotations, QUEUE_REBALANCE_NEEDED_AT))
  {
    assert Seen(c.s.w.log).Some?;
    assert Pending(c.rmq.annotations, QUEUE_REBALANCE_NEEDED_AT) ==> Due(c.s.w.log, RebalanceQueues);
    assert 1 == PodsOf(RebalanceQueues, Seen(c.s.w.log).value);
    hide Knows, CommandStep, RunOnPods, UpdateCluster, Pending, Inv, RanOnPods, Due, Seen, PodsOf;
    StaysKnown(c);
    if Pending(c.rmq.annotations, QUEUE_REBALANCE_NEEDED_AT) {
      var (s1, ok) := RunOnPods(c.s, RebalanceQueues, 0, 1);
      var c1 := c.(s := s1);
      PodsFirst(c, RebalanceQueues, 1);
      if ok {
        DueOn(c.s.w.log, s1.w.log, RebalanceQueues);
        RunQueueRebalanceClears(c1);
        CommandStepTransitive(c, c1, RunQueueRebalance(c));
      }
    }
  }

  lemma DueOn(a: seq<Event>, b: seq<Event>, cmd: Command)
    requires Due(a, cmd) && Seen(b) == Seen(a)
    ensures Due(b, cmd)
  {
  }

  // No marker of pending work in the copies the pass holds.
  predicate NonePending(c: Cli) {
    && !Pending(c.plugins.annotations, PLUGINS_UPDATED_AT)
    && !Pending(c.sts.annotations, CREATED_AT)
    && !Pending(c.rmq.annotations, QUEUE_REBALANCE_NEEDED_AT)
  }

  lemma RunMarkedCommandsRuns(c: Cli)
    requires Knows(c) && c.flow == Go && Seen(c.s.w.log) == Some(Look(c.rmq, c.sts, c.plugins))
    requires c.s.w.plugins == Some(c.plugins)
    ensures var d := RunMarkedCommands(c);
            CommandStep(c, d) && (d.flow == Go ==> NonePending(d) && PluginsDone(c.s.w, d.s.w))
  {
    var c1 := RunSetPlugins(c);
    RunSetPluginsRuns(c);
    InvOfKnows(c);
    assert c1.flow == Go ==> Knows(c1) && Seen(c1.s.w.log) == Seen(c.s.w.log);
    hide Knows, RunSetPlugins, RunEnableFeatureFlags, RunQueueRebalance, Inv, Steady, Holds, Pending, Seen;
    if c1.flow == Go {
      var c2 := RunEnableFeatureFlags(c1);
      RunEnableFeatureFlagsRuns(c1);
      CommandStepTransitive(c, c1, c2);
      IdleStays(c1.s.w, c2.s.w);
      if c2.flow == Go {
        RunQueueRebalanceRuns(c2);
        var d := RunQueueRebalance(c2);
        CommandStepTransitive(c, c2, d);
        IdleStays(c2.s.w, d.s.w);
        RewritesGrow(c.s.w, c1.s.w);
      }
    }
  }

  // Unless others rewrote it meanwhile, no plugins marker is pending any more.
  predicate PluginsDone(w: World, v: World) {
    w.rewrites <= v.rewrites && (w.rewrites == v.rewrites ==> !PluginsPending(v))
  }

  lemma IdleStays(w: World, v: World)
    requires Steady(w, v)
    ensures w.rewrites <= v.rewrites
    ensures w.rewrites == v.rewrites && !PluginsPending(w) ==> !PluginsPending(v)
  {
  }

  lemma RewritesGrow(w: World, v: World)
    requires Steady(w, v)
    ensures w.rewrites <= v.rewrites
  {
  }

  lemma InvOfKnows(c: Cli)
    requires Knows(c)
    ensures Inv(c.s.w)
  {
  }

  // The look is recorded while the plugins ConfigMap is as it was read.
  lemma LookIsRecorded(s: Sys, rmq: RabbitmqCluster, sts: Sts, m: StoredMap)
    requires Inv(s.w) && Holds(s.w, rmq) && HoldsSts(s.w, sts) && s.w.plugins == Some(m)
    requires ReadyAndUpdated(sts) && sts.replicas == rmq.spec.replicas
    ensures var v := Note(s, Looked(Look(rmq, sts, m)));
            && Steady(s.w, v.w) && Knows(Cli(v, rmq, sts, m, Go)) && Seen(v.w.log) == Some(Look(rmq, sts, m))
            && v.w.plugins == Some(m)
  {
    var e := Looked(Look(rmq, sts, m));
    NoteSteady(s, e);
    var v := Note(s, e);
    Appended(s.w.log, e);
    HoldsOn(s.w, v.w, rmq);
    HoldsStsOn(s.w, v.w, sts);
    InvOfSteady(s.w, v.w);
    hide Inv, Grows, GoodLog;
  }

  lemma ReadyToRun(s: Sys, rmq: RabbitmqCluster)
    requires Inv(s.w) && Holds(s.w, rmq) && (s.w.sts.Some? ==> s.w.sts.value.replicas == rmq.spec.replicas)
    ensures var (s1, r) := ReadSts(s); var (s2, p) := ReadMap(s1, PluginsMap);
            && StepKeeps(s, rmq, s1, rmq) && StepKeeps(s, rmq, s2, rmq) && Inv(s2.w) && Holds(s2.w, rmq)
            && (r.Ok? ==>
                HoldsSts(s2.w, r.value) && r.value.replicas == rmq.spec.replicas && Some(r.value) == Enter(s).w.sts)
            && (p.Ok? ==> s2.w.plugins == Some(p.value))
  {
    var (s1, r) := ReadSts(s);
    ReadKeeps(s, rmq);
    var (s2, p) := ReadMap(s1, PluginsMap);
    ReadKeeps(s1, rmq);
    StepKeepsTransitive(s, rmq, s1, rmq, s2, rmq);
    if r.Ok? { HoldsStsOn(s1.w, s2.w, r.value); }
  }

  // Commands are run only on a StatefulSet whose replicas were all ready on
  // one revision, and when they are through nothing is pending.
  lemma RunCommandsRuns(s: Sys, rmq: RabbitmqCluster)
    requires Inv(s.w) && Holds(s.w, rmq) && (s.w.sts.Some? ==> s.w.sts.value.replicas == rmq.spec.replicas)
    ensures var c := RunCommands(s, rmq);
            && StepKeeps(s, rmq, c.s, c.rmq)
            && (c.flow == Go ==>
                && NonePending(c) && ReadyAndUpdated(c.sts) && Enter(s).w.sts.Some?
                && SameSts(Enter(s).w.sts.value, c.sts)
                && PluginsDone(s.w, c.s.w))
  {
    var c := RunCommands(s, rmq);
    var (s1, r) := ReadSts(s);
    var (s2, p) := ReadMap(s1, PluginsMap);
    ReadyToRun(s, rmq);
    hide Inv, Holds, HoldsSts, ReadSts, ReadMap, Steady, RunMarkedCommands, ReadyAndUpdated, NonePending, Enter, Knows;
    if r.Ok? && ReadyAndUpdated(r.value) && p.Ok? && UpdatedRecently(p.value.annotations, s2.w.now) == Some(false) {
      LookIsRecorded(s2, rmq, r.value, p.value);
      var s3 := Note(s2, Looked(Look(rmq, r.value, p.value)));
      var c0 := Cli(s3, rmq, r.value, p.value, Go);
      RunMarkedCommandsRuns(c0);
      assert CommandStep(c0, c) && c == RunMarkedCommands(c0);
      SteadyTransitive(s.w, s2.w, s3.w);
      SteadyTransitive(s.w, s3.w, c.s.w);
      SameReady(r.value, c.sts);
      RewritesGrow(s.w, s3.w);
    }
  }

  lemma SameReady(a: Sts, b: Sts)
    requires SameSts(a, b)
    ensures ReadyAndUpdated(a) <==> ReadyAndUpdated(b)
  {
  }
}
