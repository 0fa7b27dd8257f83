// The feature flags of a new StatefulSet are enabled: it gets its marker in
// the pass that creates it, and keeps it until the command has run.
module Creation {
  import opened Text
  import opened Rfc3339
  import opened Conditions
  import opened Spec
  import opened ApiServer
  import opened Controllers
  import opened Invariants
  import opened Calls
  import opened Passes
  import opened Children
  import opened Commands
  import opened Runs
  import opened Settling
  import opened Recovery
  import opened Applying
  import opened StsWrites
  import Restarts

  predicate FlagsSince(a: seq<Event>, b: seq<Event>) {
    exists k :: |a| <= k < |b| && b[k] == Executed(EnableFeatureFlags, 0, true)
  }

  predicate BearsMarker(w: World) {
    w.sts.Some? && CREATED_AT in w.sts.value.annotations && w.sts.value.annotations[CREATED_AT].Stamp?
  }

  // The StatefulSet has its creation marker, or the flags were enabled since.
  predicate Flagged(base: seq<Event>, w: World) {
    w.sts.Some? ==> BearsMarker(w) || FlagsSince(base, w.log)
  }

  lemma SinceOn(a: seq<Event>, b: seq<Event>, c: seq<Event>)
    requires FlagsSince(a, b) && b <= c
    ensures FlagsSince(a, c)
  {
    var k :| |a| <= k < |b| && b[k] == Executed(EnableFeatureFlags, 0, true);
    assert c[k] == b[k];
  }

  // The marker goes only after the command.
  lemma ClearedAfterFlags(w: World, v: World)
    requires GoodLog(v.log) && w.log <= v.log && w.log != [] && Clears(w.log) < Clears(v.log)
    ensures FlagsSince(Init(w.log), v.log)
  {
    hide GoodLog, Clears, DueAt, MarkerOf, VersionOf;
    var k := ClearedSince(w.log, v.log);
    var l := ClearedAfterLook(v.log, k);
    assert v.log[k - 1 + 0] == Executed(EnableFeatureFlags, 0, true);
  }

  lemma FlaggedOn(base: seq<Event>, w: World, v: World)
    requires |base| < |w.log| && Kept(w, v) && Shaped(w, v) && Flagged(base, w)
    ensures Flagged(base, v) && |base| < |v.log|
  {
    assert GoodLog(v.log) && w.log <= v.log;
    if v.sts.Some? {
      if FlagsSince(base, w.log) {
        SinceOn(base, w.log, v.log);
      } else if CREATED_AT !in v.sts.value.annotations {
        assert MarkerStays(w, v);
        ClearedAfterFlags(w, v);
      }
    }
    hide Kept, Inv, Grows;
  }

  /* ---- the pass up to the children ---- */

  lemma {:induction false} PrefixGoes(s: Sys, rmq: RabbitmqCluster, bs: seq<Builder>, b: Builder, tries: nat)
    requires RunBuilders(s, rmq, bs + [b], tries).flow == Go
    ensures RunBuilders(s, rmq, bs, tries).flow == Go
    decreases |bs|
  {
    hide RunBuilder;
    if bs != [] {
      assert (bs + [b])[1..] == bs[1..] + [b] && (bs + [b])[0] == bs[0];
      var p := RunBuilder(s, rmq, bs[0], tries);
      PrefixGoes(p.s, p.rmq, bs[1..], b, tries);
    }
  }

  ghost predicate Before(s: Sys, t: Sys, rmq: RabbitmqCluster) {
    Kept(s.w, t.w) && Shaped(s.w, t.w) && Holds(t.w, rmq)
  }

  lemma OneBefore(s: Sys, rmq: RabbitmqCluster, b: Builder, tries: nat)
    requires Inv(s.w) && Holds(s.w, rmq) && !b.StsBuilder?
    ensures var p := RunBuilder(s, rmq, b, tries); Before(s, p.s, p.rmq) && Inv(p.s.w)
  {
    RunBuilderBuilds(s, rmq, b, tries);
    hide RunBuilder, Holds, Inv, SameData, Marks;
  }

  // The other builders leave the StatefulSet its shape.
  lemma {:induction false} OthersBefore(s: Sys, rmq: RabbitmqCluster, bs: seq<Builder>, tries: nat)
    requires Inv(s.w) && Holds(s.w, rmq) && forall b :: b in bs ==> !b.StsBuilder?
    ensures var p := RunBuilders(s, rmq, bs, tries); Before(s, p.s, p.rmq)
    decreases |bs|
  {
    hide RunBuilder, Inv, Holds, Grows, Shaped;
    BeforeItself(s, rmq);
    if bs != [] {
      var p := RunBuilder(s, rmq, bs[0], tries);
      OneBefore(s, rmq, bs[0], tries);
      if p.flow == Go {
        OthersBefore(p.s, p.rmq, bs[1..], tries);
        var q := RunBuilders(p.s, p.rmq, bs[1..], tries);
        BeforeTransitive(s, p.s, q.s);
      }
    }
  }

  lemma BeforeItself(s: Sys, rmq: RabbitmqCluster)
    requires Inv(s.w) && Holds(s.w, rmq)
    ensures Before(s, s, rmq)
  {
  }

  lemma BeforeTransitive(s: Sys, t: Sys, u: Sys)
    requires Inv(s.w) && Kept(s.w, t.w) && Shaped(s.w, t.w) && Kept(t.w, u.w) && Shaped(t.w, u.w)
    ensures Kept(s.w, u.w) && Shaped(s.w, u.w)
  {
    KeptTransitive(s.w, t.w, u.w);
  }

  lemma OpenedKeeps(s: Sys)
    requires Inv(s.w) && FateOf(s) == Delivered
    ensures var p := Opened(s); Before(s, p.s, p.rmq) && |s.w.log| < |p.s.w.log|
  {
    var e := Enter(s);
    var rmq := e.w.cluster;
    var s1 := Note(e, PassBegan(rmq.spec));
    EnterSteady(s);
    assert Holds(e.w, rmq) && e.w.log == s.w.log;
    PassOpens(e, rmq);
    PreliminariesKeep(s1, rmq);
    var p := Opened(s);
    assert Steady(s.w, e.w) && Steady(e.w, s1.w) && Steady(s1.w, p.s.w) && Holds(p.s.w, p.rmq);
    assert |s1.w.log| == |s.w.log| + 1 && s1.w.log <= p.s.w.log;
    hide *;
    SteadyTransitive(s.w, e.w, s1.w);
    SteadyTransitive(s.w, s1.w, p.s.w);
    SteadyApart(s.w, p.s.w);
    BeforeOf(s, p.s, p.rmq);
  }

  lemma BeforeOf(s: Sys, t: Sys, rmq: RabbitmqCluster)
    requires Kept(s.w, t.w) && Shaped(s.w, t.w) && Holds(t.w, rmq)
    ensures Before(s, t, rmq)
  {
  }

  // The last builder's step.
  lemma LastStep(s: Sys, tries: nat)
    requires GetsPast(s, tries)
    ensures var p := Opened(s); var m := RunBuilders(p.s, p.rmq, AllBut(p.rmq.spec), tries);
            m.flow == Go && Built(s, tries) == RunBuilder(m.s, m.rmq, StsBuilder, tries)
  {
    var p := Opened(s);
    StsComesLast(p.rmq.spec);
    PrefixGoes(p.s, p.rmq, AllBut(p.rmq.spec), StsBuilder, tries);
    BuildersSplit(p.s, p.rmq, AllBut(p.rmq.spec), StsBuilder, tries);
    hide Opened, RunBuilders, RunBuilder, AllBut, Builders;
  }

  lemma StillOld(w: World, m: World, q: World)
    requires Kept(w, m) && Shaped(w, m) && Grows(m, q) && Numbered(w)
    ensures q.sts.Some? && q.sts.value.uid >= w.nextId ==> q.sts.value.uid >= m.nextId
  {
  }

  // Whatever happens at the calls: a pass that gets past the children has
  // given a StatefulSet made in it its creation marker.
  lemma NewIsMarked(s: Sys, tries: nat)
    requires Inv(s.w) && GetsPast(s, tries)
    ensures var q := Built(s, tries);
            && Inv(q.s.w) && Holds(q.s.w, q.rmq) && |s.w.log| < |q.s.w.log| && Grows(s.w, q.s.w)
            && Settled(q.s.w, q.rmq.spec, StsBuilder)
            && (q.s.w.sts.Some? && q.s.w.sts.value.uid >= s.w.nextId ==> BearsMarker(q.s.w))
  {
    var p, q := Opened(s), Built(s, tries);
    var m := RunBuilders(p.s, p.rmq, AllBut(p.rmq.spec), tries);
    OpenedKeeps(s);
    LastStep(s, tries);
    StsComesLast(p.rmq.spec);
    hide GetsPast, Opened, Built, RunBuilders, RunBuilder, AllBut, Builders, Shaped, Grows, Holds;
    assert Inv(p.s.w);
    OthersBefore(p.s, p.rmq, AllBut(p.rmq.spec), tries);
    BeforeTransitive(s, p.s, m.s);
    assert Inv(m.s.w);
    hide Inv;
    RunBuilderBuilds(m.s, m.rmq, StsBuilder, tries);
    GoMeansMarked(m.s, m.rmq, tries);
    LastKeeps(m.s, m.rmq, q);
    KeptTransitive(s.w, m.s.w, q.s.w);
    NumberedNow(s.w);
    StillOld(s.w, m.s.w, q.s.w);
    LogsGrow(s.w, p.s.w, m.s.w, q.s.w);
  }

  lemma NumberedNow(w: World)
    requires Inv(w)
    ensures Numbered(w)
  {
  }

  lemma LastKeeps(s: Sys, rmq: RabbitmqCluster, q: Step)
    requires BuiltStep(s, rmq, StsBuilder, q.s, q.rmq, true)
    ensures Kept(s.w, q.s.w) && Holds(q.s.w, q.rmq) && Settled(q.s.w, q.rmq.spec, StsBuilder) && Inv(q.s.w)
  {
  }

  lemma LogsGrow(w: World, p: World, m: World, q: World)
    requires |w.log| < |p.log| && Kept(p, m) && Kept(m, q)
    ensures |w.log| < |q.log|
  {
  }

  /* ---- the rest of the pass ---- */

  lemma SinceEarlier(a: seq<Event>, b: seq<Event>, c: seq<Event>)
    requires |a| <= |b| && FlagsSince(b, c)
    ensures FlagsSince(a, c)
  {
  }

  lemma PastIsFlagged(s: Sys, tries: nat)
    requires Inv(s.w) && GetsPast(s, tries)
    ensures var w, q := Reconcile(s, tries).s.w, Built(s, tries);
            && EndKeeps(q.s, q.rmq, Reconcile(s, tries))
            && (w.sts.Some? && w.sts.value.uid >= s.w.nextId ==> Flagged(s.w.log, w))
  {
    var q, p := Built(s, tries), Reconcile(s, tries);
    NewIsMarked(s, tries);
    PastBuilders(s, tries);
    AfterChildrenKeeps(q.s, q.rmq, tries);
    hide GetsPast, Built, Reconcile, AfterChildren, Holds, Settled, Inv, Grows, BearsMarker;
    if p.s.w.sts.Some? && p.s.w.sts.value.uid >= s.w.nextId {
      assert Flagged(s.w.log, q.s.w);
      FlaggedOn(s.w.log, q.s.w, p.s.w);
    }
  }

  lemma OnePodLogs(s: Sys)
    requires Inv(s.w)
    ensures var (v, ok) := RunOnPods(s, EnableFeatureFlags, 0, 1);
            ok ==> v.w.log == s.w.log + [Executed(EnableFeatureFlags, 0, true)]
  {
    EnterBriefly(s);
    var (v, ok) := RunOnPods(s, EnableFeatureFlags, 0, 1);
    assert ok ==> v == Exec(s, EnableFeatureFlags, 0).0;
    hide Inv, Steady, LeftAlone, Grows, Enter;
  }

  lemma UpdateLogs(s: Sys, sts: Sts)
    requires Inv(s.w)
    ensures s.w.log <= UpdateSts(s, sts, Apply).0.w.log
  {
    EnterBriefly(s);
    hide Inv, Steady, LeftAlone, Grows, Enter, StsEvents;
  }

  lemma FlagsRunOnce(c: Cli)
    requires Knows(c) && c.flow == Go && Seen(c.s.w.log).value.sts == c.sts && Pending(c.sts.annotations, CREATED_AT)
    ensures var d := RunEnableFeatureFlags(c); d.flow == Go ==> FlagsSince(c.s.w.log, d.s.w.log)
  {
    var (s1, ok) := RunOnPods(c.s, EnableFeatureFlags, 0, 1);
    InvOfKnows(c);
    OnePodLogs(c.s);
    assert Due(c.s.w.log, EnableFeatureFlags) && PodsOf(EnableFeatureFlags, Seen(c.s.w.log).value) == 1;
    PodsFirst(c, EnableFeatureFlags, 1);
    InvOfKnows(c.(s := s1));
    UpdateLogs(s1, c.sts.(annotations := c.sts.annotations - {CREATED_AT}));
    var d := RunEnableFeatureFlags(c);
    hide Knows, CommandStep, RunOnPods, UpdateSts, Inv, RanOnPods, Due, Seen, PodsOf;
    if d.flow == Go {
      assert s1.w.log <= d.s.w.log;
      assert d.s.w.log[|c.s.w.log|] == Executed(EnableFeatureFlags, 0, true);
    }
  }

  lemma StepGrows(c: Cli, d: Cli)
    requires CommandStep(c, d)
    ensures c.s.w.log <= d.s.w.log
  {
  }

  lemma MarkedCommandsFlag(c: Cli)
    requires Knows(c) && c.flow == Go && Seen(c.s.w.log) == Some(Look(c.rmq, c.sts, c.plugins))
    requires c.s.w.plugins == Some(c.plugins) && Pending(c.sts.annotations, CREATED_AT)
    ensures var d := RunMarkedCommands(c); d.flow == Go ==> FlagsSince(c.s.w.log, d.s.w.log)
  {
    var c1 := RunSetPlugins(c);
    var c2 := RunEnableFeatureFlags(c1);
    RunSetPluginsRuns(c);
    assert c1.flow == Go ==> Knows(c1) && Seen(c1.s.w.log) == Seen(c.s.w.log);
    StepGrows(c, c1);
    hide Knows, RunSetPlugins, RunEnableFeatureFlags, RunQueueRebalance, Inv, Steady, Holds, Pending, Seen;
    if c1.flow == Go {
      RunEnableFeatureFlagsRuns(c1);
      FlagsRunOnce(c1);
      if c2.flow == Go {
        RunQueueRebalanceRuns(c2);
        var d := RunQueueRebalance(c2);
        StepGrows(c2, d);
        SinceOn(c1.s.w.log, c2.s.w.log, d.s.w.log);
        SinceEarlier(c.s.w.log, c1.s.w.log, d.s.w.log);
      }
    }
  }

  lemma CommandsFlag(base: seq<Event>, s: Sys, rmq: RabbitmqCluster)
    requires Inv(s.w) && Holds(s.w, rmq) && (s.w.sts.Some? ==> s.w.sts.value.replicas == rmq.spec.replicas)
    requires |base| < |s.w.log| && Flagged(base, s.w)
    ensures var c := RunCommands(s, rmq); c.flow == Go ==> FlagsSince(base, c.s.w.log)
  {
    var c := RunCommands(s, rmq);
    RunCommandsRuns(s, rmq);
    EnterSteady(s);
    SteadyApart(s.w, Enter(s).w);
    FlaggedOn(base, s.w, Enter(s).w);
    LogGrows(s, rmq, c.s, c.rmq);
    if c.flow == Go {
      if FlagsSince(base, Enter(s).w.log) {
        assert Enter(s).w.log == s.w.log;
        SinceOn(base, s.w.log, c.s.w.log);
      } else {
        var (s1, r) := ReadSts(s);
        var (s2, p) := ReadMap(s1, PluginsMap);
        ReadyToRun(s, rmq);
        assert r.Ok? && ReadyAndUpdated(r.value) && p.Ok? && Pending(r.value.annotations, CREATED_AT);
        LookIsRecorded(s2, rmq, r.value, p.value);
        var c0 := Cli(Note(s2, Looked(Look(rmq, r.value, p.value))), rmq, r.value, p.value, Go);
        assert c == RunMarkedCommands(c0) by { hide RunMarkedCommands, UpdatedRecently; }
        EnterSteady(s1);
        assert |base| <= |c0.s.w.log|;
        hide *;
        MarkedCommandsFlag(c0);
        SinceEarlier(base, c0.s.w.log, c.s.w.log);
      }
    }
  }

  lemma LogGrows(s: Sys, rmq: RabbitmqCluster, t: Sys, held: RabbitmqCluster)
    requires StepKeeps(s, rmq, t, held)
    ensures s.w.log <= t.w.log
  {
  }

  // Whatever happens at the calls: a pass that completes on a StatefulSet made
  // in it has enabled the feature flags.
  lemma CompletedPassFlags(s: Sys, tries: nat)
    requires Inv(s.w)
    ensures var p := Reconcile(s, tries);
            p.result.Completed? && p.result.cli.sts.uid >= s.w.nextId ==> FlagsSince(s.w.log, p.s.w.log)
  {
    var p := Reconcile(s, tries);
    if p.result.Completed? && p.result.cli.sts.uid >= s.w.nextId {
      CompletedIsPast(s, tries);
      var q := Built(s, tries);
      NewIsMarked(s, tries);
      PastBuilders(s, tries);
      hide GetsPast, Built, Reconcile, Inv, Grows, Holds, BearsMarker, Settled;
      RestFlags(s.w.log, q.s, q.rmq, tries, s.w.nextId);
    }
  }

  lemma CompletedIsPast(s: Sys, tries: nat)
    requires Reconcile(s, tries).result.Completed?
    ensures GetsPast(s, tries)
  {
    hide Preliminaries, RunBuilders, AfterChildren, Builders, SetCondition, Enter;
  }

  lemma FinishFlags(base: seq<Event>, s: Sys, rmq: RabbitmqCluster, id: nat)
    requires Inv(s.w) && Holds(s.w, rmq) && Settled(s.w, rmq.spec, StsBuilder) && |base| < |s.w.log|
    requires Finish(s, rmq).result.Completed? && Finish(s, rmq).result.cli.sts.uid >= id
    requires s.w.sts.Some? && s.w.sts.value.uid >= id ==> Flagged(base, s.w)
    ensures FlagsSince(base, Finish(s, rmq).s.w.log)
  {
    FinishKeeps(s, rmq);
    RunCommandsRuns(s, rmq);
    var c := RunCommands(s, rmq);
    InvAfter(s, rmq, c.s, c.rmq);
    hide Inv, Holds, RunCommands, UpdateStatus, AfterSetCondition, Flagged;
    CommandsFlag(base, s, rmq);
    FinishLogs(s, rmq);
    SinceOn(base, c.s.w.log, Finish(s, rmq).s.w.log);
  }

  lemma AfterChildrenFinishes(s: Sys, rmq: RabbitmqCluster, tries: nat)
    requires AfterChildren(s, rmq, tries).result.Completed?
    ensures var q := ReconcileStatus(RestartIfNeeded(s, tries).0, rmq);
            AfterChildren(s, rmq, tries) == Finish(q.s, q.rmq)
  {
    hide RestartIfNeeded, ReconcileStatus, Finish;
  }

  lemma RestFlags(base: seq<Event>, s: Sys, rmq: RabbitmqCluster, tries: nat, id: nat)
    requires Inv(s.w) && Holds(s.w, rmq) && Settled(s.w, rmq.spec, StsBuilder) && |base| < |s.w.log|
    requires s.w.sts.Some? && s.w.sts.value.uid >= id ==> BearsMarker(s.w)
    requires var p := AfterChildren(s, rmq, tries); p.result.Completed? && p.result.cli.sts.uid >= id
    ensures FlagsSince(base, AfterChildren(s, rmq, tries).s.w.log)
  {
    var s1 := RestartIfNeeded(s, tries).0;
    RestartIfNeededKeeps(s, rmq, tries);
    var q := ReconcileStatus(s1, rmq);
    ReconcileStatusKeeps(s1, rmq);
    AfterChildrenFinishes(s, rmq, tries);
    hide AfterChildren, RestartIfNeeded, ReconcileStatus, Finish, Holds, Inv, Settled, BearsMarker;
    StepKeepsTransitive(s, rmq, s1, rmq, q.s, q.rmq);
    AfterSteps(base, s, rmq, q.s, q.rmq, id);
    FinishFlags(base, q.s, q.rmq, id);
  }

  lemma AfterSteps(base: seq<Event>, s: Sys, rmq: RabbitmqCluster, t: Sys, held: RabbitmqCluster, id: nat)
    requires Inv(s.w) && StepKeeps(s, rmq, t, held) && Settled(s.w, rmq.spec, StsBuilder) && |base| < |s.w.log|
    requires s.w.sts.Some? && s.w.sts.value.uid >= id ==> BearsMarker(s.w)
    ensures Inv(t.w) && Holds(t.w, held) && Settled(t.w, held.spec, StsBuilder) && |base| < |t.w.log|
    ensures t.w.sts.Some? && t.w.sts.value.uid >= id ==> Flagged(base, t.w)
  {
    SteadyApart(s.w, t.w);
    SteadyKeepsSettled(s.w, t.w, rmq.spec, StsBuilder);
    LogGrows(s, rmq, t, held);
    InvAfter(s, rmq, t, held);
    hide Inv, Holds, Settled, Grows;
    if t.w.sts.Some? && t.w.sts.value.uid >= id { FlaggedOn(base, s.w, t.w); }
  }

  lemma RestartIfNeededKeeps(s: Sys, rmq: RabbitmqCluster, tries: nat)
    requires Inv(s.w) && Holds(s.w, rmq)
    ensures StepKeeps(s, rmq, RestartIfNeeded(s, tries).0, rmq) && Inv(RestartIfNeeded(s, tries).0.w)
    ensures Holds(RestartIfNeeded(s, tries).0.w, rmq)
  {
    Restarts.NoLostRestart(s, tries);
    HoldsOn(s.w, RestartIfNeeded(s, tries).0.w, rmq);
    hide RestartIfNeeded;
  }

  lemma FinishLogs(s: Sys, rmq: RabbitmqCluster)
    requires Finish(s, rmq).result.Completed? && Inv(RunCommands(s, rmq).s.w)
    ensures RunCommands(s, rmq).flow == Go && RunCommands(s, rmq).s.w.log <= Finish(s, rmq).s.w.log
  {
    EnterBriefly(RunCommands(s, rmq).s);
    hide RunCommands, AfterSetCondition;
  }

  /* ---- two passes ---- */

  lemma FirstPassFlags(s: Sys, tries: nat)
    requires Inv(s.w) && Startable(s.w) && tries > 0 && Quiet(s, CallsOfFirst(s.w.cluster.spec))
    requires Expandable(s.w, s.turns)
    ensures var w := Reconcile(s, tries).s.w;
            && Applied(w) && Kept(s.w, w) && |s.w.log| < |w.log| && w.sts.Some?
            && (s.w.sts.None? ==> w.sts.value.uid >= s.w.nextId)
            && (w.sts.value.uid >= s.w.nextId ==> Flagged(s.w.log, w))
  {
    FirstPassApplies(s, tries);
    FirstPassBuilds(s, tries);
    PastIsFlagged(s, tries);
    NewIsMarked(s, tries);
    NextKeeps(s.w, Begin(s.turns, tries));
    var q, w := Built(s, tries), Reconcile(s, tries).s.w;
    assert Kept(q.s.w, w) && Kept(s.w, w) && q.s.w.log <= w.log;
    assert w.sts.Some?;
    hide Reconcile, Built, Inv, Startable, Expandable, Quiet, Applied, Flagged, GetsPast, Settled, Holds;
  }

  lemma ReadiedKeeps(w: World, revision: nat, t: Time)
    requires Inv(w)
    ensures var v := Readied(w, revision, t); Kept(w, v) && Shaped(w, v) && v.log == w.log
    ensures w.sts.Some? ==> Readied(w, revision, t).sts.Some?
  {
    var u := Acted(w, ReportStatus(w.cluster.spec.replicas, revision, revision));
    ActedLeavesAlone(w, ReportStatus(w.cluster.spec.replicas, revision, revision));
    LeftAloneKeepsInv(w, u);
    ActedLeavesAlone(u, Tick(t));
    LeftAloneKeepsInv(u, Acted(u, Tick(t)));
    LeftAloneTransitive(w, u, Acted(u, Tick(t)));
    hide Inv, Grows, Seconds;
  }

  lemma HealthyIsUnmarked(w: World)
    requires Healthy(w)
    ensures w.sts.Some? && !BearsMarker(w)
  {
    hide Sound, RestartDue;
  }

  lemma SecondPassFlags(base: seq<Event>, s: Sys, tries: nat)
    requires Inv(s.w) && Sound(s.w) && Aged(s.w) && tries > 0 && Quiet(s, CallsOfPass(s.w.cluster.spec))
    requires |base| < |s.w.log| && base <= s.w.log && s.w.sts.Some?
    ensures var w := Reconcile(s, tries).s.w;
            && w.sts.Some? && w.sts.value.uid == s.w.sts.value.uid
            && (Flagged(base, s.w) ==> FlagsSince(base, w.log))
  {
    var q, p := Built(s, tries), Reconcile(s, tries);
    ReadyPassBuilds(s, tries);
    NewIsMarked(s, tries);
    PastIsFlagged(s, tries);
    ReadyPassHeals(s, tries);
    HealthyIsUnmarked(p.s.w);
    assert q.s.w.sts == s.w.sts && s.w.log <= q.s.w.log && Kept(q.s.w, p.s.w) && Shaped(q.s.w, p.s.w);
    hide Reconcile, Built, Inv, Quiet, GetsPast, Settled, Holds, Healthy, Sound, Aged, Grows;
    if Flagged(base, s.w) {
      if FlagsSince(base, s.w.log) { SinceOn(base, s.w.log, q.s.w.log); }
      FlaggedOn(base, q.s.w, p.s.w);
    }
  }

  // Two passes over a new cluster, or one whose claims had to grow, as in
  // TwoPassesHeal: the StatefulSet made in the first has its feature flags
  // enabled.
  lemma TwoPassesEnableFlags(w: World, first: seq<Turn>, revision: nat, t: Time, second: seq<Turn>, tries: nat)
    requires Inv(w) && Startable(w) && tries > 0 && Quiet(Sys(w, first), CallsOfFirst(w.cluster.spec))
    requires Expandable(w, first) && Dated(w) && Seconds(w.now) + 2 <= Seconds(t)
    ensures var v := Readied(Reconcile(Sys(w, first), tries).s.w, revision, t);
            var u := Reconcile(Sys(v, second), tries).s.w;
            Quiet(Sys(v, second), CallsOfPass(w.cluster.spec)) ==>
              && v.sts.Some? && u.sts.Some? && u.sts.value.uid == v.sts.value.uid
              && (w.sts.None? ==> v.sts.value.uid >= w.nextId)
              && (v.sts.value.uid >= w.nextId ==> FlagsSince(w.log, u.log))
  {
    var s := Sys(w, first);
    var w1 := Reconcile(s, tries).s.w;
    var v := Readied(w1, revision, t);
    FirstPassFlags(s, tries);
    FirstPassApplies(s, tries);
    assert Inv(w1) && Dated(w1) && w1.now == w.now && w1.cluster.spec == w.cluster.spec;
    ReadiedKeeps(w1, revision, t);
    ReadiedIsSound(w1, revision, t);
    ReadiedIsAged(w1, revision, t);
    assert v.sts.Some? && v.sts.value.uid == w1.sts.value.uid && Inv(v) && v.log == w1.log && w.log <= w1.log;
    assert Shaped(w1, v) && Kept(w1, v);
    hide Reconcile, Applied, Sound, Aged, Quiet, Healthy, Readied, CallsOfPass, Inv, Flagged, Kept, Shaped;
    if Quiet(Sys(v, second), CallsOfPass(w.cluster.spec)) {
      SecondPassFlags(w.log, Sys(v, second), tries);
      if v.sts.value.uid >= w.nextId { FlaggedOn(w.log, w1, v); }
    }
  }
}
