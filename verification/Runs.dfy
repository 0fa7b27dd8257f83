// Whole passes, and runs of passes with the others acting in between.
module Runs {
  import opened Text
  import opened Rfc3339
  import opened Conditions
  import opened Spec
  import opened ApiServer
  import opened Controllers
  import opened Invariants
  import opened Calls
  import opened Passes
  import opened Children
  import opened Restarts
  import opened Commands

  lemma ReconcileStatusKeeps(s: Sys, rmq: RabbitmqCluster)
    requires Inv(s.w) && Holds(s.w, rmq)
    ensures var p := ReconcileStatus(s, rmq); StepKeeps(s, rmq, p.s, p.rmq)
  {
    StaysPut(s, rmq);
    StatusStep(s, rmq, rmq.status.(userSecret := Some(!rmq.spec.VaultDefaultUserSecretEnabled())));
  }

  // A pass that ran to its end, as its copies show it.
  ghost predicate Achieved(rmq: RabbitmqCluster, c: Cli) {
    && SameSpec(c.rmq, rmq) && NonePending(c) && ReadyAndUpdated(c.sts)
    && StsSettled(c.sts, rmq.spec)
  }

  // The StatefulSet the pass saw is the one that was there before.
  predicate Saw(w: World, c: Cli) {
    w.sts.Some? && w.sts.value.uid == c.sts.uid
  }

  // What the end of a pass keeps: all but the observed generation.
  ghost predicate EndKeeps(s: Sys, rmq: RabbitmqCluster, p: Pass) {
    && Kept(s.w, p.s.w) && Undisturbed(s.w, p.s.w) && Shaped(s.w, p.s.w)
    && (if p.result.Completed?
        then
          && (SameObserved(s.w, p.s.w) || p.s.w.cluster.status.observedGeneration == rmq.generation)
          && PluginsDone(s.w, p.s.w)
        else SameObserved(s.w, p.s.w))
  }

  lemma ObservedIsWritten(s: Sys, rmq: RabbitmqCluster, obj: RabbitmqCluster)
    requires Inv(s.w) && Holds(s.w, rmq) && obj == rmq.(status := obj.status)
    requires obj.status.observedGeneration == rmq.generation
    ensures var v := UpdateStatus(s, obj).0;
            && Kept(s.w, v.w) && Undisturbed(s.w, v.w) && Shaped(s.w, v.w)
            && (SameObserved(s.w, v.w) || v.w.cluster.status.observedGeneration == rmq.generation)
  {
    hide Inv, Kept, Steady, LeftAlone, Grows, Enter, Undisturbed, Shaped;
    EnterBriefly(s);
    var w, v := Enter(s).w, UpdateStatus(s, obj).0.w;
    SteadyApart(s.w, w);
    HoldsOn(s.w, w, rmq);
    if v != w {
      hide Holds;
      StatusRecorded(w, obj);
      KeptTransitive(s.w, w, v);
      UndisturbedTransitive(s.w, w, v);
      ShapedTransitive(s.w, w, v);
    }
  }

  lemma SteadyApart(w: World, v: World)
    requires Steady(w, v)
    ensures Kept(w, v) && Undisturbed(w, v) && Shaped(w, v) && SameObserved(w, v)
  {
  }

  lemma ShapedTransitive(w: World, v: World, u: World)
    requires Shaped(w, v) && Shaped(v, u)
    ensures Shaped(w, u)
  {
  }

  lemma StatusRecorded(w: World, obj: RabbitmqCluster)
    requires Inv(w)
    ensures var v := w.(cluster := w.cluster.(status := obj.status, rv := w.nextId), nextId := w.nextId + 1);
            Kept(w, v) && Undisturbed(w, v) && Shaped(w, v)
  {
  }

  lemma FinishKeeps(s: Sys, rmq: RabbitmqCluster)
    requires Inv(s.w) && Holds(s.w, rmq) && Settled(s.w, rmq.spec, StsBuilder)
    ensures var p := Finish(s, rmq);
            EndKeeps(s, rmq, p) && (p.result.Completed? ==> Achieved(rmq, p.result.cli) && Saw(s.w, p.result.cli))
  {
    var c, p := RunCommands(s, rmq), Finish(s, rmq);
    RunCommandsRuns(s, rmq);
    EnterSteady(s);
    InvAfter(s, rmq, c.s, c.rmq);
    if c.flow == Go {
      var seen := c.rmq.(status := c.rmq.status.(observedGeneration := c.rmq.generation));
      assert Settled(Enter(s).w, rmq.spec, StsBuilder);
      var conditions := AfterSetCondition(seen.status.conditions, ReconcileSuccess, ConditionTrue, "Success", [],
        c.s.w.now);
      ObservedIsWritten(c.s, c.rmq, seen.(status := seen.status.(conditions := conditions)));
      hide UpdateStatus, AfterSetCondition, Inv, Holds, RunCommands, Pending;
      FinishFrom(s.w, c.s.w, p.s.w, rmq);
    } else if c.flow == Error {
      SetConditionKeeps(c.s, c.rmq, ReconcileSuccess, ConditionFalse, "FailedCLICommand");
      hide SetCondition, RunCommands, Inv;
      StepKeepsTransitive(s, rmq, c.s, c.rmq, p.s,
        SetReconcileSuccess(c.s, c.rmq, ConditionFalse, "FailedCLICommand").rmq);
    }
  }

  lemma FinishFrom(w: World, v: World, u: World, rmq: RabbitmqCluster)
    requires Inv(w) && Steady(w, v) && Kept(v, u) && Undisturbed(v, u) && Shaped(v, u)
    requires SameObserved(v, u) || u.cluster.status.observedGeneration == rmq.generation
    requires PluginsDone(w, v)
    ensures Kept(w, u) && Undisturbed(w, u) && Shaped(w, u) && PluginsDone(w, u)
    ensures SameObserved(w, u) || u.cluster.status.observedGeneration == rmq.generation
  {
    KeptTransitive(w, v, u);
  }

  lemma AfterRestartKeeps(s: Sys, rmq: RabbitmqCluster)
    requires Inv(s.w) && Holds(s.w, rmq) && Settled(s.w, rmq.spec, StsBuilder)
    ensures var p := AfterRestart(s, rmq);
            EndKeeps(s, rmq, p) && (p.result.Completed? ==> Achieved(rmq, p.result.cli) && Saw(s.w, p.result.cli))
  {
    var q, p := ReconcileStatus(s, rmq), AfterRestart(s, rmq);
    ReconcileStatusKeeps(s, rmq);
    InvAfter(s, rmq, q.s, q.rmq);
    if q.flow == Go {
      SteadyKeepsSettled(s.w, q.s.w, rmq.spec, StsBuilder);
      FinishKeeps(q.s, q.rmq);
      assert p.result.Completed? ==> Saw(s.w, p.result.cli);
      hide ReconcileStatus, Finish, NonePending, Inv, Holds;
      EndAfter(s, rmq, q.s, q.rmq, p);
    }
  }

  lemma SawCaughtUp(w: World, outcome: Restarting, v: World, c: Cli)
    requires RestartSettled(w.log, outcome, w) && FlowOf(outcome) == Go && Saw(w, c) && Kept(w, v) && Undisturbed(w, v)
    ensures CaughtUp(v.log, c.sts.uid)
  {
    if outcome.UpToDate? {
      var k :| 0 <= k < |w.log| && w.log[k].Restarted? && w.log[k].uid == c.sts.uid
        && forall j :: 0 <= j < |w.log| && w.log[j].ConfMarked? ==> j < k && Seconds(w.log[j].t) < Seconds(w.log[k].t);
      assert RestartedSince(w.log, c.sts.uid, false);
    }
    assert CaughtUp(w.log, c.sts.uid) && w.log <= v.log && Marks(w.log, ServerMap) == Marks(v.log, ServerMap);
    hide *;
    CaughtUpOn(w.log, v.log, c.sts.uid);
  }

  lemma AfterChildrenKeeps(s: Sys, rmq: RabbitmqCluster, tries: nat)
    requires Inv(s.w) && Holds(s.w, rmq) && Settled(s.w, rmq.spec, StsBuilder)
    ensures var p := AfterChildren(s, rmq, tries);
            && EndKeeps(s, rmq, p)
            && (p.result.Completed? ==> Achieved(rmq, p.result.cli) && CaughtUp(p.s.w.log, p.result.cli.sts.uid))
  {
    var (s1, restart) := RestartIfNeeded(s, tries);
    NoLostRestart(s, tries);
    HoldsOn(s.w, s1.w, rmq);
    assert StepKeeps(s, rmq, s1, rmq) && Inv(s1.w);
    SteadyKeepsSettled(s.w, s1.w, rmq.spec, StsBuilder);
    AfterRestartKeeps(s1, rmq);
    var p := AfterRestart(s1, rmq);
    EndAfter(s, rmq, s1, rmq, p);
    if FlowOf(restart) == Go && p.result.Completed? {
      assert Kept(s1.w, p.s.w) && Undisturbed(s1.w, p.s.w);
      SawCaughtUp(s1.w, restart, p.s.w, p.result.cli);
    }
    hide AfterRestart, RestartIfNeeded, Inv, Holds, Kept, Undisturbed, CaughtUp, RestartSettled, Achieved;
  }

  lemma EndAfter(s: Sys, rmq: RabbitmqCluster, t: Sys, held: RabbitmqCluster, p: Pass)
    requires Inv(s.w) && StepKeeps(s, rmq, t, held) && EndKeeps(t, held, p)
    ensures EndKeeps(s, rmq, p)
  {
    KeptTransitive(s.w, t.w, p.s.w);
  }

  /* ---- the pass ---- */

  lemma EndKeepsSettled(s: Sys, rmq: RabbitmqCluster, p: Pass, spec: ClusterSpec, bs: seq<Builder>)
    requires EndKeeps(s, rmq, p) && AllSettled(s.w, spec, bs)
    ensures AllSettled(p.s.w, spec, bs)
  {
    forall b | b in bs ensures Settled(p.s.w, spec, b) {
      assert Settled(s.w, spec, b);
    }
  }

  // The pass from the resource as read: rmq is what the store held at s.
  ghost predicate PassKeeps(s: Sys, rmq: RabbitmqCluster, p: Pass) {
    && Kept(s.w, p.s.w)
    && (SameObserved(s.w, p.s.w) || (p.result.Completed? && p.s.w.cluster.status.observedGeneration == rmq.generation))
    && (AllSettled(s.w, rmq.spec, Builders(rmq.spec)) ==>
        Undisturbed(s.w, p.s.w) && AllSettled(p.s.w, rmq.spec, Builders(rmq.spec)))
    && (forall which :: Settled(s.w, rmq.spec, MapBuilder(which)) ==>
        MapQuiet(s.w, p.s.w, which) && Settled(p.s.w, rmq.spec, MapBuilder(which)))
    && (p.result.Completed? ==>
        && Achieved(rmq, p.result.cli) && CaughtUp(p.s.w.log, p.result.cli.sts.uid) && PluginsDone(s.w, p.s.w)
        && AllSettled(p.s.w, rmq.spec, Builders(rmq.spec)))
  }

  lemma SteadyKeepsAll(w: World, v: World, spec: ClusterSpec, bs: seq<Builder>)
    requires Steady(w, v) && AllSettled(w, spec, bs)
    ensures AllSettled(v, spec, bs)
  {
    forall b | b in bs ensures Settled(v, spec, b) {
      SteadyKeepsSettled(w, v, spec, b);
    }
  }

  lemma StoppedEarly(s: Sys, rmq: RabbitmqCluster, t: Sys, held: RabbitmqCluster, flow: Flow)
    requires StepKeeps(s, rmq, t, held)
    ensures PassKeeps(s, rmq, Pass(t, Stopped(flow)))
  {
    if AllSettled(s.w, rmq.spec, Builders(rmq.spec)) { SteadyKeepsAll(s.w, t.w, rmq.spec, Builders(rmq.spec)); }
    forall which | Settled(s.w, rmq.spec, MapBuilder(which))
      ensures MapQuiet(s.w, t.w, which) && Settled(t.w, rmq.spec, MapBuilder(which))
    {
      SteadyKeepsMap(s.w, t.w, rmq.spec, which);
    }
    hide Settled, Builders;
  }

  lemma ChildrenStaySettled(s: Sys, rmq: RabbitmqCluster, t: Sys, held: RabbitmqCluster, bs: seq<Builder>)
    requires ChildrenStep(s, rmq, t, held) && AllSettled(s.w, rmq.spec, bs)
    ensures AllSettled(t.w, rmq.spec, bs)
  {
    forall b | b in bs ensures Settled(t.w, rmq.spec, b) {
      assert Settled(s.w, rmq.spec, b);
    }
  }

  lemma BuildersThenRest(s: Sys, rmq: RabbitmqCluster, tries: nat)
    requires Inv(s.w) && Holds(s.w, rmq)
    ensures var q := RunBuilders(s, rmq, Builders(rmq.spec), tries);
            PassKeeps(s, rmq, if q.flow != Go then Ended(q) else AfterChildren(q.s, q.rmq, tries))
  {
    var bs := Builders(rmq.spec);
    var q := RunBuilders(s, rmq, bs, tries);
    RunBuildersBuild(s, rmq, bs, tries);
    assert Kept(s.w, q.s.w) && SameObserved(s.w, q.s.w) && Holds(q.s.w, q.rmq) && SameSpec(q.rmq, rmq);
    if AllSettled(s.w, rmq.spec, bs) { ChildrenStaySettled(s, rmq, q.s, q.rmq, bs); }
    assert forall which :: Settled(s.w, rmq.spec, MapBuilder(which)) ==>
      MapQuiet(s.w, q.s.w, which) && Settled(q.s.w, rmq.spec, MapBuilder(which));
    if q.flow == Go {
      assert StsBuilder in bs;
      assert Settled(q.s.w, rmq.spec, StsBuilder);
      assert Inv(q.s.w);
      AfterChildrenKeeps(q.s, q.rmq, tries);
      var p := AfterChildren(q.s, q.rmq, tries);
      hide AfterChildren, RunBuilders, Builders, CaughtUp, Inv, Holds, Settled, NonePending, Kept, Shaped, AllSettled,
        ChildrenStep;
      RestAfter(s, rmq, q.s, q.rmq, p);
    }
  }

  // From the children being built to the end of the pass.
  lemma RestAfter(s: Sys, rmq: RabbitmqCluster, t: Sys, held: RabbitmqCluster, p: Pass)
    requires Inv(s.w) && Kept(s.w, t.w) && SameObserved(s.w, t.w) && SameSpec(held, rmq) && EndKeeps(t, held, p)
    requires var bs := Builders(rmq.spec);
             && AllSettled(t.w, rmq.spec, bs) && (AllSettled(s.w, rmq.spec, bs) ==> Undisturbed(s.w, t.w))
    requires forall which :: Settled(s.w, rmq.spec, MapBuilder(which)) ==>
      MapQuiet(s.w, t.w, which) && Settled(t.w, rmq.spec, MapBuilder(which))
    requires p.result.Completed? ==> Achieved(held, p.result.cli) && CaughtUp(p.s.w.log, p.result.cli.sts.uid)
    ensures PassKeeps(s, rmq, p)
  {
    var bs := Builders(rmq.spec);
    EndKeepsSettled(t, held, p, rmq.spec, bs);
    hide Builders, CaughtUp, NonePending, ReadyAndUpdated;
    KeptTransitive(s.w, t.w, p.s.w);
    if AllSettled(s.w, rmq.spec, bs) { UndisturbedTransitive(s.w, t.w, p.s.w); }
    forall which | Settled(s.w, rmq.spec, MapBuilder(which))
      ensures MapQuiet(s.w, p.s.w, which) && Settled(p.s.w, rmq.spec, MapBuilder(which))
    {
      EndKeepsMap(t, held, p, rmq.spec, which);
      MapQuietTransitive(s.w, t.w, p.s.w, which);
    }
    assert s.w.rewrites <= t.w.rewrites;
    hide *;
  }

  lemma EndKeepsMap(s: Sys, rmq: RabbitmqCluster, p: Pass, spec: ClusterSpec, which: Which)
    requires EndKeeps(s, rmq, p) && Settled(s.w, spec, MapBuilder(which))
    ensures MapQuiet(s.w, p.s.w, which) && Settled(p.s.w, spec, MapBuilder(which))
  {
  }

  lemma MapQuietTransitive(w: World, v: World, u: World, which: Which)
    requires MapQuiet(w, v, which) && MapQuiet(v, u, which)
    ensures MapQuiet(w, u, which)
  {
  }

  lemma SteadyKeepsMap(w: World, v: World, spec: ClusterSpec, which: Which)
    requires Steady(w, v) && Settled(w, spec, MapBuilder(which))
    ensures MapQuiet(w, v, which) && Settled(v, spec, MapBuilder(which))
  {
  }

  lemma PassAfter(s: Sys, rmq: RabbitmqCluster, t: Sys, held: RabbitmqCluster, p: Pass)
    requires Inv(s.w) && StepKeeps(s, rmq, t, held) && PassKeeps(t, held, p)
    ensures PassKeeps(s, rmq, p)
  {
    var bs := Builders(rmq.spec);
    assert Steady(s.w, t.w) && SameSpec(held, rmq) && s.w.rewrites <= t.w.rewrites;
    hide Builders, CaughtUp, NonePending, ReadyAndUpdated, Settled, Inv, Grows, MapQuiet;
    KeptTransitive(s.w, t.w, p.s.w);
    if AllSettled(s.w, rmq.spec, bs) {
      SteadyKeepsAll(s.w, t.w, rmq.spec, bs);
      UndisturbedTransitive(s.w, t.w, p.s.w);
    }
    forall which | Settled(s.w, rmq.spec, MapBuilder(which))
      ensures MapQuiet(s.w, p.s.w, which) && Settled(p.s.w, rmq.spec, MapBuilder(which))
    {
      SteadyKeepsMap(s.w, t.w, rmq.spec, which);
      MapQuietTransitive(s.w, t.w, p.s.w, which);
    }
  }

  // Whatever is new in the log begins with a pass.
  predicate Opens(a: seq<Event>, b: seq<Event>) {
    a <= b && (|a| < |b| ==> b[|a|].PassBegan?)
  }

  lemma OpensTransitive(a: seq<Event>, b: seq<Event>, c: seq<Event>)
    requires Opens(a, b) && Opens(b, c)
    ensures Opens(a, c)
  {
    if a == b {} else { assert c[|a|] == b[|a|]; }
  }

  lemma PassOpens(s: Sys, rmq: RabbitmqCluster)
    requires Inv(s.w) && Holds(s.w, rmq)
    ensures var t := Note(s, PassBegan(rmq.spec)); Inv(t.w) && Holds(t.w, rmq) && StepKeeps(s, rmq, t, rmq)
  {
    NoteSteady(s, PassBegan(rmq.spec));
    var t := Note(s, PassBegan(rmq.spec));
    HoldsOn(s.w, t.w, rmq);
    hide GoodLog, AllBefore, LastMark;
  }

  // The pass once it has read the resource.
  lemma BegunKeeps(s: Sys, rmq: RabbitmqCluster, tries: nat)
    requires Inv(s.w) && Holds(s.w, rmq)
    ensures PassKeeps(s, rmq, Begun(s, rmq, tries))
  {
    hide Inv, Holds, StepKeeps, PassKeeps, Steady, Preliminaries, RunBuilders, AfterChildren;
    if rmq.paused {
      var p := SetCondition(s, rmq, NoWarnings, ConditionFalse, "reconciliation paused");
      SetConditionKeeps(s, rmq, NoWarnings, ConditionFalse, "reconciliation paused");
      StoppedEarly(s, rmq, p.s, p.rmq, Halt);
    } else {
      var p := Preliminaries(s, rmq);
      PreliminariesKeep(s, rmq);
      if p.flow != Go {
        StoppedEarly(s, rmq, p.s, p.rmq, p.flow);
      } else {
        InvAfter(s, rmq, p.s, p.rmq);
        BuildersThenRest(p.s, p.rmq, tries);
        PassAfter(s, rmq, p.s, p.rmq, Begun(s, rmq, tries));
      }
    }
  }

  // Whatever calls fail and whatever others do: a pass keeps the invariant and
  // the growth of the store, completes only with its children settled, and
  // alone then records the generation; and on settled children it writes no
  // marker and leaves them settled.
  lemma ReconcileKeeps(s: Sys, tries: nat)
    requires Inv(s.w)
    ensures var p := Reconcile(s, tries);
            && Steady(s.w, Enter(s).w) && PassKeeps(Enter(s), Enter(s).w.cluster, p) && Opens(s.w.log, p.s.w.log)
            && (FateOf(s) != Delivered ==> p.s == Enter(s))
  {
    EnterSteady(s);
    var (s0, r) := ReadCluster(s);
    var rmq := s0.w.cluster;
    assert Holds(s0.w, rmq) && Inv(s0.w) && s0.w.log == s.w.log;
    StaysPut(s0, rmq);
    if !r.Ok? {
      hide Inv, Holds, StepKeeps, PassKeeps;
      StoppedEarly(s0, rmq, s0, rmq, Error);
    } else {
      var s1 := Note(s0, PassBegan(rmq.spec));
      var p := Begun(s1, rmq, tries);
      PassOpens(s0, rmq);
      BegunKeeps(s1, rmq, tries);
      assert s1.w.log <= p.s.w.log;
      hide Inv, Holds, StepKeeps, PassKeeps, Begun, Steady;
      PassAfter(s0, rmq, s1, rmq, p);
      assert p.s.w.log[|s.w.log|] == s1.w.log[|s.w.log|];
    }
  }

  /* ---- runs ---- */

  // A run: the others act, and passes begin, in any order; a pass meets its
  // own turns and may stop at any call.
  datatype Action = Others(env: seq<EnvStep>) | Begin(turns: seq<Turn>, tries: nat)

  function Next(w: World, a: Action): World {
    match a
    case Others(env) => ActedAll(w, env)
    case Begin(turns, tries) => Reconcile(Sys(w, turns), tries).s.w
  }

  function Run(w: World, run: seq<Action>): World
    decreases |run|
  {
    if run == [] then w else Run(Next(w, run[0]), run[1..])
  }

  // A store on which the operator has not yet acted.
  ghost predicate Fresh(w: World) {
    Numbered(w) && Proper(w.cluster) && w.log == [] && ConfMark(w).None?
    && (w.sts.Some? ==> LAST_RESTART_AT !in w.sts.value.podAnnotations)
    && w.cluster.status.observedGeneration <= w.cluster.generation
  }

  lemma FreshIsGood(w: World)
    requires Fresh(w)
    ensures Inv(w)
  {
  }

  lemma NextKeeps(w: World, a: Action)
    requires Inv(w)
    ensures Kept(w, Next(w, a))
    ensures w.cluster.status.observedGeneration <= w.cluster.generation ==>
            Next(w, a).cluster.status.observedGeneration <= Next(w, a).cluster.generation
  {
    match a
    case Others(env) =>
      EnvLeavesAlone(w, env);
      LeftAloneKeepsInv(w, Next(w, a));
    case Begin(turns, tries) =>
      var s := Sys(w, turns);
      ReconcileKeeps(s, tries);
      KeptTransitive(w, Enter(s).w, Next(w, a));
  }

  // Every run keeps the invariant and only grows the store.
  lemma {:induction false} RunKeeps(w: World, run: seq<Action>)
    requires Inv(w)
    ensures Kept(w, Run(w, run))
    ensures w.cluster.status.observedGeneration <= w.cluster.generation ==>
            Run(w, run).cluster.status.observedGeneration <= Run(w, run).cluster.generation
    decreases |run|
  {
    if run == [] {
      GrowsReflexive(w);
    } else {
      var v := Next(w, run[0]);
      NextKeeps(w, run[0]);
      hide Grows, Next;
      RunKeeps(v, run[1..]);
      KeptTransitive(w, v, Run(w, run));
    }
  }

  /* ---- what holds over every run ---- */

  // No claim's request ever decreases, with the StatefulSet there or not.
  lemma ClaimsNeverShrink(start: World, before: seq<Action>, after: seq<Action>, n: string)
    requires Fresh(start)
    ensures var w := Run(start, before); var v := Run(w, after);
            n in w.claims ==> n in v.claims && w.claims[n] <= v.claims[n]
  {
    FreshIsGood(start);
    RunKeeps(start, before);
    RunKeeps(Run(start, before), after);
  }

  // The replica count of one StatefulSet never decreases.
  lemma ReplicasNeverDecrease(start: World, before: seq<Action>, after: seq<Action>)
    requires Fresh(start)
    ensures var w := Run(start, before); var v := Run(w, after);
            w.sts.Some? && v.sts.Some? && v.sts.value.uid == w.sts.value.uid ==>
              w.sts.value.replicas <= v.sts.value.replicas
  {
    FreshIsGood(start);
    RunKeeps(start, before);
    RunKeeps(Run(start, before), after);
  }

  // The look that was followed by commands and removals of markers only.
  lemma {:induction false} LookAt(log: seq<Event>) returns (l: nat)
    requires Seen(log).Some?
    ensures l < |log| && log[l].Looked? && Seen(log) == Some(log[l].look)
    ensures forall j :: l < j < |log| ==> log[j].Executed? || log[j].MarkerCleared?
  {
    if Last(log).Looked? { l := |log| - 1; } else { l := LookAt(Init(log)); }
  }

  lemma {:induction false} RanOnEachPod(log: seq<Event>, cmd: Command, n: int)
    requires RanOnPods(log, cmd, n) && n >= 0
    ensures n <= |log| && forall i :: 0 <= i < n ==> log[|log| - n + i] == Executed(cmd, i, true)
    decreases n
  {
    if n > 0 { RanOnEachPod(Init(log), cmd, n - 1); }
  }

  // A look before index k after which only commands ran, and which found the
  // command's marker pending and all replicas ready on one revision.
  predicate DueAt(log: seq<Event>, k: nat, cmd: Command, l: nat) {
    && l < k <= |log| && log[l].Looked? && ReadyAndUpdated(log[l].look.sts) && MarkerOf(cmd, log[l].look).Some?
    && forall j :: l < j < k ==> log[j].Executed? || log[j].MarkerCleared?
  }

  lemma DueLook(log: seq<Event>, k: nat, cmd: Command) returns (l: nat)
    requires k <= |log| && Due(log[..k], cmd)
    ensures DueAt(log, k, cmd, l) && Seen(log[..k]) == Some(log[l].look)
  {
    l := LookAt(log[..k]);
    assert forall j :: l <= j < k ==> log[j] == log[..k][j];
  }

  // Commands run only when due.
  lemma CommandsWereDue(start: World, run: seq<Action>, k: nat) returns (l: nat)
    requires Fresh(start) && k < |Run(start, run).log| && Run(start, run).log[k].Executed?
    ensures DueAt(Run(start, run).log, k, Run(start, run).log[k].cmd, l)
  {
    FreshIsGood(start);
    RunKeeps(start, run);
    GoodAt(Run(start, run).log, k);
    l := DueLook(Run(start, run).log, k, Run(start, run).log[k].cmd);
  }

  // The removal at index k came directly after its command succeeded on pod 0
  // up to the last it is for, which for the plugins is every replica; the
  // command was due at the look at index l; and the marker removed is the one
  // seen there, in that very version of its object.
  predicate RanFirst(log: seq<Event>, k: nat, l: nat)
    requires k < |log| && log[k].MarkerCleared?
  {
    var e := log[k];
    && DueAt(log, k, e.cmd, l)
    && MarkerOf(e.cmd, log[l].look) == Some(e.value) && VersionOf(e.cmd, log[l].look) == e.version
    && var n := PodsOf(e.cmd, log[l].look);
       n <= k && forall i :: 0 <= i < n ==> log[k - n + i] == Executed(e.cmd, i, true)
  }

  // At least once: however a marker came to be removed, its command ran first.
  lemma CommandsRanFirst(start: World, run: seq<Action>, k: nat) returns (l: nat)
    requires Fresh(start) && k < |Run(start, run).log| && Run(start, run).log[k].MarkerCleared?
    ensures RanFirst(Run(start, run).log, k, l)
  {
    FreshIsGood(start);
    RunKeeps(start, run);
    var log := Run(start, run).log;
    assert GoodLog(log);
    hide *;
    l := ClearedAfterLook(log, k);
  }

  lemma ClearedAfterLook(log: seq<Event>, k: nat) returns (l: nat)
    requires GoodLog(log) && k < |log| && log[k].MarkerCleared?
    ensures RanFirst(log, k, l)
  {
    GoodAt(log, k);
    hide GoodLog, MarkerOf, VersionOf, ReadyAndUpdated;
    l := DueLook(log, k, log[k].cmd);
    var n := PodsOf(log[k].cmd, log[l].look);
    if n >= 0 { RanOnEachPod(log[..k], log[k].cmd, n); }
  }

  lemma {:induction false} ClearedSince(a: seq<Event>, b: seq<Event>) returns (k: nat)
    requires a <= b && Clears(a) < Clears(b)
    ensures |a| <= k < |b| && b[k].MarkerCleared? && b[k].cmd == EnableFeatureFlags
    decreases |b|
  {
    assert |a| == |b| ==> a == b;
    if Last(b).MarkerCleared? && Last(b).cmd == EnableFeatureFlags {
      k := |b| - 1;
    } else {
      k := ClearedSince(a, Init(b));
    }
  }

  // The creation marker of a StatefulSet goes in no other way.
  lemma CreationMarkerStays(start: World, before: seq<Action>, after: seq<Action>)
    requires Fresh(start)
    ensures var w := Run(start, before); var v := Run(w, after);
            && w.log <= v.log
            && (w.sts.Some? && v.sts.Some? && w.sts.value.uid == v.sts.value.uid
                && CREATED_AT in w.sts.value.annotations && CREATED_AT !in v.sts.value.annotations
                ==> exists k :: |w.log| <= k < |v.log| && v.log[k].MarkerCleared? && v.log[k].cmd == EnableFeatureFlags)
  {
    FreshIsGood(start);
    RunKeeps(start, before);
    var w := Run(start, before);
    RunKeeps(w, after);
    var v := Run(w, after);
    if Clears(w.log) < Clears(v.log) { var k := ClearedSince(w.log, v.log); }
  }

  // Restarts over a run: for one StatefulSet and one marker at most two times
  // are written, the marker's own second and one later second, the last.
  lemma RestartsAreBounded(start: World, run: seq<Action>, i: nat, j: nat, k: nat, uid: nat, mark: Time)
    requires Fresh(start) && i < j < k < |Run(start, run).log|
    requires var log := Run(start, run).log;
             RestartFor(log[i], uid, mark) && RestartFor(log[j], uid, mark) && RestartFor(log[k], uid, mark)
    ensures var log := Run(start, run).log; log[i].t == log[j].t == mark && Seconds(mark) <= Seconds(log[k].t)
  {
    FreshIsGood(start);
    RunKeeps(start, run);
    BoundedRestarts(Run(start, run).log, i, j, k, uid, mark);
  }

  // The observed generation changes only by a pass that has achieved all that
  // the generation it read asks for, and it never runs ahead.
  lemma ObservedOnlyWhenAchieved(start: World, run: seq<Action>, turns: seq<Turn>, tries: nat)
    requires Fresh(start)
    ensures var w := Run(start, run); var s := Sys(w, turns); var p := Reconcile(s, tries);
            var rmq := Enter(s).w.cluster;
            && p.s.w.cluster.status.observedGeneration <= p.s.w.cluster.generation
            && (p.s.w.cluster.status.observedGeneration != w.cluster.status.observedGeneration ==>
                && p.s.w.cluster.status.observedGeneration == rmq.generation
                && p.result.Completed? && Achieved(rmq, p.result.cli) && CaughtUp(p.s.w.log, p.result.cli.sts.uid)
                && AllSettled(p.s.w, rmq.spec, Builders(rmq.spec)))
  {
    FreshIsGood(start);
    RunKeeps(start, run);
    var s := Sys(Run(start, run), turns);
    ReconcileKeeps(s, tries);
    NextKeeps(s.w, Begin(turns, tries));
  }
}
