// The loop does not trigger itself: once a pass has completed, passes over the
// same specification write no marker, and restarts and plugin commands die out.
module Quiescence {
  import opened Text
  import opened Rfc3339
  import opened Spec
  import opened ApiServer
  import opened Controllers
  import opened Invariants
  import opened Calls
  import opened Children
  import opened Restarts
  import opened Commands
  import opened Runs

  // Every pass of the run that gets to read the resource reads this specification.
  predicate Reads(w: World, run: seq<Action>, spec: ClusterSpec)
    decreases |run|
  {
    run != [] ==>
      && (run[0].Begin? && FateOf(Sys(w, run[0].turns)) == Delivered ==>
          Enter(Sys(w, run[0].turns)).w.cluster.spec == spec)
      && Reads(Next(w, run[0]), run[1..], spec)
  }

  // What a run on settled children keeps.
  ghost predicate StaysSettled(w: World, v: World, spec: ClusterSpec) {
    && Kept(w, v) && Undisturbed(w, v) && AllSettled(v, spec, Builders(spec)) && Opens(w.log, v.log)
  }

  lemma StaysSettledTransitive(w: World, v: World, u: World, spec: ClusterSpec)
    requires Inv(w) && StaysSettled(w, v, spec) && StaysSettled(v, u, spec)
    ensures StaysSettled(w, u, spec)
  {
    KeptTransitive(w, v, u);
    UndisturbedTransitive(w, v, u);
    OpensTransitive(w.log, v.log, u.log);
  }

  lemma SteadyStaysSettled(w: World, v: World, spec: ClusterSpec)
    requires Steady(w, v) && AllSettled(w, spec, Builders(spec)) && v.log == w.log
    ensures StaysSettled(w, v, spec)
  {
    SteadyKeepsAll(w, v, spec, Builders(spec));
  }

  lemma OthersStaySettled(w: World, env: seq<EnvStep>, spec: ClusterSpec)
    requires Inv(w) && AllSettled(w, spec, Builders(spec))
    ensures StaysSettled(w, ActedAll(w, env), spec)
  {
    EnterSteady(Sys(w, [Turn(env, Delivered)]));
    hide Builders;
    SteadyStaysSettled(w, ActedAll(w, env), spec);
  }

  lemma PassStaysSettled(w: World, turns: seq<Turn>, tries: nat, spec: ClusterSpec)
    requires Inv(w) && AllSettled(w, spec, Builders(spec))
    requires FateOf(Sys(w, turns)) == Delivered ==> Enter(Sys(w, turns)).w.cluster.spec == spec
    ensures StaysSettled(w, Reconcile(Sys(w, turns), tries).s.w, spec)
  {
    var s := Sys(w, turns);
    var e, p := Enter(s).w, Reconcile(s, tries);
    EnterSteady(s);
    ReconcileKeeps(s, tries);
    assert Inv(e) && e.log == w.log && Undisturbed(w, e) && Kept(w, e);
    assert PassKeeps(Enter(s), e.cluster, p);
    hide Builders, Settled, Inv, Kept, Reconcile, Enter, Achieved, CaughtUp, SameObserved;
    SteadyStaysSettled(w, e, spec);
    if FateOf(s) == Delivered {
      KeptTransitive(w, e, p.s.w);
      UndisturbedTransitive(w, e, p.s.w);
    }
  }

  // Over any run of steps of the others and passes, failing or not, that read
  // this one specification, settled children stay settled and undisturbed.
  lemma {:induction false} RunStaysSettled(w: World, run: seq<Action>, spec: ClusterSpec)
    requires Inv(w) && AllSettled(w, spec, Builders(spec)) && Reads(w, run, spec)
    ensures StaysSettled(w, Run(w, run), spec)
    decreases |run|
  {
    if run == [] {
      GrowsReflexive(w);
    } else {
      var v := Next(w, run[0]);
      match run[0] {
        case Others(env) => OthersStaySettled(w, env, spec);
        case Begin(turns, tries) => PassStaysSettled(w, turns, tries, spec);
      }
      assert Inv(v);
      hide Inv, Next, Builders;
      RunStaysSettled(v, run[1..], spec);
      StaysSettledTransitive(w, v, Run(w, run), spec);
    }
  }

  /* ---- one ConfigMap ---- */

  // What a run that reads this specification keeps of a settled ConfigMap.
  ghost predicate MapStays(w: World, v: World, spec: ClusterSpec, which: Which) {
    Kept(w, v) && MapQuiet(w, v, which) && Settled(v, spec, MapBuilder(which))
  }

  lemma MapStaysTransitive(w: World, v: World, u: World, spec: ClusterSpec, which: Which)
    requires Inv(w) && MapStays(w, v, spec, which) && MapStays(v, u, spec, which)
    ensures MapStays(w, u, spec, which)
  {
    KeptTransitive(w, v, u);
    MapQuietTransitive(w, v, u, which);
  }

  lemma NextKeepsMap(w: World, a: Action, spec: ClusterSpec, which: Which)
    requires Inv(w) && Settled(w, spec, MapBuilder(which)) && Reads(w, [a], spec)
    ensures MapStays(w, Next(w, a), spec, which)
  {
    var s := Sys(w, if a.Others? then [Turn(a.env, Delivered)] else a.turns);
    var e := Enter(s).w;
    EnterSteady(s);
    SteadyKeepsMap(w, e, spec, which);
    assert MapStays(w, e, spec, which) && Inv(e);
    if a.Begin? {
      ReconcileKeeps(s, a.tries);
      var p := Reconcile(s, a.tries);
      hide Settled, Inv, Kept, Reconcile, Enter, Builders, CaughtUp, Achieved, AllSettled, SameObserved;
      if FateOf(s) == Delivered { MapStaysTransitive(w, e, p.s.w, spec, which); }
    }
  }

  // As long as the passes of a run read one specification, a ConfigMap settled
  // for it is not written, and its marker never is.
  lemma {:induction false} MapNeverMarked(w: World, run: seq<Action>, spec: ClusterSpec, which: Which)
    requires Inv(w) && Settled(w, spec, MapBuilder(which)) && Reads(w, run, spec)
    ensures MapStays(w, Run(w, run), spec, which)
    decreases |run|
  {
    if run == [] {
      GrowsReflexive(w);
    } else {
      var v := Next(w, run[0]);
      assert [run[0]][1..] == [];
      assert Reads(w, [run[0]], spec);
      NextKeepsMap(w, run[0], spec, which);
      assert Inv(v);
      hide Inv, Next, Settled;
      MapNeverMarked(v, run[1..], spec, which);
      MapStaysTransitive(w, v, Run(w, run), spec, which);
    }
  }

  /* ---- after a completed pass ---- */

  // What a completed pass leaves.
  ghost predicate Completes(s: Sys, p: Pass, spec: ClusterSpec) {
    && p.result.Completed? && Inv(p.s.w) && AllSettled(p.s.w, spec, Builders(spec))
    && CaughtUp(p.s.w.log, p.result.cli.sts.uid) && PluginsDone(s.w, p.s.w)
  }

  lemma CompletedPass(s: Sys, tries: nat)
    requires Inv(s.w) && Reconcile(s, tries).result.Completed?
    ensures Completes(s, Reconcile(s, tries), Enter(s).w.cluster.spec)
  {
    EnterSteady(s);
    ReconcileKeeps(s, tries);
    hide Builders, Settled, CaughtUp, Achieved;
  }

  // No self-triggering: after a completed pass, no pass of any run that reads
  // the same specification writes a configuration or plugins marker, and the
  // data of both ConfigMaps and the generated children stay as they are.
  lemma NoSelfTriggering(s: Sys, tries: nat, run: seq<Action>)
    requires Inv(s.w)
    ensures var p, spec := Reconcile(s, tries), Enter(s).w.cluster.spec;
            p.result.Completed? && Reads(p.s.w, run, spec) ==> Undisturbed(p.s.w, Run(p.s.w, run))
  {
    var p, spec := Reconcile(s, tries), Enter(s).w.cluster.spec;
    if p.result.Completed? && Reads(p.s.w, run, spec) {
      CompletedPass(s, tries);
      RunStaysSettled(p.s.w, run, spec);
    }
    hide Builders, Settled, CaughtUp, Reconcile, Inv, Reads;
  }

  /* ---- restarts ---- */

  // The last mark of a log is the last one's time.
  lemma {:induction false} LastMarkIsMarked(log: seq<Event>)
    requires LastMark(log).Some?
    ensures exists j :: 0 <= j < |log| && log[j].ConfMarked? && LastMark(log) == Some(Stamp(log[j].t))
  {
    if Last(log).ConfMarked? {
      assert log[|log| - 1].ConfMarked?;
    } else {
      LastMarkIsMarked(Init(log));
      var j :| 0 <= j < |Init(log)| && Init(log)[j].ConfMarked? && LastMark(Init(log)) == Some(Stamp(Init(log)[j].t));
      assert log[j] == Init(log)[j];
    }
  }

  // Events without a mark do not change the last mark.
  lemma {:induction false} LastMarkStays(a: seq<Event>, b: seq<Event>)
    requires a <= b && Marks(a, ServerMap) == Marks(b, ServerMap)
    ensures LastMark(a) == LastMark(b)
    decreases |b|
  {
    if |a| == |b| {
      assert a == b;
    } else {
      NoneMarked(a, b, |b| - 1);
      MarksGrow(a, Init(b));
      LastMarkStays(a, Init(b));
    }
  }

  // After the last mark is restarted for, a later restart of that StatefulSet
  // that is not the last repeats a time written before.
  lemma RestartRepeats(a: seq<Event>, b: seq<Event>, uid: nat, i: nat, j: nat)
    requires GoodLog(b) && a <= b && Marks(a, ServerMap) == Marks(b, ServerMap) && CaughtUp(a, uid)
    requires |a| <= i < j < |b|
    requires b[i].Restarted? && b[i].uid == uid && b[j].Restarted? && b[j].uid == uid
    ensures exists k :: 0 <= k < |a| && a[k].Restarted? && a[k].uid == uid && a[k].t == b[i].t
  {
    MarkOfRestart(a, b, uid, i);
    MarkOfRestart(a, b, uid, j);
    LastMarkIsMarked(a);
    assert RestartedSince(a, uid, false);
    var k :| 0 <= k < |a| && a[k].Restarted? && a[k].uid == uid
      && forall l :: 0 <= l < |a| && a[l].ConfMarked? ==> l < k && Seconds(a[l].t) <= Seconds(a[k].t);
    GoodAt(b, k);
    assert b[..k] == a[..k];
    MarksAllBefore(a, k);
    var mark := LastMark(a).value.t;
    assert RestartFor(b[k], uid, mark) && RestartFor(b[i], uid, mark) && RestartFor(b[j], uid, mark);
    hide GoodLog, CaughtUp, RestartedSince;
    EarlierRestartsShareTheSecond(b, k, i, uid, mark);
    EarlierRestartsShareTheSecond(b, i, j, uid, mark);
  }

  // A restart in the suffix answers to the last mark of the prefix.
  lemma MarkOfRestart(a: seq<Event>, b: seq<Event>, uid: nat, i: nat)
    requires GoodLog(b) && a <= b && Marks(a, ServerMap) == Marks(b, ServerMap) && |a| <= i < |b| && b[i].Restarted?
    ensures LastMark(a).Some? && LastMark(a).value.Stamp? && RestartFor(b[i], b[i].uid, LastMark(a).value.t)
  {
    GoodAt(b, i);
    assert a <= b[..i] && b[..i] <= b;
    MarksGrow(a, b[..i]);
    MarksGrow(b[..i], b);
    LastMarkStays(a, b[..i]);
  }

  // All marks come before k: the last mark is that of the prefix.
  lemma {:induction false} MarksAllBefore(a: seq<Event>, k: nat)
    requires k <= |a| && forall l :: 0 <= l < |a| && a[l].ConfMarked? ==> l < k
    ensures LastMark(a[..k]) == LastMark(a)
    decreases |a|
  {
    if k < |a| {
      MarksAllBefore(Init(a), k);
      assert Init(a)[..k] == a[..k];
    } else {
      assert a[..k] == a;
    }
  }

  // Restarts die out: after a completed pass, over any run that reads the same
  // specification, all further restarts of the StatefulSet it saw, but for the
  // last, repeat a time written before: at most one new time is written.
  lemma RestartsDieOut(s: Sys, tries: nat, run: seq<Action>, i: nat, j: nat)
    requires Inv(s.w) && i < j
    ensures var p, spec := Reconcile(s, tries), Enter(s).w.cluster.spec; var a, b := p.s.w.log, Run(p.s.w, run).log;
            p.result.Completed? && Reads(p.s.w, run, spec) && |a| <= i && j < |b|
            && b[i].Restarted? && b[j].Restarted? && b[i].uid == b[j].uid == p.result.cli.sts.uid
            ==> exists k :: 0 <= k < |a| && a[k].Restarted? && a[k].uid == b[i].uid && a[k].t == b[i].t
  {
    var p, spec := Reconcile(s, tries), Enter(s).w.cluster.spec;
    var a, b := p.s.w.log, Run(p.s.w, run).log;
    if p.result.Completed? && Reads(p.s.w, run, spec) && |a| <= i && j < |b|
       && b[i].Restarted? && b[j].Restarted? && b[i].uid == b[j].uid == p.result.cli.sts.uid {
      CompletedPass(s, tries);
      RunStaysSettled(p.s.w, run, spec);
      assert GoodLog(b) && a <= b && Marks(a, ServerMap) == Marks(b, ServerMap);
      hide *;
      RestartRepeats(a, b, b[i].uid, i, j);
    }
  }

  /* ---- plugin commands ---- */

  lemma {:induction false} PluginLooksGrow(a: seq<Event>, b: seq<Event>, l: nat)
    requires a <= b
    ensures PluginLooks(a) <= PluginLooks(b)
    ensures |a| <= l < |b| && b[l].Looked? && MarkerOf(SetPlugins, b[l].look).Some? ==> PluginLooks(a) < PluginLooks(b)
    decreases |b|
  {
    if |a| < |b| {
      PluginLooksGrow(a, Init(b), l);
    } else {
      assert a == b;
    }
  }

  lemma NoPluginCommand(a: seq<Event>, b: seq<Event>, k: nat)
    requires GoodLog(b) && Opens(a, b) && PluginLooks(a) == PluginLooks(b) && |a| <= k < |b|
    ensures !(b[k].Executed? && b[k].cmd == SetPlugins)
  {
    if b[k].Executed? && b[k].cmd == SetPlugins {
      GoodAt(b, k);
      var l := DueLook(b, k, SetPlugins);
      assert b[|a|].PassBegan?;
      PluginLooksGrow(a, b, l);
    }
  }

  // Plugin commands end: as long as nobody else rewrites the marker, no pass
  // of any run after a completed one sets plugins while the specification read
  // is the same.
  lemma PluginCommandsEnd(s: Sys, tries: nat, run: seq<Action>, k: nat)
    requires Inv(s.w)
    ensures var p, spec := Reconcile(s, tries), Enter(s).w.cluster.spec; var v := Run(p.s.w, run);
            p.result.Completed? && Reads(p.s.w, run, spec) && v.rewrites == s.w.rewrites && |p.s.w.log| <= k < |v.log|
            ==> !(v.log[k].Executed? && v.log[k].cmd == SetPlugins)
  {
    var p, spec := Reconcile(s, tries), Enter(s).w.cluster.spec;
    var v := Run(p.s.w, run);
    if p.result.Completed? && Reads(p.s.w, run, spec) && v.rewrites == s.w.rewrites && |p.s.w.log| <= k < |v.log| {
      hide Reconcile, Run, Reads, Inv, StaysSettled, Completes;
      CompletedPass(s, tries);
      CompletesApart(s, p, spec);
      RunStaysSettled(p.s.w, run, spec);
      LooksStay(s.w, p.s.w, v, spec);
      NoPluginCommand(p.s.w.log, v.log, k);
    }
  }

  lemma CompletesApart(s: Sys, p: Pass, spec: ClusterSpec)
    requires Completes(s, p, spec)
    ensures Inv(p.s.w) && AllSettled(p.s.w, spec, Builders(spec)) && PluginsDone(s.w, p.s.w)
  {
  }

  // Without rewriting, no look finds plugins to set.
  lemma LooksStay(start: World, w: World, v: World, spec: ClusterSpec)
    requires PluginsDone(start, w) && StaysSettled(w, v, spec) && v.rewrites == start.rewrites
    ensures GoodLog(v.log) && Opens(w.log, v.log) && PluginLooks(w.log) == PluginLooks(v.log)
  {
    hide Builders, AllSettled;
  }
}
