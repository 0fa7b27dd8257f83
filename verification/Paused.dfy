// A paused resource: its passes only say so in its status, and the children
// are as the others make them.
module Paused {
  import opened Rfc3339
  import opened Conditions
  import opened Spec
  import opened ApiServer
  import opened Controllers
  import opened Runs

  // The store when the operator did nothing at the next n calls.
  function Made(w: World, turns: seq<Turn>, n: nat): World
    decreases n
  {
    if n == 0 || turns == [] then w else Made(ActedAll(w, turns[0].env), turns[1..], n - 1)
  }

  // Only versions, the resource's status and the log differ.
  predicate Alike(w: World, v: World) {
    && v == w.(cluster := v.cluster, sts := v.sts, plugins := v.plugins, server := v.server, nextId := v.nextId,
         log := v.log)
    && v.cluster == w.cluster.(rv := v.cluster.rv, status := v.cluster.status)
    && (w.sts.Some? <==> v.sts.Some?) && (w.sts.Some? ==> v.sts.value == w.sts.value.(rv := v.sts.value.rv))
    && (w.plugins.Some? <==> v.plugins.Some?)
    && (w.plugins.Some? ==> v.plugins.value == w.plugins.value.(rv := v.plugins.value.rv))
    && (w.server.Some? <==> v.server.Some?)
    && (w.server.Some? ==> v.server.value == w.server.value.(rv := v.server.value.rv))
  }

  lemma AlikeTransitive(w: World, v: World, u: World)
    requires Alike(w, v) && Alike(v, u)
    ensures Alike(w, u)
  {
  }

  // Others act on both stores in the same way, and record nothing.
  lemma StepAlike(w: World, v: World, e: EnvStep)
    requires Alike(w, v)
    ensures Alike(Acted(w, e), Acted(v, e)) && Acted(v, e).log == v.log
  {
    hide Seconds, PVCName;
  }

  lemma {:induction false} StepsAlike(w: World, v: World, env: seq<EnvStep>)
    requires Alike(w, v)
    ensures Alike(ActedAll(w, env), ActedAll(v, env)) && ActedAll(v, env).log == v.log
    decreases |env|
  {
    if env != [] {
      StepAlike(w, v, env[0]);
      hide Alike, Acted;
      StepsAlike(Acted(w, env[0]), Acted(v, env[0]), env[1..]);
    }
  }

  lemma LogDoesNotBearOnce(w: World, log: seq<Event>, e: EnvStep)
    ensures Acted(w.(log := log), e) == Acted(w, e).(log := log)
  {
    var v := w.(log := log);
    if e.ClaimVolume? { assert Claiming(v, e.i) == Claiming(w, e.i); }
    hide Seconds, PVCName, Admissible, Claiming;
  }

  // The log does not bear on what others do.
  lemma {:induction false} LogDoesNotBear(w: World, log: seq<Event>, env: seq<EnvStep>)
    ensures ActedAll(w.(log := log), env) == ActedAll(w, env).(log := log) && ActedAll(w, env).log == w.log
    decreases |env|
  {
    if env != [] {
      var v := Acted(w, env[0]);
      LogDoesNotBearOnce(w, log, env[0]);
      LogDoesNotBearOnce(w, w.log, env[0]);
      LogDoesNotBear(v, log, env[1..]);
      hide Acted;
    }
  }

  // The warning says why nothing happens; the other conditions stand.
  predicate Told(cs: seq<Condition>, ds: seq<Condition>, now: Time) {
    |ds| == |cs| && forall j :: 0 <= j < |cs| ==>
      if cs[j].kind == NoWarnings && forall i :: 0 <= i < j ==> cs[i].kind != NoWarnings
      then
        && ds[j].kind == NoWarnings && Judged(ds[j], ConditionFalse, "reconciliation paused", "")
        && ds[j].since == (if cs[j].status == ConditionFalse then cs[j].since else now)
      else ds[j] == cs[j]
  }

  lemma PauseIsTold(cs: seq<Condition>, now: Time)
    ensures Told(cs, AfterSetCondition(cs, NoWarnings, ConditionFalse, "reconciliation paused", [], now), now)
  {
    forall j | 0 <= j < |cs| {
      ConditionIsSet(cs, NoWarnings, ConditionFalse, "reconciliation paused", [], now, j);
    }
  }

  // A pass that reads a paused resource ends, whatever happens at its two
  // calls. It is recorded that it began; everything but the resource's status
  // is what the others made of it; and the status, if its write goes through,
  // says that reconciliation is paused.
  lemma PausedPass(s: Sys, tries: nat)
    requires FateOf(s) == Delivered && Enter(s).w.cluster.paused
    ensures var p := Reconcile(s, tries); var w, first, made := p.s.w, Enter(s).w, Made(s.w, s.turns, 2);
            && p.result == Stopped(Halt) && w.log == s.w.log + [PassBegan(first.cluster.spec)]
            && w == made.(cluster := w.cluster, nextId := w.nextId, log := w.log)
            && if |s.turns| >= 2 && s.turns[1].fate != Refused && made.cluster.rv == first.cluster.rv then
                 && w.cluster == made.cluster.(status := w.cluster.status, rv := made.nextId)
                 && w.cluster.status == first.cluster.status.(conditions := w.cluster.status.conditions)
                 && Told(first.cluster.status.conditions, w.cluster.status.conditions, first.now)
               else w.cluster == made.cluster && w.nextId == made.nextId
  {
    var e := Enter(s);
    var rmq := e.w.cluster;
    var s1 := Note(e, PassBegan(rmq.spec));
    LogDoesNotBear(s.w, [], s.turns[0].env);
    PauseIsTold(rmq.status.conditions, s1.w.now);
    if |s.turns| >= 2 {
      LogDoesNotBear(e.w, s1.w.log, s.turns[1].env);
      LogDoesNotBear(e.w, [], s.turns[1].env);
    }
    assert Made(s.w, s.turns, 2) == Made(e.w, e.turns, 1);
    hide AfterSetCondition, ActedAll, Told, Preliminaries, RunBuilders, AfterChildren;
  }

  // A pass whose first read fails ends with an error, and does nothing.
  lemma UnreadPass(s: Sys, tries: nat)
    requires FateOf(s) != Delivered
    ensures Reconcile(s, tries) == Pass(Enter(s), Stopped(Error))
    ensures Enter(s).w == Made(s.w, s.turns, 1) && Enter(s).w.log == s.w.log
  {
    if s.turns != [] { LogDoesNotBear(s.w, [], s.turns[0].env); }
    hide Begun, ActedAll;
  }

  /* ---- runs ---- */

  predicate NoResume(env: seq<EnvStep>) {
    forall k :: 0 <= k < |env| ==> env[k] != Pause(false)
  }

  // Nobody lifts the pause.
  predicate KeepsPause(a: Action) {
    match a
    case Others(env) => NoResume(env)
    case Begin(turns, _) => forall k :: 0 <= k < |turns| ==> NoResume(turns[k].env)
  }

  lemma {:induction false} PauseStays(w: World, env: seq<EnvStep>)
    requires w.cluster.paused && NoResume(env)
    ensures ActedAll(w, env).cluster.paused
    decreases |env|
  {
    if env != [] {
      assert env[0] != Pause(false);
      assert Acted(w, env[0]).cluster.paused by { hide Seconds, PVCName; }
      forall k | 0 <= k < |env[1..]| ensures env[1..][k] != Pause(false) { assert env[k + 1] == env[1..][k]; }
      PauseStays(Acted(w, env[0]), env[1..]);
    }
  }

  // The run without the operator. Of a pass two calls come about, or one if
  // that fails.
  function Alone(w: World, run: seq<Action>): World
    decreases |run|
  {
    if run == [] then w
    else match run[0]
      case Others(env) => Alone(ActedAll(w, env), run[1..])
      case Begin(turns, _) =>
        Alone(Made(w, turns, if turns != [] && turns[0].fate == Delivered then 2 else 1), run[1..])
  }

  predicate OnlyBegan(log: seq<Event>, more: seq<Event>) {
    log <= more && forall k :: |log| <= k < |more| ==> more[k].PassBegan?
  }

  lemma {:induction false} MadeAlike(w: World, v: World, turns: seq<Turn>, n: nat)
    requires Alike(w, v)
    ensures Alike(Made(w, turns, n), Made(v, turns, n)) && Made(v, turns, n).log == v.log
    decreases n
  {
    if n > 0 && turns != [] {
      StepsAlike(w, v, turns[0].env);
      hide Alike, ActedAll;
      MadeAlike(ActedAll(w, turns[0].env), ActedAll(v, turns[0].env), turns[1..], n - 1);
    }
  }

  lemma {:induction false} PauseIsMade(w: World, turns: seq<Turn>, n: nat)
    requires w.cluster.paused && forall k :: 0 <= k < |turns| ==> NoResume(turns[k].env)
    ensures Made(w, turns, n).cluster.paused
    decreases n
  {
    if n > 0 && turns != [] {
      PauseStays(w, turns[0].env);
      forall k | 0 <= k < |turns[1..]| ensures NoResume(turns[1..][k].env) { assert turns[k + 1] == turns[1..][k]; }
      PauseIsMade(ActedAll(w, turns[0].env), turns[1..], n - 1);
    }
  }

  // One pass beside the store without the operator.
  lemma PassAlike(w: World, v: World, turns: seq<Turn>, tries: nat)
    requires Alike(w, v) && v.cluster.paused && KeepsPause(Begin(turns, tries))
    ensures var u := Reconcile(Sys(v, turns), tries).s.w;
            && Alike(Made(w, turns, if turns != [] && turns[0].fate == Delivered then 2 else 1), u)
            && u.cluster.paused && OnlyBegan(v.log, u.log)
  {
    var s := Sys(v, turns);
    var n := if turns != [] && turns[0].fate == Delivered then 2 else 1;
    var u := Reconcile(s, tries).s.w;
    MadeAlike(w, v, turns, n);
    PauseIsMade(v, turns, n);
    if n == 2 {
      assert Enter(s).w == Made(v, turns, 1);
      PauseIsMade(v, turns, 1);
      PausedPass(s, tries);
      assert Alike(Made(v, turns, 2), u);
    } else {
      UnreadPass(s, tries);
    }
    hide Reconcile, Made, Alike, Told, NoResume, Enter;
    AlikeTransitive(Made(w, turns, n), Made(v, turns, n), u);
  }

  lemma {:induction false} RunAlike(w: World, v: World, run: seq<Action>)
    requires Alike(w, v) && v.cluster.paused && forall k :: 0 <= k < |run| ==> KeepsPause(run[k])
    ensures var u := Run(v, run); Alike(Alone(w, run), u) && u.cluster.paused && OnlyBegan(v.log, u.log)
    decreases |run|
  {
    if run != [] {
      var u := Next(v, run[0]);
      assert KeepsPause(run[0]) && forall k :: 0 <= k < |run[1..]| ==> run[1..][k] == run[k + 1];
      hide Alike, ActedAll, Made, Reconcile, NoResume;
      match run[0] {
        case Others(env) =>
          StepsAlike(w, v, env);
          PauseStays(v, env);
          RunAlike(ActedAll(w, env), u, run[1..]);
        case Begin(turns, tries) =>
          PassAlike(w, v, turns, tries);
          RunAlike(Made(w, turns, if turns != [] && turns[0].fate == Delivered then 2 else 1), u, run[1..]);
      }
    }
  }

  // Over every run that starts with a paused resource and in which nobody lifts
  // the pause, the operator changes nothing but the resource's status: up to
  // versions the store is the one without the operator, and the log gets only
  // the beginnings of passes.
  lemma PausedRun(w: World, run: seq<Action>)
    requires w.cluster.paused && forall k :: 0 <= k < |run| ==> KeepsPause(run[k])
    ensures Alike(Alone(w, run), Run(w, run)) && OnlyBegan(w.log, Run(w, run).log)
  {
    RunAlike(w, w, run);
  }
}
