// Restarting the StatefulSet after a change of the server configuration:
// no restart is lost, and restarts are bounded.
module Restarts {
  import opened Text
  import opened Rfc3339
  import opened Spec
  import opened ApiServer
  import opened Controllers
  import opened Invariants
  import opened Calls

  /* ---- comparing the two annotations ---- */

  lemma TextAfterIsLater(a: Time, b: Time, zone: string)
    ensures TextAfter(Stamp(a), Stamp(b), zone) <==> Seconds(b) < Seconds(a)
  {
    TextOrderIsTimeOrder(b, a, zone);
  }

  /* ---- what the log tells ---- */

  lemma {:induction false} LastRestartIndex(log: seq<Event>, uid: nat) returns (k: nat)
    requires LastRestart(log, uid).Some?
    ensures k < |log| && log[k].Restarted? && log[k].uid == uid && LastRestart(log, uid) == Some(Stamp(log[k].t))
    ensures forall j :: k < j < |log| && log[j].Restarted? ==> log[j].uid != uid
  {
    if Last(log).Restarted? && Last(log).uid == uid {
      k := |log| - 1;
    } else {
      k := LastRestartIndex(Init(log), uid);
    }
  }

  // No marker is later than the last one.
  lemma {:induction false} LastMarkIsLatest(log: seq<Event>, j: nat)
    requires GoodLog(log) && j < |log| && log[j].ConfMarked?
    ensures LastMark(log).Some? && LastMark(log).value.Stamp? && Seconds(log[j].t) <= Seconds(LastMark(log).value.t)
  {
    if j < |log| - 1 {
      if Last(log).ConfMarked? {
        assert Init(log)[j] == log[j];
      } else {
        LastMarkIsLatest(Init(log), j);
      }
    }
  }

  // This StatefulSet was restarted after every change of the configuration;
  // strictly: at a later second.
  ghost predicate RestartedSince(log: seq<Event>, uid: nat, strictly: bool) {
    exists k :: 0 <= k < |log| && log[k].Restarted? && log[k].uid == uid
      && forall j :: 0 <= j < |log| && log[j].ConfMarked? ==>
           j < k && Seconds(log[j].t) <= Seconds(log[k].t) && (strictly ==> Seconds(log[j].t) < Seconds(log[k].t))
  }

  lemma MarkIsNoEarlier(log: seq<Event>, k: nat, j: nat)
    requires GoodLog(log) && k < j < |log| && log[j].ConfMarked? && Timed(log[k])
    ensures Seconds(log[k].t) <= Seconds(log[j].t)
  {
    GoodAt(log, j);
    assert log[..j][k] == log[k];
  }

  lemma LaterRestartCovers(log: seq<Event>, uid: nat)
    requires GoodLog(log) && LastRestart(log, uid).Some? && LastMark(log).Some?
    requires LastMark(log).value.Stamp? ==>
      LastRestart(log, uid).value.Stamp? && Seconds(LastMark(log).value.t) < Seconds(LastRestart(log, uid).value.t)
    ensures RestartedSince(log, uid, true)
  {
    var k := LastRestartIndex(log, uid);
    forall j | 0 <= j < |log| && log[j].ConfMarked? ensures j < k && Seconds(log[j].t) < Seconds(log[k].t) {
      LastMarkIsLatest(log, j);
      if k < j { MarkIsNoEarlier(log, k, j); }
    }
  }

  /* ---- the restart ---- */

  // A restart may be written: the configuration is marked, and what restart
  // there was is no later than that.
  ghost predicate Restartable(w: World) {
    Inv(w) && ConfMark(w).Some? && (w.sts.Some? ==> RestartGood(w, w.sts.value))
  }

  lemma RestartableOn(w: World, v: World)
    requires Restartable(w) && LeftAlone(w, v) && Inv(v)
    ensures Restartable(v)
  {
  }

  function Restamped(sts: Sts, t: Time): Sts {
    sts.(podAnnotations := sts.podAnnotations[LAST_RESTART_AT := Stamp(t)])
  }

  // The store once the restart is written at time t.
  function Rewritten(w: World, sts: Sts, t: Time): World {
    var obj := Restamped(sts, t);
    w.(sts := Some(obj.(rv := w.nextId)), nextId := w.nextId + 1, log := w.log + StsEvents(w, sts, obj, Restart))
  }

  lemma RestartStored(w: World, sts: Sts, t: Time)
    requires Restartable(w) && w.sts == Some(sts) && AllBefore(w.log, t) && Seconds(t) <= Seconds(w.now)
    ensures var v := Rewritten(w, sts, t);
            && Steady(w, v) && v.sts.Some? && v.sts.value.uid == sts.uid
            && RestartedSince(v.log, sts.uid, false)
  {
    var obj, e := Restamped(sts, t), RestartEvent(w, t);
    assert StsEvents(w, sts, obj, Restart) == [e];
    assert Inv(w) && RestartGood(w, sts);
    assert Rewritten(w, sts, t) == w.(sts := Some(obj.(rv := w.nextId)), nextId := w.nextId + 1, log := w.log + [e]);
    assert obj.uid == sts.uid;
    hide *;
    RestartWritten(w, obj, t);
    RestartNow(w, t);
  }

  // The write is made on the store that the call finds, or not.
  lemma RestartCases(s: Sys, sts: Sts)
    requires Restartable(s.w) && s.w.sts == Some(sts)
    ensures var w := Enter(s).w; var (v, r) := UpdateSts(s, Restamped(sts, s.w.now), Restart);
            && Inv(s.w) && Steady(s.w, w) && Restartable(w) && (r.Conflict? ==> v.w == w) && (r.Ok? ==> v.w != w)
            && (v.w != w ==>
                && w.sts == Some(sts) && v.w == Rewritten(w, sts, s.w.now)
                && AllBefore(w.log, s.w.now) && Seconds(s.w.now) <= Seconds(w.now))
  {
    assert HoldsSts(s.w, sts) && AllBefore(s.w.log, s.w.now) && Inv(s.w);
    hide Inv, Restartable, Steady, LeftAlone, Grows, UpdateSts, Enter, AllBefore, HoldsSts, StsEvents, Seconds;
    UpdateStsCases(s, sts, Restamped(sts, s.w.now), Restart);
    EnterBriefly(s);
    RestartableOn(s.w, Enter(s).w);
  }

  lemma RestartOnce(s: Sys, sts: Sts)
    requires Restartable(s.w) && s.w.sts == Some(sts)
    ensures var (v, r) := UpdateSts(s, Restamped(sts, s.w.now), Restart);
            && Steady(s.w, v.w) && (r.Conflict? ==> Restartable(v.w))
            && (r.Ok? ==> RestartedSince(v.w.log, sts.uid, false) && v.w.sts.Some? && v.w.sts.value.uid == sts.uid)
  {
    hide *;
    RestartCases(s, sts);
    var w, v := Enter(s).w, UpdateSts(s, Restamped(sts, s.w.now), Restart).0.w;
    if v != w {
      RestartStored(w, sts, s.w.now);
      SteadyTransitive(s.w, w, v);
    }
  }

  lemma RestartNow(w: World, t: Time)
    requires AllBefore(w.log, t) && w.sts.Some?
    ensures RestartedSince(w.log + [RestartEvent(w, t)], w.sts.value.uid, false)
  {
    var all, k := w.log + [RestartEvent(w, t)], |w.log|;
    assert all[k].Restarted? && all[k].uid == w.sts.value.uid && all[k].t == t;
    forall j | 0 <= j < |all| && all[j].ConfMarked? ensures j < k && Seconds(all[j].t) <= Seconds(t) {
      if j < k { assert all[j] == w.log[j]; }
    }
  }

  lemma {:induction false} WriteRestartKeeps(s: Sys, tries: nat)
    requires Restartable(s.w)
    ensures var (v, ok) := WriteRestart(s, tries);
            Steady(s.w, v.w) && (ok ==> v.w.sts.Some? && RestartedSince(v.w.log, v.w.sts.value.uid, false))
    decreases tries
  {
    hide Restartable, Steady, ReadSts, UpdateSts, Inv, RestartedSince, LeftAlone;
    RestartableStays(s.w);
    if tries > 0 {
      var (s1, r) := ReadSts(s);
      RestartableRead(s);
      if r.Ok? {
        RestartOnce(s1, r.value);
        var (s2, u) := UpdateSts(s1, Restamped(r.value, s1.w.now), Restart);
        SteadyTransitive(s.w, s1.w, s2.w);
        if u.Conflict? {
          WriteRestartKeeps(s2, tries - 1);
          SteadyTransitive(s.w, s2.w, WriteRestart(s2, tries - 1).0.w);
        }
      }
    }
  }

  lemma RestartableStays(w: World)
    requires Restartable(w)
    ensures Inv(w) && Steady(w, w)
  {
  }

  lemma RestartableRead(s: Sys)
    requires Restartable(s.w)
    ensures var (s1, r) := ReadSts(s); Steady(s.w, s1.w) && Restartable(s1.w) && (r.Ok? ==> s1.w.sts == Some(r.value))
  {
    EnterSteady(s);
    RestartableOn(s.w, Enter(s).w);
  }

  lemma NoMarks(log: seq<Event>, j: nat)
    requires GoodLog(log) && LastMark(log).None? && j < |log|
    ensures !log[j].ConfMarked?
  {
    if log[j].ConfMarked? { LastMarkIsLatest(log, j); }
  }

  // What a pass may rely on when it goes on past the restart.
  ghost predicate RestartSettled(log: seq<Event>, outcome: Restarting, w: World) {
    match outcome
    case NotMarked => forall j :: 0 <= j < |log| ==> !log[j].ConfMarked?
    case UpToDate(sts, _) => w.sts == Some(sts) && RestartedSince(log, sts.uid, true)
    case RestartDone => w.sts.Some? && RestartedSince(log, w.sts.value.uid, false)
    case _ => true
  }

  lemma PriorIsNoLater(w: World, sts: Sts, mark: Value)
    requires Inv(w) && w.sts == Some(sts) && ConfMark(w) == Some(mark)
    ensures LAST_RESTART_AT in sts.podAnnotations && TextAfter(sts.podAnnotations[LAST_RESTART_AT], mark, w.zone) ==>
      RestartedSince(w.log, sts.uid, true)
    ensures !(LAST_RESTART_AT in sts.podAnnotations && TextAfter(sts.podAnnotations[LAST_RESTART_AT], mark, w.zone)) ==>
      Restartable(w)
  {
    LastMarkLogged(w.log, w.now);
    LastRestartIsStamp(w.log, sts.uid);
    if LAST_RESTART_AT in sts.podAnnotations {
      var last := sts.podAnnotations[LAST_RESTART_AT];
      TextAfterIsLater(last.t, mark.t, w.zone);
      if TextAfter(last, mark, w.zone) { LaterRestartCovers(w.log, sts.uid); }
    }
  }

  lemma MarkedRestarts(s: Sys, tries: nat, mark: Value)
    requires Inv(s.w) && ConfMark(s.w) == Some(mark)
    ensures var (v, outcome) := RestartIfMarked(s, tries, mark);
            Steady(s.w, v.w) && RestartSettled(v.w.log, outcome, v.w)
  {
    var (s1, r) := ReadSts(s);
    var v := RestartIfMarked(s, tries, mark).0;
    EnterSteady(s);
    assert ConfMark(s1.w) == Some(mark) && Inv(s1.w) && (r.Ok? ==> s1.w.sts == Some(r.value));
    hide Steady, Inv, TextAfter, RestartedSince, Restartable, WriteRestart, ReadSts, LeftAlone;
    if r.Ok? {
      PriorIsNoLater(s1.w, r.value, mark);
      if !(LAST_RESTART_AT in r.value.podAnnotations
           && TextAfter(r.value.podAnnotations[LAST_RESTART_AT], mark, s1.w.zone)) {
        WriteRestartKeeps(s1, tries);
        SteadyTransitive(s.w, s1.w, v.w);
      }
    }
  }

  // No restart is lost: a pass that goes on without restarting finds that no
  // change of the configuration was ever marked, or that this StatefulSet was
  // restarted after the last marked change, at a later second.
  lemma NoLostRestart(s: Sys, tries: nat)
    requires Inv(s.w)
    ensures var (v, outcome) := RestartIfNeeded(s, tries); Steady(s.w, v.w) && RestartSettled(v.w.log, outcome, v.w)
  {
    var (v, outcome) := RestartIfNeeded(s, tries);
    var (s1, conf) := ReadMap(s, ServerMap);
    EnterSteady(s);
    assert conf.Ok? ==> s1.w.server == Some(conf.value);
    assert Inv(s1.w);
    if conf.Ok? && SERVER_CONF_UPDATED_AT !in conf.value.annotations {
      forall j | 0 <= j < |s1.w.log| ensures !s1.w.log[j].ConfMarked? { NoMarks(s1.w.log, j); }
    } else if conf.Ok? {
      assert ConfMark(s1.w) == Some(conf.value.annotations[SERVER_CONF_UPDATED_AT]);
      hide Steady, Inv, ReadSts, WriteRestart, TextAfter, LeftAlone, RestartSettled, Enter, RestartIfMarked;
      MarkedRestarts(s1, tries, conf.value.annotations[SERVER_CONF_UPDATED_AT]);
      SteadyTransitive(s.w, s1.w, v.w);
    }
  }

  // Every marked change was followed by a restart of the StatefulSet.
  ghost predicate CaughtUp(log: seq<Event>, uid: nat) {
    (forall j :: 0 <= j < |log| ==> !log[j].ConfMarked?) || RestartedSince(log, uid, false)
  }

  lemma {:induction false} NoneMarked(a: seq<Event>, b: seq<Event>, j: nat)
    requires a <= b && Marks(a, ServerMap) == Marks(b, ServerMap) && |a| <= j < |b|
    ensures !b[j].ConfMarked?
    decreases |b|
  {
    MarksGrow(a, Init(b));
    if j < |b| - 1 { NoneMarked(a, Init(b), j); }
  }

  lemma {:induction false} MarksGrow(a: seq<Event>, b: seq<Event>)
    requires a <= b
    ensures Marks(a, ServerMap) <= Marks(b, ServerMap)
    decreases |b|
  {
    if |a| < |b| { MarksGrow(a, Init(b)); } else { assert a == b; }
  }

  lemma CaughtUpOn(a: seq<Event>, b: seq<Event>, uid: nat)
    requires CaughtUp(a, uid) && a <= b && Marks(a, ServerMap) == Marks(b, ServerMap)
    ensures CaughtUp(b, uid)
  {
    forall j | |a| <= j < |b| ensures !b[j].ConfMarked? { NoneMarked(a, b, j); }
    if RestartedSince(a, uid, false) {
      var k :| 0 <= k < |a| && a[k].Restarted? && a[k].uid == uid
        && forall j :: 0 <= j < |a| && a[j].ConfMarked? ==> j < k && Seconds(a[j].t) <= Seconds(a[k].t);
      assert b[k] == a[k];
      forall j | 0 <= j < |b| && b[j].ConfMarked? ensures j < k && Seconds(b[j].t) <= Seconds(b[k].t) {
        assert b[j] == a[j];
      }
    }
  }

  /* ---- exactly when it restarts ---- */

  // The restart as written in calls without disturbance.
  lemma QuietRestart(s: Sys, n: int, tries: nat)
    requires Quiet(s, n) && n > 1 && s.w.sts.Some? && tries > 0
    ensures var (v, ok) := WriteRestart(s, tries); var w, t := s.w, s.w.now; var obj := Restamped(w.sts.value, t);
            && ok && Quiet(v, n - 2)
            && v.w == w.(sts := Some(obj.(rv := w.nextId)), nextId := w.nextId + 1,
                 log := w.log + StsEvents(w, w.sts.value, obj, Restart))
  {
    QuietCall(s, n);
    QuietCall(Enter(s), n - 1);
  }

  // Whatever happens at the calls: a pass waits, and is tried again later,
  // exactly when the configuration is not there or it is marked and the
  // StatefulSet is not; and it goes on at once when there is no marker.
  lemma WaitsExactly(s: Sys, tries: nat)
    ensures var o := RestartIfNeeded(s, tries).1; var a, b := Enter(s).w, Enter(Enter(s)).w;
            && (FlowOf(o) == Requeue <==>
                FateOf(s) == Delivered &&
                  (a.server.None? || (ConfMark(a).Some? && FateOf(Enter(s)) == Delivered && b.sts.None?)))
            && (o == NotMarked <==> FateOf(s) == Delivered && a.server.Some? && ConfMark(a).None?)
  {
    hide Enter, WriteRestart, TextAfter;
  }

  // With the calls answered and nobody else acting, a marked configuration
  // leads to a restart exactly when none is recorded on the StatefulSet or the
  // one recorded is no later, by the second, than the marker.
  lemma RestartsExactly(s: Sys, n: int, tries: nat)
    requires Inv(s.w) && Quiet(s, n) && n > 3 && tries > 0 && s.w.sts.Some? && ConfMark(s.w).Some?
    ensures var (v, o) := RestartIfNeeded(s, tries); var last := Lookup(s.w.sts.value.podAnnotations, LAST_RESTART_AT);
            && ConfMark(s.w).value.Stamp? && (last.Some? ==> last.value.Stamp?)
            && (o == RestartDone <==> last.None? || Seconds(last.value.t) <= Seconds(ConfMark(s.w).value.t))
            && (o != RestartDone ==> o.UpToDate? && v.w == s.w)
            && (o == RestartDone ==> RestartedNow(s.w, v.w))
  {
    var sts, mark := s.w.sts.value, ConfMark(s.w).value;
    LastMarkLogged(s.w.log, s.w.now);
    LastRestartIsStamp(s.w.log, sts.uid);
    QuietCall(s, n);
    QuietCall(Enter(s), n - 1);
    var s2 := Enter(Enter(s));
    if LAST_RESTART_AT in sts.podAnnotations {
      TextAfterIsLater(sts.podAnnotations[LAST_RESTART_AT].t, mark.t, s.w.zone);
    }
    QuietRestart(s2, n - 2, tries);
    assert StsEvents(s.w, sts, Restamped(sts, s.w.now), Restart) == [RestartEvent(s.w, s.w.now)];
    hide Inv, Quiet, TextAfter, WriteRestart;
  }

  // The StatefulSet of w was restarted now, and nothing else changed.
  predicate RestartedNow(w: World, v: World) {
    && w.sts.Some? && v.sts == Some(Restamped(w.sts.value, w.now).(rv := w.nextId)) && v.now == w.now
    && v.server == w.server && v.log == w.log + [RestartEvent(w, w.now)]
  }

  // The store after the restart step in these turns.
  function AfterRestartStep(w: World, turns: seq<Turn>, tries: nat): World {
    RestartIfNeeded(Sys(w, turns), tries).0.w
  }

  lemma RestartStepRestarts(w: World, turns: seq<Turn>, tries: nat)
    requires Inv(w) && w.sts.Some? && ConfMark(w).Some? && Quiet(Sys(w, turns), 4) && tries > 0
    requires ConfMark(w).value.Stamp? && Lookup(w.sts.value.podAnnotations, LAST_RESTART_AT).Some? ==>
      var last := Lookup(w.sts.value.podAnnotations, LAST_RESTART_AT).value;
      last.Stamp? && Seconds(last.t) <= Seconds(ConfMark(w).value.t)
    ensures var v := AfterRestartStep(w, turns, tries); RestartedNow(w, v) && Inv(v)
  {
    RestartsExactly(Sys(w, turns), 4, tries);
    NoLostRestart(Sys(w, turns), tries);
    hide RestartIfNeeded, Quiet;
  }

  predicate RestartFor(e: Event, uid: nat, mark: Time) {
    e.Restarted? && e.uid == uid && e.mark == Some(Stamp(mark))
  }

  // Two events were added: a restart for this marker in the marker's second,
  // and another one later.
  predicate RestartedTwice(a: seq<Event>, b: seq<Event>, uid: nat, mark: Time, later: Time) {
    && |b| == |a| + 2 && RestartFor(b[|a|], uid, mark) && RestartFor(b[|a| + 1], uid, mark)
    && b[|a|].t == mark && b[|a| + 1].t == later
  }

  // A second restart for one marker: the first falls into the marker's second,
  // the next pass finds it no later than the marker and restarts again.
  lemma SecondRestart(w: World, later: Time, turns: seq<Turn>, tries: nat)
    requires Inv(w) && w.sts.Some? && ConfMark(w) == Some(Stamp(w.now))
    requires LAST_RESTART_AT !in w.sts.value.podAnnotations
    requires Seconds(w.now) <= Seconds(later) && Quiet(Sys(w, turns), 4) && tries > 0
    ensures var w2 := Acted(AfterRestartStep(w, turns, tries), Tick(later));
            RestartedTwice(w.log, AfterRestartStep(w2, turns, tries).log, w.sts.value.uid, w.now, later)
  {
    var w1 := AfterRestartStep(w, turns, tries);
    hide AfterRestartStep, Inv, Quiet, Acted, Seconds;
    RestartStepRestarts(w, turns, tries);
    TickKeeps(w1, later);
    var w2 := Acted(w1, Tick(later));
    StaysQuiet(w, w2, turns, 4);
    RestartStepRestarts(w2, turns, tries);
  }

  lemma StaysQuiet(w: World, v: World, turns: seq<Turn>, n: int)
    requires Quiet(Sys(w, turns), n) && (Terminating(v) ==> Terminating(w))
    ensures Quiet(Sys(v, turns), n)
  {
  }

  lemma TickKeeps(w: World, t: Time)
    requires Inv(w) && Seconds(w.now) <= Seconds(t)
    ensures Inv(Acted(w, Tick(t))) && Acted(w, Tick(t)) == w.(now := t)
  {
    ActedLeavesAlone(w, Tick(t));
    LeftAloneKeepsInv(w, Acted(w, Tick(t)));
  }

  /* ---- bounded restarts ---- */

  // Of the restarts of one StatefulSet for one marker, all but the last bear
  // the marker's own second.
  lemma EarlierRestartsShareTheSecond(log: seq<Event>, i: nat, j: nat, uid: nat, mark: Time)
    requires GoodLog(log) && i < j < |log| && RestartFor(log[i], uid, mark) && RestartFor(log[j], uid, mark)
    ensures log[i].t == mark
  {
    GoodAt(log, i);
    GoodAt(log, j);
    var before := log[..j];
    assert before[i] == log[i];
    RestartIsRemembered(before, uid, i);
    var k := LastRestartIndex(before, uid);
    if k > i {
      GoodAt(before, k);
      assert before[..k][i] == log[i];
    }
    TextOrderIsTimeOrder(log[i].t, mark, "");
  }

  lemma {:induction false} RestartIsRemembered(log: seq<Event>, uid: nat, i: nat)
    requires i < |log| && log[i].Restarted? && log[i].uid == uid
    ensures LastRestart(log, uid).Some?
  {
    if i < |log| - 1 && !(Last(log).Restarted? && Last(log).uid == uid) { RestartIsRemembered(Init(log), uid, i); }
  }

  // So for one StatefulSet and one marker at most two different times are
  // written, the marker's second and one later second, which comes last.
  lemma BoundedRestarts(log: seq<Event>, i: nat, j: nat, k: nat, uid: nat, mark: Time)
    requires GoodLog(log) && i < j < k < |log|
    requires RestartFor(log[i], uid, mark) && RestartFor(log[j], uid, mark) && RestartFor(log[k], uid, mark)
    ensures log[i].t == log[j].t == mark && Seconds(mark) <= Seconds(log[k].t)
  {
    EarlierRestartsShareTheSecond(log, i, j, uid, mark);
    EarlierRestartsShareTheSecond(log, j, k, uid, mark);
    GoodAt(log, k);
  }
}
