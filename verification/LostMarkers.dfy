// When a changed ConfigMap is left without its marker.
module LostMarkers {
  import opened Text
  import opened Rfc3339
  import opened Conditions
  import opened Spec
  import opened ConfigMaps
  import opened ApiServer
  import opened Controllers
  import opened Invariants
  import opened Calls
  import opened Passes
  import opened Children
  import opened Runs
  import opened Quiescence

  function DataOf(w: World, which: Which): Option<Data> {
    if MapOf(w, which).Some? then Some(MapOf(w, which).value.data) else None
  }

  /* ---- the calls to come ---- */

  // A step of the others that gives this ConfigMap a new version.
  predicate Touches(e: EnvStep, which: Which) {
    if which == PluginsMap then e.RewritePluginsMarkers? else e.TouchServerMap?
  }

  predicate TouchedIn(env: seq<EnvStep>, which: Which) {
    exists k :: 0 <= k < |env| && Touches(env[k], which)
  }

  // One attempt reads the ConfigMap and writes it: the read is answered and the
  // write reaches the server.
  predicate Attempts(turns: seq<Turn>) {
    |turns| >= 2 && turns[0].fate == Delivered && turns[1].fate != Refused
  }

  // A write is made at last: a version from between the two calls leads to the
  // next attempt.
  predicate Lands(turns: seq<Turn>, which: Which, tries: nat)
    decreases tries
  {
    && tries > 0 && Attempts(turns)
    && (TouchedIn(turns[1].env, which) ==> Lands(turns[2..], which, tries - 1))
  }

  // The update lands, but its reply is lost or the annotation does not land.
  predicate Loses(turns: seq<Turn>, which: Which, tries: nat, all: nat)
    decreases tries
  {
    && tries > 0 && Attempts(turns)
    && if TouchedIn(turns[1].env, which) then Loses(turns[2..], which, tries - 1, all)
       else turns[1].fate == ReplyLost || !Lands(turns[2..], which, all)
  }

  lemma FirstDecides(turns: seq<Turn>, which: Which, tries: nat, all: nat)
    requires tries > 0
    ensures !Attempts(turns) ==> !Lands(turns, which, tries) && !Loses(turns, which, tries, all)
    ensures Attempts(turns) && TouchedIn(turns[1].env, which) ==>
              && (Lands(turns, which, tries) <==> Lands(turns[2..], which, tries - 1))
              && (Loses(turns, which, tries, all) <==> Loses(turns[2..], which, tries - 1, all))
    ensures Attempts(turns) && !TouchedIn(turns[1].env, which) ==>
              && Lands(turns, which, tries)
              && (Loses(turns, which, tries, all) <==>
                  turns[1].fate == ReplyLost || !Lands(turns[2..], which, all))
  {
  }

  // Others give the ConfigMap another version by such a step, and only so.
  lemma {:induction false} VersionKept(w: World, env: seq<EnvStep>, which: Which)
    requires Numbered(w) && Proper(w.cluster) && MapOf(w, which).Some?
    ensures var v := ActedAll(w, env);
            && MapOf(v, which).Some? && MapOf(w, which).value.rv <= MapOf(v, which).value.rv
            && (MapOf(v, which).value.rv == MapOf(w, which).value.rv <==> !TouchedIn(env, which))
    decreases |env|
  {
    if env != [] {
      var v := Acted(w, env[0]);
      ActedLeavesAlone(w, env[0]);
      VersionTouched(w, env[0], which);
      VersionKept(v, env[1..], which);
      hide LeftAlone, Acted, Touches, Numbered, Proper, ActedAll, MapOf;
      TouchedFirst(env, which);
      assert ActedAll(w, env) == ActedAll(v, env[1..]);
    }
  }

  lemma VersionTouched(w: World, e: EnvStep, which: Which)
    requires Numbered(w) && MapOf(w, which).Some?
    ensures var v := Acted(w, e);
            && MapOf(v, which).Some?
            && if Touches(e, which) then MapOf(w, which).value.rv < MapOf(v, which).value.rv
               else MapOf(v, which) == MapOf(w, which)
  {
  }

  lemma TouchedFirst(env: seq<EnvStep>, which: Which)
    requires env != []
    ensures TouchedIn(env, which) <==> Touches(env[0], which) || TouchedIn(env[1..], which)
  {
    if Touches(env[0], which) {
    } else if TouchedIn(env, which) {
      var k :| 0 <= k < |env| && Touches(env[k], which);
      assert env[1..][k - 1] == env[k];
    } else {
      assert forall k :: 0 <= k < |env[1..]| ==> env[1..][k] == env[k + 1];
    }
  }

  /* ---- one write ---- */

  predicate Written(s: Sys, which: Which) {
    FateOf(s) != Refused && !TouchedIn(s.turns[0].env, which)
  }

  // The write of a copy just read: whether it is made, and what the caller
  // learns, is decided by this turn.
  lemma WriteDecided(s: Sys, which: Which, cur: StoredMap, obj: StoredMap, why: Purpose)
    requires Inv(s.w) && MapOf(s.w, which) == Some(cur) && obj.rv == cur.rv
    ensures var (v, u) := UpdateMap(s, which, obj, why);
            && !u.NotFound? && v.turns == Enter(s).turns
            && (u.Conflict? <==> FateOf(s) != Refused && !Written(s, which))
            && (u.Ok? <==> FateOf(s) == Delivered && Written(s, which))
            && (if Written(s, which) then MapOf(v.w, which) == Some(obj.(rv := v.w.nextId - 1))
                else v.w == Enter(s).w)
            && (Written(s, which) ==>
                  v.w.log == s.w.log + MapEvents(which, cur.annotations, cur.rv, obj.annotations, why))
  {
    assert Numbered(s.w) && HoldsMap(s.w, which, cur);
    UpdateMapCases(s, which, cur, obj, why);
    if s.turns != [] { VersionKept(s.w, s.turns[0].env, which); }
    hide Inv, Steady, HoldsMap, MapEvents, Numbered;
  }

  // A read leaves the ConfigMap's data and the log as they are.
  lemma ReadDecided(s: Sys, which: Which)
    requires Inv(s.w) && MapOf(s.w, which).Some?
    ensures var (v, r) := ReadMap(s, which);
            && Inv(v.w) && !r.NotFound? && v.turns == Enter(s).turns
            && (r.Ok? <==> FateOf(s) == Delivered) && (r.Ok? ==> MapOf(v.w, which) == Some(r.value))
            && SameData(MapOf(s.w, which), MapOf(v.w, which)) && v.w.log == s.w.log
  {
    EnterSteady(s);
  }

  // The turns of the two calls of an attempt.
  lemma TwoTurns(s: Sys, s1: Sys, s2: Sys, which: Which)
    requires FateOf(s) == Delivered && s1.turns == Enter(s).turns && s2.turns == Enter(s1).turns
    ensures s.turns != [] && s.turns[0].fate == Delivered
    ensures if |s.turns| == 1 then FateOf(s1) == Refused && !Written(s1, which) && s2.turns == []
            else FateOf(s1) == s.turns[1].fate && s2.turns == s.turns[2..]
                   && (Written(s1, which) <==> FateOf(s1) != Refused && !TouchedIn(s.turns[1].env, which))
  {
  }

  /* ---- applying the ConfigMap ---- */

  predicate Unsettled(w: World, which: Which, spec: ClusterSpec) {
    MapOf(w, which).Some? && !Settled(w, spec, MapBuilder(which))
  }

  // What applying this ConfigMap comes to, by the calls to come.
  ghost predicate Decided(s: Sys, which: Which, spec: ClusterSpec, tries: nat, all: nat, v: Sys, r: Reply<Operation>) {
    && Inv(v.w) && MapOf(v.w, which).Some? && v.w.log == s.w.log
    && (DataOf(v.w, which) == DataOf(s.w, which) || Settled(v.w, spec, MapBuilder(which)))
    && (DataOf(v.w, which) != DataOf(s.w, which) <==> Lands(s.turns, which, tries))
    && (r.Ok? ==> r == Ok(Updated) && Lands(s.turns, which, tries))
    && (Loses(s.turns, which, tries, all) <==>
        Lands(s.turns, which, tries) && !(r.Ok? && Lands(v.turns, which, all)))
  }

  lemma DataWriteDecided(s: Sys, which: Which, m: StoredMap, data: Data)
    requires Inv(s.w) && MapOf(s.w, which) == Some(m) && data != m.data
    ensures var (v, u) := UpdateMap(s, which, m.(data := data), Apply);
            && Inv(v.w) && v.w.log == s.w.log && !u.NotFound? && v.turns == Enter(s).turns
            && DataOf(v.w, which) == Some(if Written(s, which) then data else m.data)
            && (u.Conflict? <==> FateOf(s) != Refused && !Written(s, which))
            && (u.Ok? <==> FateOf(s) == Delivered && Written(s, which))
  {
    assert HoldsMap(s.w, which, m);
    WriteDecided(s, which, m, m.(data := data), Apply);
    UpdateDataKeeps(s, which, m, data);
    EnterSteady(s);
    hide Inv, UpdateMap, Written, LeftAlone, HoldsMap;
  }

  // The first attempt fails, leads to the next one, or writes.
  lemma FirstAttempt(s: Sys, which: Which, rmq: RabbitmqCluster, tries: nat) returns (v: Sys)
    requires Inv(s.w) && Unsettled(s.w, which, rmq.spec) && tries > 0
    ensures Inv(v.w) && MapOf(v.w, which).Some? && v.w.log == s.w.log
    ensures !Attempts(s.turns) ==>
              ApplyMap(s, which, rmq, tries) == (v, Failed) && DataOf(v.w, which) == DataOf(s.w, which)
    ensures Attempts(s.turns) ==> v.turns == s.turns[2..]
    ensures Attempts(s.turns) && TouchedIn(s.turns[1].env, which) ==>
              && ApplyMap(s, which, rmq, tries) == ApplyMap(v, which, rmq, tries - 1)
              && Unsettled(v.w, which, rmq.spec) && DataOf(v.w, which) == DataOf(s.w, which)
    ensures Attempts(s.turns) && !TouchedIn(s.turns[1].env, which) ==>
              && ApplyMap(s, which, rmq, tries) == (v, if s.turns[1].fate == Delivered then Ok(Updated) else Failed)
              && DataOf(v.w, which) != DataOf(s.w, which) && Settled(v.w, rmq.spec, MapBuilder(which))
  {
    var (s1, r) := ReadMap(s, which);
    ReadDecided(s, which);
    v := s1;
    if r.Ok? {
      var data := UpdatedData(which, r.value.data, rmq.spec);
      var u := UpdateMap(s1, which, r.value.(data := data), Apply).1;
      v := UpdateMap(s1, which, r.value.(data := data), Apply).0;
      DataWriteDecided(s1, which, r.value, data);
      TwoTurns(s, s1, v, which);
      UpdatedDataSettles(which, r.value.data, rmq.spec);
    }
    hide Inv, UpdateMap, ReadMap, UpdatedData, TouchedIn, Written, Enter;
  }

  lemma {:induction false} ApplyDecided(s: Sys, which: Which, rmq: RabbitmqCluster, tries: nat, all: nat)
    requires Inv(s.w) && Unsettled(s.w, which, rmq.spec)
    ensures var (v, r) := ApplyMap(s, which, rmq, tries); Decided(s, which, rmq.spec, tries, all, v, r)
    decreases tries
  {
    hide Inv, Unsettled, TouchedIn, DataOf, Settled, ApplyMap, Lands, Loses;
    if tries == 0 {
      NoAttempt(s, which, rmq, all);
    } else {
      var v := FirstAttempt(s, which, rmq, tries);
      FirstDecides(s.turns, which, tries, all);
      if Attempts(s.turns) && TouchedIn(s.turns[1].env, which) { ApplyDecided(v, which, rmq, tries - 1, all); }
    }
  }

  lemma NoAttempt(s: Sys, which: Which, rmq: RabbitmqCluster, all: nat)
    requires Inv(s.w) && Unsettled(s.w, which, rmq.spec)
    ensures var (v, r) := ApplyMap(s, which, rmq, 0); Decided(s, which, rmq.spec, 0, all, v, r)
  {
  }

  /* ---- the annotation ---- */

  lemma MarkDecided(s: Sys, which: Which, m: StoredMap, t: Time)
    requires Markable(s.w, t) && MapOf(s.w, which) == Some(m)
    ensures var (v, u) := UpdateMap(s, which, m.(annotations := m.annotations[MarkerKey(which) := Stamp(t)]), Mark);
            && !u.NotFound? && v.turns == Enter(s).turns && MapOf(v.w, which).Some?
            && Marks(v.w.log, which) == Marks(s.w.log, which) + (if Written(s, which) then 1 else 0)
            && (u.Conflict? <==> FateOf(s) != Refused && !Written(s, which))
            && (u.Ok? <==> FateOf(s) == Delivered && Written(s, which)) && (u.Conflict? ==> Markable(v.w, t))
  {
    var obj := m.(annotations := m.annotations[MarkerKey(which) := Stamp(t)]);
    assert HoldsMap(s.w, which, m);
    WriteDecided(s, which, m, obj, Mark);
    MarkOnce(s, which, m, t);
    EnterSteady(s);
    if Written(s, which) { MarkRecorded(s.w.log, which, m, t); }
    hide Inv, UpdateMap, Written, LeftAlone, HoldsMap, Markable, Marks, Steady;
  }

  lemma MarkRecorded(log: seq<Event>, which: Which, m: StoredMap, t: Time)
    ensures var after := m.annotations[MarkerKey(which) := Stamp(t)];
            Marks(log + MapEvents(which, m.annotations, m.rv, after, Mark), which) == Marks(log, which) + 1
  {
    var after := m.annotations[MarkerKey(which) := Stamp(t)];
    assert MapEvents(which, m.annotations, m.rv, after, Mark) == [MarkerSet(which, Stamp(t))];
    Appended(log, MarkerSet(which, Stamp(t)));
  }

  // The first attempt fails, leads to the next one, or writes.
  lemma FirstMark(s: Sys, which: Which, t: Time, tries: nat) returns (v: Sys)
    requires Markable(s.w, t) && MapOf(s.w, which).Some? && tries > 0
    ensures !Attempts(s.turns) ==>
              AnnotateMap(s, which, t, tries) == (v, false) && Marks(v.w.log, which) == Marks(s.w.log, which)
    ensures Attempts(s.turns) && TouchedIn(s.turns[1].env, which) ==>
              && AnnotateMap(s, which, t, tries) == AnnotateMap(v, which, t, tries - 1)
              && v.turns == s.turns[2..] && Marks(v.w.log, which) == Marks(s.w.log, which)
              && Markable(v.w, t) && MapOf(v.w, which).Some?
    ensures Attempts(s.turns) && !TouchedIn(s.turns[1].env, which) ==>
              && AnnotateMap(s, which, t, tries) == (v, s.turns[1].fate == Delivered)
              && Marks(v.w.log, which) == Marks(s.w.log, which) + 1
  {
    var (s1, r) := ReadMap(s, which);
    ReadDecided(s, which);
    ReadForMark(s, which, t);
    v := s1;
    if r.Ok? {
      var obj := r.value.(annotations := r.value.annotations[MarkerKey(which) := Stamp(t)]);
      var u := UpdateMap(s1, which, obj, Mark).1;
      v := UpdateMap(s1, which, obj, Mark).0;
      MarkDecided(s1, which, r.value, t);
      TwoTurns(s, s1, v, which);
    }
    hide Inv, UpdateMap, ReadMap, TouchedIn, Markable, Marks, Written, Enter;
  }

  lemma {:induction false} AnnotationDecided(s: Sys, which: Which, t: Time, tries: nat)
    requires Markable(s.w, t) && MapOf(s.w, which).Some?
    ensures var (v, ok) := AnnotateMap(s, which, t, tries);
            && Marks(v.w.log, which) == Marks(s.w.log, which) + (if Lands(s.turns, which, tries) then 1 else 0)
            && (ok ==> Lands(s.turns, which, tries))
    decreases tries
  {
    if tries > 0 {
      hide Markable, MapOf, Marks, TouchedIn, AnnotateMap, Lands, Loses;
      var v := FirstMark(s, which, t, tries);
      FirstDecides(s.turns, which, tries, tries);
      if Attempts(s.turns) && TouchedIn(s.turns[1].env, which) { AnnotationDecided(v, which, t, tries - 1); }
    }
  }

  lemma {:induction false} NoneMade(w: World, env: seq<EnvStep>, which: Which)
    requires MapOf(w, which).None?
    ensures MapOf(ActedAll(w, env), which).None?
    decreases |env|
  {
    if env != [] {
      assert MapOf(Acted(w, env[0]), which).None? by { hide Seconds, PVCName; }
      NoneMade(Acted(w, env[0]), env[1..], which);
      hide Acted;
    }
  }

  // A ConfigMap that is not to be found is asked for again, each time anew.
  lemma {:induction false} AskedForAgain(s: Sys, which: Which, t: Time, tries: nat)
    requires MapOf(s.w, which).None? && |s.turns| >= tries
    requires forall k :: 0 <= k < |s.turns| ==> s.turns[k].fate == Delivered
    ensures var (v, ok) := AnnotateMap(s, which, t, tries); !ok && v.turns == s.turns[tries..]
    decreases tries
  {
    if tries > 0 {
      NoneMade(s.w, s.turns[0].env, which);
      AskedForAgain(Enter(s), which, t, tries - 1);
      assert s.turns[1..][tries - 1..] == s.turns[tries..];
      hide ActedAll, MapOf;
    }
  }

  // A builder's step over an existing ConfigMap that is not as it should be:
  // its data is changed exactly when the update lands, and it is changed
  // without a new marker exactly when the calls to come lose the marker. Then
  // the pass ends with an error.
  lemma MarkerMissing(s: Sys, rmq: RabbitmqCluster, which: Which, tries: nat)
    requires Inv(s.w) && Holds(s.w, rmq) && Unsettled(s.w, which, rmq.spec)
    ensures var p := RunBuilder(s, rmq, MapBuilder(which), tries);
            var changed, unmarked :=
              DataOf(p.s.w, which) != DataOf(s.w, which), Marks(p.s.w.log, which) == Marks(s.w.log, which);
            && (changed <==> Lands(s.turns, which, tries))
            && (changed && unmarked <==> Loses(s.turns, which, tries, tries))
            && (changed && unmarked ==> p.flow == Error)
            && Inv(p.s.w) && (changed ==> Settled(p.s.w, rmq.spec, MapBuilder(which)))
  {
    var b := MapBuilder(which);
    var (s1, r) := ApplyMap(s, which, rmq, tries);
    ApplyDecided(s, which, rmq, tries, tries);
    CreateOrUpdateBuilds(s, rmq, b, tries);
    AfterBuild(s, rmq, b, s1, r.Ok?);
    if !r.Ok? {
      SetConditionKeeps(s1, rmq, ReconcileSuccess, ConditionFalse, "Error");
    } else {
      assert Markable(s1.w, s1.w.now);
      AnnotationDecided(s1, which, s1.w.now, tries);
      AnnotateMapKeeps(s1, which, s1.w.now, tries);
    }
    ApplyAndAnnotateBuilds(s, rmq, b, tries);
    hide ApplyMap, AnnotateMap, SetCondition, Inv, Holds, Marks, BuiltStep, Lands, Loses, Markable;
  }

  // A marker that was lost is lost for good: the data is as this specification
  // wants it, so no later run whose passes read this specification writes the
  // marker, and neither the restart nor the plugin command follows.
  lemma LostForGood(s: Sys, rmq: RabbitmqCluster, which: Which, tries: nat, run: seq<Action>)
    requires Inv(s.w) && Holds(s.w, rmq) && Unsettled(s.w, which, rmq.spec) && Loses(s.turns, which, tries, tries)
    ensures var w := RunBuilder(s, rmq, MapBuilder(which), tries).s.w;
            Reads(w, run, rmq.spec) ==>
              && DataOf(Run(w, run), which) == DataOf(w, which) != DataOf(s.w, which)
              && Marks(Run(w, run).log, which) == Marks(s.w.log, which)
  {
    hide RunBuilder, Inv, Holds, Settled, Unsettled, Reads, Marks, Loses, Lands;
    MarkerMissing(s, rmq, which, tries);
    var w := RunBuilder(s, rmq, MapBuilder(which), tries).s.w;
    if Reads(w, run, rmq.spec) { MapNeverMarked(w, run, rmq.spec, which); }
  }

  // So it is when the pass stops between the two writes.
  lemma CrashLosesMarker(w: World, rmq: RabbitmqCluster, which: Which, tries: nat)
    requires Inv(w) && Holds(w, rmq) && Unsettled(w, which, rmq.spec) && tries > 0
    ensures var s := Sys(w, [Turn([], Delivered), Turn([], Delivered)]);
            var p := RunBuilder(s, rmq, MapBuilder(which), tries);
            && p.flow == Error && DataOf(p.s.w, which) != DataOf(w, which)
            && Marks(p.s.w.log, which) == Marks(w.log, which) && Loses(s.turns, which, tries, tries)
  {
    var s := Sys(w, [Turn([], Delivered), Turn([], Delivered)]);
    assert Loses(s.turns, which, tries, tries) by { assert s.turns[2..] == []; }
    hide Loses, RunBuilder, Inv, Holds, Marks;
    MarkerMissing(s, rmq, which, tries);
  }
}
