// Which writes to the StatefulSet are made: the retry loops around the update,
// the creation marker and the restart, decided by the calls to come.
module StsWrites {
  import opened Text
  import opened Rfc3339
  import opened Conditions
  import opened Spec
  import opened ApiServer
  import opened Controllers
  import opened Invariants
  import opened Calls
  import opened Passes
  import opened Children
  import opened Restarts
  import opened Settling
  import opened Recovery
  import Metadata

  /* ---- what others do to the StatefulSet ---- */

  datatype Phase = Up | Going | Gone

  function PhaseOf(w: World): Phase {
    if w.sts.None? then Gone else if w.sts.value.terminating then Going else Up
  }

  function PhaseAfter(p: Phase, e: EnvStep): Phase {
    if e.DeleteStatefulSet? && p != Gone then Going else if e.Reap? && p == Going then Gone else p
  }

  function PhaseAfterAll(p: Phase, env: seq<EnvStep>): Phase
    decreases |env|
  {
    if env == [] then p else PhaseAfterAll(PhaseAfter(p, env[0]), env[1..])
  }

  // A step that gives a StatefulSet a new version.
  predicate Moves(e: EnvStep) {
    e.ReportStatus? || e.DeleteStatefulSet?
  }

  predicate MovedIn(env: seq<EnvStep>) {
    exists k :: 0 <= k < |env| && Moves(env[k])
  }

  lemma MovedFirst(env: seq<EnvStep>)
    requires env != []
    ensures MovedIn(env) <==> Moves(env[0]) || MovedIn(env[1..])
  {
    if Moves(env[0]) {
    } else if MovedIn(env) {
      var k :| 0 <= k < |env| && Moves(env[k]);
      assert env[1..][k - 1] == env[k];
    } else {
      assert forall k :: 0 <= k < |env[1..]| ==> env[1..][k] == env[k + 1];
    }
  }

  // The StatefulSet of w is still there in v, and has a new version exactly if
  // it was moved.
  predicate Endures(w: World, v: World, moved: bool) {
    v.sts.Some? ==>
      && w.sts.Some? && w.sts.value.rv <= v.sts.value.rv < v.nextId
      && (v.sts.value.rv == w.sts.value.rv <==> !moved)
  }

  lemma StepMoves(w: World, e: EnvStep)
    requires Numbered(w)
    ensures var v := Acted(w, e); PhaseOf(v) == PhaseAfter(PhaseOf(w), e) && Endures(w, v, Moves(e))
  {
    hide Seconds, PVCName;
  }

  lemma {:induction false} OthersMove(w: World, env: seq<EnvStep>)
    requires Numbered(w) && Proper(w.cluster)
    ensures var v := ActedAll(w, env);
            PhaseOf(v) == PhaseAfterAll(PhaseOf(w), env) && Endures(w, v, MovedIn(env))
    decreases |env|
  {
    if env != [] {
      var v := Acted(w, env[0]);
      ActedLeavesAlone(w, env[0]);
      StepMoves(w, env[0]);
      OthersMove(v, env[1..]);
      MovedFirst(env);
      assert ActedAll(w, env) == ActedAll(v, env[1..]);
      hide LeftAlone, Acted, ActedAll, Moves, MovedIn;
    }
  }

  /* ---- the calls to come ---- */

  // A write is made at last: read and write are answered, the StatefulSet is
  // there, and a new version from between the two leads to the next attempt.
  predicate Lands(turns: seq<Turn>, phase: Phase, tries: nat)
    decreases tries
  {
    && tries > 0 && |turns| >= 2 && turns[0].fate == Delivered && turns[1].fate != Refused
    && var p := PhaseAfterAll(PhaseAfterAll(phase, turns[0].env), turns[1].env);
       p != Gone && (MovedIn(turns[1].env) ==> Lands(turns[2..], p, tries - 1))
  }

  lemma {:induction false} GoneStays(env: seq<EnvStep>)
    ensures PhaseAfterAll(Gone, env) == Gone
    decreases |env|
  {
    if env != [] { GoneStays(env[1..]); }
  }

  lemma GoneNeverLands(turns: seq<Turn>, tries: nat)
    ensures !Lands(turns, Gone, tries)
  {
    if |turns| >= 2 {
      GoneStays(turns[0].env);
      GoneStays(turns[1].env);
    }
  }

  // The write of the copy just read is made.
  predicate Written(s: Sys) {
    && FateOf(s) != Refused && s.turns != []
    && PhaseAfterAll(PhaseOf(s.w), s.turns[0].env) != Gone && !MovedIn(s.turns[0].env)
  }

  lemma ReadStsDecided(s: Sys)
    requires Inv(s.w)
    ensures var (v, r) := ReadSts(s);
            && Inv(v.w) && v.turns == Enter(s).turns && v.w.log == s.w.log && Steady(s.w, v.w) && LeftAlone(s.w, v.w)
            && PhaseOf(v.w) == (if s.turns == [] then PhaseOf(s.w) else PhaseAfterAll(PhaseOf(s.w), s.turns[0].env))
            && (r.Ok? <==> FateOf(s) == Delivered && PhaseOf(v.w) != Gone)
            && (r.NotFound? <==> FateOf(s) == Delivered && PhaseOf(v.w) == Gone)
            && (r.Ok? ==> v.w.sts == Some(r.value))
  {
    EnterBriefly(s);
    if s.turns != [] { OthersMove(s.w, s.turns[0].env); }
    hide Inv, Steady, LeftAlone, Grows;
  }

  lemma WriteStsDecided(s: Sys, cur: Sts, obj: Sts, why: Purpose)
    requires Inv(s.w) && s.w.sts == Some(cur) && obj.rv == cur.rv && obj.terminating == cur.terminating
    ensures var (v, u) := UpdateSts(s, obj, why); var w := Enter(s).w;
            && v.turns == Enter(s).turns && Steady(s.w, w) && Inv(w) && LeftAlone(s.w, w)
            && (u.Ok? <==> FateOf(s) == Delivered && Written(s))
            && (u.Conflict? || u.NotFound? ==> v == Enter(s))
            && (u.Conflict? <==> FateOf(s) != Refused && PhaseOf(w) != Gone && MovedIn(s.turns[0].env))
            && (u.NotFound? <==> FateOf(s) != Refused && PhaseOf(w) == Gone)
            && (s.turns != [] ==> PhaseOf(w) == PhaseAfterAll(PhaseOf(s.w), s.turns[0].env))
            && (!Written(s) ==> v.w == w)
            && (Written(s) ==>
                && w.sts == Some(cur)
                && v.w == w.(sts := Some(obj.(rv := w.nextId)), nextId := w.nextId + 1,
                     log := w.log + StsEvents(w, cur, obj, why)))
  {
    assert HoldsSts(s.w, cur) && Numbered(s.w) && Proper(s.w.cluster);
    UpdateStsCases(s, cur, obj, why);
    if s.turns != [] { OthersMove(s.w, s.turns[0].env); }
    hide Inv, Steady, LeftAlone, HoldsSts, StsEvents, MovedIn;
  }

  // What the turns of one attempt amount to: the read fails or finds nothing ...
  lemma ReadDecides(s: Sys, s1: Sys, tries: nat)
    requires tries > 0 && s1.turns == Enter(s).turns
    requires s.turns != [] ==> PhaseOf(s1.w) == PhaseAfterAll(PhaseOf(s.w), s.turns[0].env)
    ensures FateOf(s) != Delivered || PhaseOf(s1.w) == Gone ==> !Lands(s.turns, PhaseOf(s.w), tries)
  {
    if s1.turns != [] { GoneStays(s1.turns[0].env); }
    hide PhaseAfterAll, MovedIn, ActedAll;
  }

  // ... or the write decides.
  lemma AttemptDecides(s: Sys, s1: Sys, s2: Sys, tries: nat)
    requires tries > 0 && FateOf(s) == Delivered && s1.turns == Enter(s).turns && s2.turns == Enter(s1).turns
    requires PhaseOf(s1.w) == PhaseAfterAll(PhaseOf(s.w), s.turns[0].env)
    requires FateOf(s1) != Refused && !Written(s1) ==>
      PhaseOf(s2.w) == PhaseAfterAll(PhaseOf(s1.w), s1.turns[0].env)
    ensures FateOf(s1) == Refused ==> !Lands(s.turns, PhaseOf(s.w), tries)
    ensures Written(s1) ==> Lands(s.turns, PhaseOf(s.w), tries)
    ensures FateOf(s1) != Refused && !Written(s1) ==>
              (Lands(s.turns, PhaseOf(s.w), tries) <==> Lands(s2.turns, PhaseOf(s2.w), tries - 1))
  {
    if s1.turns != [] {
      assert s.turns[1] == s1.turns[0] && s2.turns == s.turns[2..];
      GoneNeverLands(s2.turns, tries - 1);
    }
    hide PhaseAfterAll, MovedIn, ActedAll;
  }

  /* ---- the creation marker ---- */

  // The StatefulSet is still that of w, if it is there, with these annotations.
  predicate Bears(w: World, v: World, a: Annotations) {
    v.sts.Some? ==> w.sts.Some? && v.sts.value.uid == w.sts.value.uid && v.sts.value.annotations == a
  }

  function AnnotationsOf(w: World): Annotations {
    if w.sts.Some? then w.sts.value.annotations else map[]
  }

  function MarkedCreated(a: Annotations, t: Time): Annotations {
    a[CREATED_AT := Stamp(t)]
  }

  // From w to v the creation marker was set, or the annotations were left.
  predicate MarkedIf(w: World, v: World, t: Time, made: bool) {
    Bears(w, v, if made then MarkedCreated(AnnotationsOf(w), t) else AnnotationsOf(w))
  }

  lemma MarkedThrough(w: World, v: World, u: World, t: Time, made: bool)
    requires MarkedIf(w, v, t, false) && MarkedIf(v, u, t, made)
    ensures MarkedIf(w, u, t, made)
  {
  }

  lemma OthersMarkNothing(w: World, v: World, t: Time)
    requires LeftAlone(w, v) || v == w
    ensures MarkedIf(w, v, t, false)
  {
  }

  // What the loop around the creation marker comes to.
  ghost predicate CreationDecided(s: Sys, t: Time, lands: bool, v: Sys, ok: bool) {
    Inv(v.w) && (ok ==> lands) && (lands ==> v.w.sts.Some?) && MarkedIf(s.w, v.w, t, lands)
  }

  lemma MarkWrite(s: Sys, sts: Sts, t: Time)
    requires Inv(s.w) && s.w.sts == Some(sts)
    ensures var (v, u) := UpdateSts(s, sts.(annotations := sts.annotations[CREATED_AT := Stamp(t)]), Mark);
            && v.turns == Enter(s).turns && Inv(v.w)
            && (u.Ok? <==> FateOf(s) == Delivered && Written(s))
            && (u.Conflict? || u.NotFound? <==> FateOf(s) != Refused && !Written(s))
            && (FateOf(s) != Refused && !Written(s) ==>
                PhaseOf(v.w) == PhaseAfterAll(PhaseOf(s.w), s.turns[0].env))
            && (Written(s) ==> v.w.sts.Some?)
            && MarkedIf(s.w, v.w, t, Written(s))
  {
    var obj := sts.(annotations := sts.annotations[CREATED_AT := Stamp(t)]);
    WriteStsDecided(s, sts, obj, Mark);
    OthersMarkNothing(s.w, Enter(s).w, t);
    assert HoldsSts(s.w, sts) && Fits(sts, obj) && SameMarks(sts, obj);
    UpdateStsKeeps(s, sts, obj, Mark);
    hide Inv, Steady, LeftAlone, UpdateSts, Enter, StsEvents, HoldsSts, Calm;
  }

  lemma {:induction false} AnnotateStsDecided(s: Sys, t: Time, tries: nat)
    requires Inv(s.w)
    ensures var (v, ok) := AnnotateSts(s, t, tries);
            CreationDecided(s, t, Lands(s.turns, PhaseOf(s.w), tries), v, ok)
    decreases tries
  {
    hide Inv, Steady, LeftAlone, ReadSts, UpdateSts, MarkedIf, Lands, Written, PhaseOf, Enter;
    OthersMarkNothing(s.w, s.w, t);
    if tries == 0 {
      NoTries(s.turns, PhaseOf(s.w));
    } else {
      var (s1, r) := ReadSts(s);
      ReadStsDecided(s);
      OthersMarkNothing(s.w, s1.w, t);
      if r.Ok? {
        var (s2, u) := UpdateSts(s1, r.value.(annotations := r.value.annotations[CREATED_AT := Stamp(t)]), Mark);
        MarkWrite(s1, r.value, t);
        AttemptDecides(s, s1, s2, tries);
        MarkedThrough(s.w, s1.w, s2.w, t, Written(s1));
        if u.Conflict? || u.NotFound? {
          AnnotateStsDecided(s2, t, tries - 1);
          MarkedThrough(s.w, s2.w, AnnotateSts(s2, t, tries - 1).0.w, t, Lands(s2.turns, PhaseOf(s2.w), tries - 1));
        }
      } else {
        ReadDecides(s, s1, tries);
        if r.NotFound? {
          AnnotateStsDecided(s1, t, tries - 1);
          GoneNeverLands(s1.turns, tries - 1);
          MarkedThrough(s.w, s1.w, AnnotateSts(s1, t, tries - 1).0.w, t, false);
        }
      }
    }
  }

  // A StatefulSet that is not to be found is asked for again, each time anew.
  lemma {:induction false} AskedForAgain(s: Sys, t: Time, tries: nat)
    requires s.w.sts.None? && |s.turns| >= tries && forall k :: 0 <= k < |s.turns| ==> s.turns[k].fate == Delivered
    ensures var (v, ok) := AnnotateSts(s, t, tries); !ok && v.turns == s.turns[tries..]
    decreases tries
  {
    if tries > 0 {
      NoneComes(s.w, s.turns[0].env);
      AskedForAgain(Enter(s), t, tries - 1);
      assert s.turns[1..][tries - 1..] == s.turns[tries..];
      hide ActedAll;
    }
  }

  lemma NoTries(turns: seq<Turn>, phase: Phase)
    ensures !Lands(turns, phase, 0)
  {
  }

  /* ---- a StatefulSet is created ---- */

  // The read shows none, and the creation reaches the server.
  predicate Creates(turns: seq<Turn>) {
    |turns| >= 2 && turns[0].fate == Delivered && turns[1].fate != Refused
  }

  // The creation's reply is lost, or the marker after it does not land.
  predicate Unmarked(turns: seq<Turn>, tries: nat) {
    Creates(turns) && (turns[1].fate == ReplyLost || !Lands(turns[2..], Up, tries))
  }

  lemma {:induction false} NoneComes(w: World, env: seq<EnvStep>)
    requires w.sts.None?
    ensures ActedAll(w, env).sts.None?
    decreases |env|
  {
    if env != [] { NoneComes(Acted(w, env[0]), env[1..]); }
  }

  lemma NewAnnotationsUnmarked(rmq: RabbitmqCluster)
    requires CREATED_AT !in rmq.annotations
    ensures CREATED_AT !in UpdatedSts(BuiltSts(rmq), rmq).annotations
  {
    MergedOne(Metadata.IsNotKubernetesAnnotation, map[], rmq.annotations);
  }

  lemma CreationCall(s: Sys, obj: Sts)
    requires Inv(s.w) && s.w.sts.None?
    ensures var (v, r) := CreateSts(s, obj);
            && v.turns == Enter(s).turns && s.w.log <= v.w.log && (r.Ok? <==> FateOf(s) == Delivered)
            && if FateOf(s) == Refused then v.w.sts.None? && v.w.log == s.w.log
               else
                 && v.w.sts.Some? && v.w.sts.value.annotations == obj.annotations && PhaseOf(v.w) == Up
                 && |v.w.log| == |s.w.log| + 1 && v.w.log[|s.w.log|].StsCreated?
  {
    EnterBriefly(s);
    if s.turns != [] { NoneComes(s.w, s.turns[0].env); }
    hide Inv, Steady, LeftAlone, Grows, ActedAll;
  }

  lemma CreationRead(s: Sys, rmq: RabbitmqCluster, tries: nat)
    requires Inv(s.w) && s.w.sts.None? && tries > 0
    ensures var s1 := Enter(s); var (v, c) := CreateSts(s1, UpdatedSts(BuiltSts(rmq), rmq));
            && Inv(s1.w) && s1.w.sts.None? && s1.w.log == s.w.log
            && ApplySts(s, rmq, tries) ==
               if FateOf(s) == Delivered then (v, if c.Ok? then Ok(Created) else Failed) else (s1, Failed)
  {
    EnterBriefly(s);
    if s.turns != [] { NoneComes(s.w, s.turns[0].env); }
    hide Inv, Steady, LeftAlone, Grows, ActedAll, UpdatedSts, BuiltSts, CreateSts;
  }

  // What applying comes to where there is none.
  ghost predicate CreatedIf(s: Sys, v: Sys, r: Reply<Operation>) {
    && Inv(v.w) && (r.Ok? <==> Creates(s.turns) && s.turns[1].fate == Delivered) && (r.Ok? ==> r.value == Created)
    && if Creates(s.turns) then
         && v.turns == s.turns[2..] && v.w.sts.Some? && PhaseOf(v.w) == Up && CREATED_AT !in v.w.sts.value.annotations
         && |v.w.log| == |s.w.log| + 1 && v.w.log[|s.w.log|].StsCreated? && s.w.log <= v.w.log
       else v.w.sts.None? && v.w.log == s.w.log
  }

  lemma CreatedExactly(s: Sys, rmq: RabbitmqCluster, tries: nat)
    requires Prepared(s.w, rmq) && s.w.sts.None? && tries > 0 && CREATED_AT !in rmq.annotations
    ensures var (v, r) := ApplySts(s, rmq, tries); CreatedIf(s, v, r)
  {
    NewAnnotationsUnmarked(rmq);
    assert Inv(s.w);
    hide Prepared, Inv, UpdatedSts, BuiltSts, ApplySts, CreateSts, PhaseOf, StsStep;
    ApplyStsKeeps(s, rmq, tries);
    CreationRead(s, rmq, tries);
    CreationCall(Enter(s), UpdatedSts(BuiltSts(rmq), rmq));
    InvAfterStep(s.w, ApplySts(s, rmq, tries).0.w, rmq, ApplySts(s, rmq, tries).1.Ok?);
    hide ActedAll;
  }

  lemma InvAfterStep(w: World, v: World, rmq: RabbitmqCluster, done: bool)
    requires StsStep(w, v, rmq, done)
    ensures Inv(v)
  {
  }

  // Creating the StatefulSet: it is created exactly when the calls to come let
  // it be, and then it stays without its marker exactly when they leave it
  // unmarked; and then the pass ends with an error.
  lemma CreationExact(s: Sys, rmq: RabbitmqCluster, tries: nat)
    requires Prepared(s.w, rmq) && s.w.sts.None? && tries > 0 && CREATED_AT !in rmq.annotations
    ensures var p := ApplyAndAnnotate(s, rmq, StsBuilder, tries); var sts := p.s.w.sts;
            && (Creates(s.turns) <==> |s.w.log| < |p.s.w.log| && p.s.w.log[|s.w.log|].StsCreated?)
            && (!Creates(s.turns) ==> sts.None?)
            && (Creates(s.turns) && sts.Some? ==> (CREATED_AT !in sts.value.annotations <==> Unmarked(s.turns, tries)))
            && (Creates(s.turns) && !Unmarked(s.turns, tries) ==>
                sts.Some? && CREATED_AT in sts.value.annotations && sts.value.annotations[CREATED_AT].Stamp?)
            && (p.flow == Go ==> Creates(s.turns) && !Unmarked(s.turns, tries))
  {
    var (s1, r) := ApplySts(s, rmq, tries);
    CreatedExactly(s, rmq, tries);
    hide ApplySts, AnnotateSts, Prepared, Inv, Lands, SetCondition, PhaseOf;
    if r.Ok? {
      assert s.turns[2..] == s1.turns;
      AnnotateStsDecided(s1, s1.w.now, tries);
      AnnotationLogs(s1, s1.w.now, tries);
    } else {
      ConditionLeavesSts(s1, rmq, "Error");
    }
  }

  lemma AnnotationLogs(s: Sys, t: Time, tries: nat)
    requires Inv(s.w)
    ensures s.w.log <= AnnotateSts(s, t, tries).0.w.log
  {
    AnnotateStsKeeps(s, t, tries);
  }

  lemma ConditionLeavesSts(s: Sys, rmq: RabbitmqCluster, reason: string)
    requires Inv(s.w)
    ensures var v := SetReconcileSuccess(s, rmq, ConditionFalse, reason).s.w;
            && v.log == s.w.log && (s.w.sts.None? ==> v.sts.None?)
            && (v.sts.Some? ==> s.w.sts.Some? && v.sts.value.annotations == s.w.sts.value.annotations)
  {
    EnterSteady(s);
    hide AfterSetCondition;
  }

  // The StatefulSet of v is that of w, and has no creation marker that neither
  // that one nor the resource had.
  predicate Inherits(w: World, v: World, rmq: RabbitmqCluster) {
    v.sts.Some? ==>
      && w.sts.Some? && v.sts.value.uid == w.sts.value.uid
      && (CREATED_AT in v.sts.value.annotations ==> CREATED_AT in w.sts.value.annotations + rmq.annotations)
  }

  lemma InheritsTransitive(w: World, v: World, u: World, rmq: RabbitmqCluster)
    requires Inherits(w, v, rmq) && Inherits(v, u, rmq)
    ensures Inherits(w, u, rmq)
  {
  }

  lemma OthersInherit(w: World, v: World, rmq: RabbitmqCluster)
    requires LeftAlone(w, v)
    ensures Inherits(w, v, rmq)
  {
  }

  lemma UpdateInherits(s: Sys, rmq: RabbitmqCluster, sts: Sts)
    requires Inv(s.w) && s.w.sts == Some(sts)
    ensures var (v, u) := UpdateSts(s, UpdatedSts(sts, rmq), Apply);
            Inherits(s.w, v.w, rmq) && (u.Conflict? ==> Inv(v.w))
  {
    var obj := UpdatedSts(sts, rmq);
    assert obj.rv == sts.rv && obj.terminating == sts.terminating && obj.uid == sts.uid;
    MergedOne(Metadata.IsNotKubernetesAnnotation, sts.annotations, rmq.annotations);
    assert CREATED_AT in obj.annotations ==> CREATED_AT in sts.annotations + rmq.annotations;
    WriteStsDecided(s, sts, obj, Apply);
    OthersInherit(s.w, Enter(s).w, rmq);
    hide Inv, Steady, LeftAlone, UpdateSts, UpdatedSts, Enter, StsEvents;
  }

  // An update that goes through is none of a new StatefulSet.
  lemma {:induction false} UpdatedIsOld(s: Sys, rmq: RabbitmqCluster, tries: nat)
    requires Inv(s.w)
    ensures var (v, r) := ApplySts(s, rmq, tries); r.Ok? && r.value != Created ==> Inherits(s.w, v.w, rmq)
    decreases tries
  {
    hide Inv, ReadSts, UpdateSts, CreateSts, UpdatedSts, BuiltSts, Inherits, Steady, LeftAlone;
    if tries > 0 {
      var (s1, r) := ReadSts(s);
      ReadStsDecided(s);
      OthersInherit(s.w, s1.w, rmq);
      if r.Ok? && UpdatedSts(r.value, rmq) != r.value {
        var (s2, u) := UpdateSts(s1, UpdatedSts(r.value, rmq), Apply);
        UpdateInherits(s1, rmq, r.value);
        InheritsTransitive(s.w, s1.w, s2.w, rmq);
        if u.Conflict? {
          UpdatedIsOld(s2, rmq, tries - 1);
          var (v, o) := ApplySts(s2, rmq, tries - 1);
          if o.Ok? && o.value != Created { InheritsTransitive(s.w, s2.w, v.w, rmq); }
        }
      }
    }
  }

  lemma NewUid(s: Sys, obj: Sts)
    requires Inv(s.w)
    ensures var (v, r) := CreateSts(s, obj); r.Ok? ==> v.w.sts.Some? && v.w.sts.value.uid >= s.w.nextId
  {
    EnterBriefly(s);
  }

  lemma {:induction false} CreatedIsNew(s: Sys, rmq: RabbitmqCluster, tries: nat)
    requires Inv(s.w)
    ensures var (v, r) := ApplySts(s, rmq, tries);
            r == Ok(Created) ==> v.w.sts.Some? && v.w.sts.value.uid >= s.w.nextId
    decreases tries
  {
    hide Inv, ReadSts, UpdateSts, CreateSts, UpdatedSts, BuiltSts, Steady, LeftAlone;
    if tries > 0 {
      var (s1, r) := ReadSts(s);
      ReadStsDecided(s);
      NumbersGrow(s.w, s1.w);
      if r.NotFound? {
        NewUid(s1, UpdatedSts(BuiltSts(rmq), rmq));
      } else if r.Ok? && UpdatedSts(r.value, rmq) != r.value {
        var (s2, u) := UpdateSts(s1, UpdatedSts(r.value, rmq), Apply);
        UpdateInherits(s1, rmq, r.value);
        if u.Conflict? {
          UpdateNumbers(s1, UpdatedSts(r.value, rmq));
          CreatedIsNew(s2, rmq, tries - 1);
        }
      }
    }
  }

  lemma NumbersGrow(w: World, v: World)
    requires LeftAlone(w, v)
    ensures w.nextId <= v.nextId
  {
  }

  lemma UpdateNumbers(s: Sys, obj: Sts)
    requires Inv(s.w)
    ensures s.w.nextId <= UpdateSts(s, obj, Apply).0.w.nextId
  {
    EnterBriefly(s);
    hide StsEvents;
  }

  // Whatever happens at the calls, a pass goes on from the StatefulSet's step
  // with a new StatefulSet only if that has its creation marker; one that was
  // there before gets none.
  lemma GoMeansMarked(s: Sys, rmq: RabbitmqCluster, tries: nat)
    requires Inv(s.w) && Holds(s.w, rmq)
    ensures var p := RunBuilder(s, rmq, StsBuilder, tries); var before, sts := PrepareSts(s, rmq).s.w, p.s.w.sts;
            p.flow == Go && sts.Some? ==>
              if sts.value.uid >= s.w.nextId then
                CREATED_AT in sts.value.annotations && sts.value.annotations[CREATED_AT].Stamp?
              else Inherits(before, p.s.w, rmq)
  {
    var q, p := PrepareSts(s, rmq), RunBuilder(s, rmq, StsBuilder, tries);
    PrepareStsPrepares(s, rmq);
    if p.flow == Go {
      PreparedOld(s, rmq, q.s, q.rmq);
      var (s1, r) := ApplySts(q.s, rmq, tries);
      ApplyStsKeeps(q.s, rmq, tries);
      InvAfterStep(q.s.w, s1.w, rmq, r.Ok?);
      UpdatedIsOld(q.s, rmq, tries);
      if r == Ok(Created) {
        AnnotateStsDecided(s1, s1.w.now, tries);
        CreatedIsNew(q.s, rmq, tries);
      }
    }
    hide Inv, Holds, PrepareSts, ApplySts, AnnotateSts, Prepared, StsStep, Lands, StepKeeps, SetCondition;
  }

  lemma PreparedOld(s: Sys, rmq: RabbitmqCluster, t: Sys, held: RabbitmqCluster)
    requires Inv(s.w) && StepKeeps(s, rmq, t, held)
    ensures Inv(t.w) && s.w.nextId <= t.w.nextId && (t.w.sts.Some? ==> t.w.sts.value.uid < s.w.nextId)
  {
  }

  /* ---- the StatefulSet is updated ---- */

  predicate StillFits(w: World, rmq: RabbitmqCluster, uid: nat) {
    w.sts.Some? && w.sts.value.uid == uid && StsFits(w.sts.value, rmq)
  }

  lemma OthersFitNothing(w: World, v: World, rmq: RabbitmqCluster, uid: nat)
    requires LeftAlone(w, v) && !StillFits(w, rmq, uid)
    ensures !StillFits(v, rmq, uid) && (v.sts.Some? ==> w.sts.Some? && v.sts.value.uid == w.sts.value.uid)
  {
  }

  lemma UpdateWrite(s: Sys, rmq: RabbitmqCluster, sts: Sts)
    requires Inv(s.w) && Proper(rmq) && s.w.sts == Some(sts) && !StsFits(sts, rmq)
    ensures var (v, u) := UpdateSts(s, UpdatedSts(sts, rmq), Apply);
            && v.turns == Enter(s).turns && (u.Conflict? ==> Inv(v.w) && v.w.sts.Some? && v.w.sts.value.uid == sts.uid)
            && (u.Conflict? ==> FateOf(s) != Refused && !Written(s))
            && (FateOf(s) != Refused && !Written(s) && !u.Conflict? ==> PhaseOf(v.w) == Gone)
            && (FateOf(s) != Refused && !Written(s) ==>
                PhaseOf(v.w) == PhaseAfterAll(PhaseOf(s.w), s.turns[0].env))
            && (StillFits(v.w, rmq, sts.uid) <==> Written(s))
  {
    var obj := UpdatedSts(sts, rmq);
    UpdatedFits(sts, rmq);
    assert obj.rv == sts.rv && obj.terminating == sts.terminating && obj.uid == sts.uid;
    assert forall n: nat :: StsFits(obj.(rv := n), rmq);
    WriteStsDecided(s, sts, obj, Apply);
    OthersFitNothing(s.w, Enter(s).w, rmq, sts.uid);
    hide Inv, Steady, LeftAlone, UpdateSts, UpdatedSts, Enter, StsEvents, StsFits;
  }

  // A StatefulSet that does not fit the resource comes to fit it exactly when
  // the calls to come let the update land.
  lemma {:induction false} UpdateExact(s: Sys, rmq: RabbitmqCluster, tries: nat)
    requires Inv(s.w) && Proper(rmq) && s.w.sts.Some? && !StsFits(s.w.sts.value, rmq)
    ensures StillFits(ApplySts(s, rmq, tries).0.w, rmq, s.w.sts.value.uid)
      <==> Lands(s.turns, PhaseOf(s.w), tries)
    decreases tries
  {
    var uid := s.w.sts.value.uid;
    assert !StillFits(s.w, rmq, uid);
    hide Inv, ReadSts, UpdateSts, CreateSts, UpdatedSts, BuiltSts, Steady, LeftAlone, Lands, Written, StsFits;
    if tries == 0 {
      NoTries(s.turns, PhaseOf(s.w));
    } else {
      var (s1, r) := ReadSts(s);
      ReadStsDecided(s);
      OthersFitNothing(s.w, s1.w, rmq, uid);
      ReadDecides(s, s1, tries);
      if r.Ok? {
        FixedWhenFits(r.value, rmq);
        var (s2, u) := UpdateSts(s1, UpdatedSts(r.value, rmq), Apply);
        UpdateWrite(s1, rmq, r.value);
        AttemptDecides(s, s1, s2, tries);
        if u.Conflict? {
          UpdateExact(s2, rmq, tries - 1);
        } else {
          GoneNeverLands(s2.turns, tries - 1);
        }
      } else if r.NotFound? {
        OnlyNewCreated(s1, UpdatedSts(BuiltSts(rmq), rmq), rmq, uid);
      }
    }
  }

  lemma OnlyNewCreated(s: Sys, obj: Sts, rmq: RabbitmqCluster, uid: nat)
    requires Inv(s.w) && s.w.sts.None? && uid < s.w.nextId
    ensures !StillFits(CreateSts(s, obj).0.w, rmq, uid)
  {
    EnterBriefly(s);
    if s.turns != [] { NoneComes(s.w, s.turns[0].env); }
    hide StsFits;
  }

  /* ---- the StatefulSet is restarted ---- */

  // One restart of this StatefulSet was added to the log, or nothing was.
  predicate RestartedIf(w: World, v: World, uid: nat, made: bool) {
    if made then |v.log| == |w.log| + 1 && w.log <= v.log && v.log[|w.log|].Restarted? && v.log[|w.log|].uid == uid
    else v.log == w.log
  }

  lemma RestartWrite(s: Sys, sts: Sts, t: Time)
    requires Restartable(s.w) && s.w.sts == Some(sts) && t == s.w.now
    ensures var (v, u) := UpdateSts(s, Restamped(sts, t), Restart);
            && v.turns == Enter(s).turns && RestartedIf(s.w, v.w, sts.uid, Written(s))
            && (u.Ok? <==> FateOf(s) == Delivered && Written(s))
            && (u.Conflict? ==> FateOf(s) != Refused && !Written(s))
            && (FateOf(s) != Refused && !Written(s) && !u.Conflict? ==> PhaseOf(v.w) == Gone)
            && (FateOf(s) != Refused && !Written(s) ==>
                PhaseOf(v.w) == PhaseAfterAll(PhaseOf(s.w), s.turns[0].env))
            && (u.Conflict? ==> Restartable(v.w) && v.w.sts.Some? && v.w.sts.value.uid == sts.uid)
  {
    var obj := Restamped(sts, t);
    assert obj.rv == sts.rv && obj.terminating == sts.terminating && Inv(s.w);
    WriteStsDecided(s, sts, obj, Restart);
    var w := Enter(s).w;
    RestartableOn(s.w, w);
    SameStsUnder(s.w, w);
    if Written(s) {
      assert StsEvents(w, sts, obj, Restart) == [RestartEvent(w, t)];
      assert w.log == s.w.log;
    }
    hide Inv, Steady, LeftAlone, UpdateSts, Restartable, Enter, StsEvents;
  }

  lemma SameStsUnder(w: World, v: World)
    requires LeftAlone(w, v)
    ensures v.log == w.log && (v.sts.Some? ==> w.sts.Some? && v.sts.value.uid == w.sts.value.uid)
  {
  }

  lemma {:induction false} WriteRestartExact(s: Sys, tries: nat)
    requires Restartable(s.w) && s.w.sts.Some?
    ensures var (v, ok) := WriteRestart(s, tries); var lands := Lands(s.turns, PhaseOf(s.w), tries);
            RestartedIf(s.w, v.w, s.w.sts.value.uid, lands) && (ok ==> lands)
    decreases tries
  {
    var uid := s.w.sts.value.uid;
    assert Inv(s.w);
    hide Inv, ReadSts, UpdateSts, Steady, LeftAlone, Lands, Written, Restartable, PhaseOf, Enter;
    if tries == 0 {
      NoTries(s.turns, PhaseOf(s.w));
    } else {
      var (s1, r) := ReadSts(s);
      ReadStsDecided(s);
      ReadDecides(s, s1, tries);
      if r.Ok? {
        RestartableOn(s.w, s1.w);
        SameStsUnder(s.w, s1.w);
        var (s2, u) := UpdateSts(s1, Restamped(r.value, s1.w.now), Restart);
        RestartWrite(s1, r.value, s1.w.now);
        AttemptDecides(s, s1, s2, tries);
        if u.Conflict? {
          WriteRestartExact(s2, tries - 1);
        } else {
          GoneNeverLands(s2.turns, tries - 1);
        }
      }
    }
  }

  // Both reads of the restart's decision are answered, the StatefulSet is
  // still there, and the restart lands.
  predicate RestartLands(turns: seq<Turn>, phase: Phase, tries: nat) {
    && |turns| >= 2 && turns[0].fate == Delivered && turns[1].fate == Delivered
    && var p := PhaseAfterAll(PhaseAfterAll(phase, turns[0].env), turns[1].env);
       p != Gone && Lands(turns[2..], p, tries)
  }

  lemma DueStays(w: World, v: World)
    requires Inv(w) && Inv(v) && LeftAlone(w, v) && RestartDue(w)
    ensures v.server.Some? && ConfMark(v) == ConfMark(w) && (v.sts.Some? ==> RestartDue(v) && Restartable(v))
    ensures v.log == w.log && (v.sts.Some? ==> v.sts.value.uid == w.sts.value.uid)
  {
    if v.sts.Some? { PriorIsNoLater(v, v.sts.value, ConfMark(v).value); }
    hide TextAfter, Grows, GoodLog, RestartedSince;
  }

  // A restart that is due is written exactly when the calls to come let it.
  lemma RestartDueExact(s: Sys, tries: nat)
    requires Inv(s.w) && RestartDue(s.w)
    ensures var (v, o) := RestartIfNeeded(s, tries); var lands := RestartLands(s.turns, PhaseOf(s.w), tries);
            && RestartedIf(s.w, v.w, s.w.sts.value.uid, lands) && (o == RestartDone ==> lands)
            && (o == RestartDone || o == RestartFailed || o == Wait)
  {
    var (s1, conf) := ReadMap(s, ServerMap);
    EnterBriefly(s);
    if s.turns != [] { OthersMove(s.w, s.turns[0].env); }
    DueStays(s.w, s1.w);
    if conf.Ok? {
      var mark := conf.value.annotations[SERVER_CONF_UPDATED_AT];
      assert ConfMark(s1.w) == Some(mark);
      var (s2, r) := ReadSts(s1);
      ReadStsDecided(s1);
      if s1.w.sts.Some? {
        DueStays(s1.w, s2.w);
      } else if s1.turns != [] {
        GoneStays(s1.turns[0].env);
      }
      if r.Ok? {
        assert s2.turns == s.turns[2..];
        WriteRestartExact(s2, tries);
      }
    }
    hide Inv, ReadMap, ReadSts, LeftAlone, Steady, Grows, Lands, WriteRestart, RestartDue, TextAfter, Restartable;
  }
}
