// What each call of the operator keeps of the store, and of the copies the
// operator holds.
module Calls {
  import opened Text
  import opened Rfc3339
  import opened Spec
  import opened ConfigMaps
  import opened ApiServer
  import opened Invariants
  import Scaling

  /* ---- what only the builders and a completed pass change ---- */

  predicate SameData(a: Option<StoredMap>, b: Option<StoredMap>) {
    (a.Some? <==> b.Some?) && (a.Some? ==> b.value.data == a.value.data)
  }

  // A ConfigMap's data is as it was, and its marker was not written.
  predicate MapQuiet(w: World, v: World, which: Which) {
    SameData(MapOf(w, which), MapOf(v, which)) && Marks(v.log, which) == Marks(w.log, which)
  }

  predicate Undisturbed(w: World, v: World) {
    v.others == w.others && MapQuiet(w, v, PluginsMap) && MapQuiet(w, v, ServerMap)
  }

  predicate SameObserved(w: World, v: World) {
    v.cluster.status.observedGeneration == w.cluster.status.observedGeneration
  }

  predicate Calm(w: World, v: World) {
    Undisturbed(w, v) && SameObserved(w, v)
  }

  // The StatefulSet, if it is still there, has its shape ...
  predicate Formed(w: World, v: World) {
    v.sts.Some? ==>
      && w.sts.Some? && v.sts.value.uid == w.sts.value.uid
      && v.sts.value.replicas == w.sts.value.replicas && v.sts.value.template == w.sts.value.template
      && v.sts.value.storage == w.sts.value.storage
  }

  // ... and its creation marker or none.
  predicate Shaped(w: World, v: World) {
    Formed(w, v) &&
      (v.sts.Some? && CREATED_AT in v.sts.value.annotations ==>
        Lookup(w.sts.value.annotations, CREATED_AT) == Lookup(v.sts.value.annotations, CREATED_AT))
  }

  ghost predicate Steady(w: World, v: World) {
    Kept(w, v) && Calm(w, v) && Shaped(w, v)
  }

  lemma SteadyReflexive(w: World)
    requires Inv(w)
    ensures Steady(w, w)
  {
  }

  lemma InvOfSteady(w: World, v: World)
    requires Steady(w, v)
    ensures Inv(v)
  {
  }

  lemma SteadyTransitive(w: World, v: World, u: World)
    requires Inv(w) && Steady(w, v) && Steady(v, u)
    ensures Steady(w, u)
  {
    KeptTransitive(w, v, u);
  }

  lemma EnterSteady(s: Sys)
    requires Inv(s.w)
    ensures Steady(s.w, Enter(s).w) && LeftAlone(s.w, Enter(s).w)
  {
    EnterKeeps(s);
  }

  // The same, taken apart.
  lemma EnterBriefly(s: Sys)
    requires Inv(s.w)
    ensures var w := Enter(s).w;
            && Inv(w) && Steady(s.w, w) && LeftAlone(s.w, w) && Grows(s.w, w) && SameObserved(s.w, w)
            && w.log == s.w.log && Seconds(s.w.now) <= Seconds(w.now)
  {
    EnterSteady(s);
  }

  // What an event must satisfy beside the log for it to be recorded.
  predicate Fitting(w: World, e: Event) {
    && (e.StsDeleteAccepted? || e.Scaled? ==> e.cluster == w.cluster.name)
    && (e.Looked? && MarkerOf(SetPlugins, e.look).Some? ==> PluginsPending(w))
  }

  lemma NoteSteady(s: Sys, e: Event)
    requires Inv(s.w) && GoodEvent(s.w.log, e) && Fitting(s.w, e) && (e.Scaled? || e.Looked? || e.PassBegan?)
    ensures Steady(s.w, Note(s, e).w)
  {
    Appended(s.w.log, e);
    NoteKeeps(s.w, e);
  }

  /* ---- calls without disturbance ---- */

  predicate Terminating(w: World) {
    w.sts.Some? && w.sts.value.terminating
  }

  // Every call is answered and nobody else acts, ...
  predicate Still(turns: seq<Turn>) {
    forall k :: 0 <= k < |turns| ==> turns[k] == Turn([], Delivered)
  }

  // ... or nobody but the garbage collector.
  predicate Tidy(turns: seq<Turn>) {
    forall k :: 0 <= k < |turns| ==> turns[k] == Turn([], Delivered) || turns[k] == Turn([Reap], Delivered)
  }

  // At the next n calls nothing goes wrong, and the store stays as it is.
  predicate Quiet(s: Sys, n: int) {
    |s.turns| >= n && Tidy(s.turns) && (Terminating(s.w) ==> Still(s.turns))
  }

  lemma QuietCall(s: Sys, n: int)
    requires Quiet(s, n) && n > 0
    ensures Enter(s).w == s.w && FateOf(s) == Delivered && Quiet(Enter(s), n - 1)
  {
    assert [Reap][1..] == [];
  }

  /* ---- the copies a pass holds ---- */

  // A held copy whose version is still current is what is stored.
  predicate Holds(w: World, rmq: RabbitmqCluster) {
    && rmq.rv < w.nextId && Proper(rmq) && rmq.name == w.cluster.name && rmq.generation <= w.cluster.generation
    && rmq.status.observedGeneration == w.cluster.status.observedGeneration
    && (w.cluster.rv == rmq.rv ==> w.cluster == rmq.(status := w.cluster.status))
  }

  predicate HoldsSts(w: World, sts: Sts) {
    sts.rv < w.nextId && sts.uid < w.nextId && (w.sts.Some? && w.sts.value.rv == sts.rv ==> w.sts.value == sts)
  }

  predicate HoldsMap(w: World, which: Which, m: StoredMap) {
    m.rv < w.nextId && MapOf(w, which).Some? && (MapOf(w, which).value.rv == m.rv ==> MapOf(w, which).value == m)
  }

  lemma HoldsOn(w: World, v: World, rmq: RabbitmqCluster)
    requires Holds(w, rmq) && Grows(w, v) && SameObserved(w, v)
    ensures Holds(v, rmq)
  {
  }

  lemma HoldsStsOn(w: World, v: World, sts: Sts)
    requires HoldsSts(w, sts) && Grows(w, v)
    ensures HoldsSts(v, sts)
  {
  }

  lemma HoldsMapOn(w: World, v: World, which: Which, m: StoredMap)
    requires HoldsMap(w, which, m) && Grows(w, v)
    ensures HoldsMap(v, which, m)
  {
  }

  /* ---- the custom resource ---- */

  predicate SameSpec(a: RabbitmqCluster, b: RabbitmqCluster) {
    a.spec == b.spec && a.generation == b.generation
  }

  // The resource as an update leaves it.
  function Stored(w: World, obj: RabbitmqCluster): RabbitmqCluster {
    w.cluster.(annotations := obj.annotations, finalizer := obj.finalizer, rv := w.nextId)
  }

  function RebalanceRemoval(w: World, obj: RabbitmqCluster): seq<Event> {
    Removal(RebalanceQueues, QUEUE_REBALANCE_NEEDED_AT, w.cluster.annotations, obj.annotations, w.cluster.rv)
  }

  lemma UpdateClusterCases(s: Sys, rmq: RabbitmqCluster, obj: RabbitmqCluster)
    requires Inv(s.w) && Holds(s.w, rmq) && obj.rv == rmq.rv
    ensures var w := Enter(s).w; var (v, r) := UpdateCluster(s, obj);
            && Steady(s.w, w) && Inv(w) && w.log == s.w.log && Holds(w, rmq)
            && (r.Ok? ==> v.w != w && r.value == Stored(w, obj))
            && (v.w != w ==>
                && v.w == w.(cluster := Stored(w, obj), nextId := w.nextId + 1, log := w.log + RebalanceRemoval(w, obj))
                && w.cluster.annotations == rmq.annotations && w.cluster.rv == rmq.rv && SameSpec(w.cluster, rmq))
  {
    hide Inv, Steady, LeftAlone, Grows, Enter;
    EnterBriefly(s);
    HoldsOn(s.w, Enter(s).w, rmq);
  }

  lemma UpdateClusterSteady(s: Sys, rmq: RabbitmqCluster, obj: RabbitmqCluster)
    requires Inv(s.w) && Holds(s.w, rmq) && obj == rmq.(annotations := obj.annotations, finalizer := obj.finalizer)
    requires Proper(obj)
    requires QUEUE_REBALANCE_NEEDED_AT in rmq.annotations ==> QUEUE_REBALANCE_NEEDED_AT in obj.annotations
    ensures var (v, r) := UpdateCluster(s, obj);
            Steady(s.w, v.w) && v.w.log == s.w.log && (r.Ok? ==> Holds(v.w, r.value) && SameSpec(r.value, rmq))
  {
    hide Steady, Inv, Holds, UpdateCluster, Enter;
    UpdateClusterCases(s, rmq, obj);
    var w, v := Enter(s).w, UpdateCluster(s, obj).0.w;
    if v != w {
      assert w.log + RebalanceRemoval(w, obj) == w.log;
      ClusterWritten(w, obj);
      SteadyTransitive(s.w, w, v);
    }
  }

  lemma UpdateStatusSteady(s: Sys, rmq: RabbitmqCluster, obj: RabbitmqCluster)
    requires Inv(s.w) && Holds(s.w, rmq) && obj == rmq.(status := obj.status)
    requires obj.status.observedGeneration == rmq.status.observedGeneration
    ensures var (v, r) := UpdateStatus(s, obj);
            && Steady(s.w, v.w) && v.w.log == s.w.log && Holds(v.w, obj)
            && (r.Ok? ==> Holds(v.w, r.value) && SameSpec(r.value, rmq))
  {
    hide Inv, Steady, LeftAlone, Grows, Enter;
    EnterBriefly(s);
    var w, v := Enter(s).w, UpdateStatus(s, obj).0.w;
    HoldsOn(s.w, w, rmq);
    if v != w {
      StatusIsWritten(w, rmq, obj);
      hide Holds;
      SteadyTransitive(s.w, w, v);
    }
  }

  lemma StatusIsWritten(w: World, rmq: RabbitmqCluster, obj: RabbitmqCluster)
    requires Inv(w) && Holds(w, rmq) && w.cluster.rv == rmq.rv && obj == rmq.(status := obj.status)
    requires obj.status.observedGeneration == rmq.status.observedGeneration
    ensures var c := w.cluster.(status := obj.status, rv := w.nextId);
            var v := w.(cluster := c, nextId := w.nextId + 1);
            Steady(w, v) && Holds(v, obj) && Holds(v, c) && SameSpec(c, rmq)
  {
  }

  // The removal of a marker is good when its command has run since the look.
  ghost predicate Finished(log: seq<Event>, cmd: Command, value: Value, version: nat) {
    GoodEvent(log, MarkerCleared(cmd, value, version))
  }

  lemma ClearKeeps(w: World, cmd: Command, value: Value, version: nat)
    requires Inv(w) && Finished(w.log, cmd, value, version)
    ensures var v := w.(log := w.log + [MarkerCleared(cmd, value, version)]);
            && Steady(w, v) && Inv(v) && Seen(v.log) == Seen(w.log)
            && Clears(v.log) == Clears(w.log) + if cmd == EnableFeatureFlags then 1 else 0
  {
    var e := MarkerCleared(cmd, value, version);
    Appended(w.log, e);
    NoteKeeps(w, e);
  }

  lemma ClusterWritten(w: World, obj: RabbitmqCluster)
    requires Inv(w) && Proper(obj)
    ensures var v := w.(cluster := Stored(w, obj), nextId := w.nextId + 1); Steady(w, v) && Holds(v, v.cluster)
  {
  }

  lemma ClearRebalanceSteady(s: Sys, rmq: RabbitmqCluster, obj: RabbitmqCluster)
    requires Inv(s.w) && Holds(s.w, rmq) && obj == rmq.(annotations := rmq.annotations - {QUEUE_REBALANCE_NEEDED_AT})
    requires QUEUE_REBALANCE_NEEDED_AT in rmq.annotations
    requires Finished(s.w.log, RebalanceQueues, rmq.annotations[QUEUE_REBALANCE_NEEDED_AT], rmq.rv)
    ensures var (v, r) := UpdateCluster(s, obj);
            && Steady(s.w, v.w)
            && (r.Ok? ==>
                && Seen(v.w.log) == Seen(s.w.log) && Holds(v.w, r.value) && SameSpec(r.value, rmq)
                && r.value.annotations == obj.annotations)
  {
    assert Proper(obj);
    hide Steady, Inv, Holds, UpdateCluster, Enter, Finished, Seen, Clears;
    UpdateClusterCases(s, rmq, obj);
    var w, v := Enter(s).w, UpdateCluster(s, obj).0.w;
    if v != w {
      var value := rmq.annotations[QUEUE_REBALANCE_NEEDED_AT];
      var w1 := w.(log := w.log + [MarkerCleared(RebalanceQueues, value, rmq.rv)]);
      assert RebalanceRemoval(w, obj) == [MarkerCleared(RebalanceQueues, value, rmq.rv)];
      ClearKeeps(w, RebalanceQueues, value, rmq.rv);
      ClusterWritten(w1, obj);
      assert v == w1.(cluster := Stored(w1, obj), nextId := w1.nextId + 1);
      SteadyTransitive(w, w1, v);
      SteadyTransitive(s.w, w, v);
    }
  }

  /* ---- the StatefulSet ---- */

  predicate SameMarks(a: Sts, b: Sts) {
    && Lookup(a.podAnnotations, LAST_RESTART_AT) == Lookup(b.podAnnotations, LAST_RESTART_AT)
    && (CREATED_AT in a.annotations ==> CREATED_AT in b.annotations)
  }

  predicate Fits(cur: Sts, obj: Sts) {
    obj.rv == cur.rv && obj.uid == cur.uid && obj.terminating == cur.terminating && cur.replicas <= obj.replicas
  }

  lemma StsWritten(w: World, obj: Sts)
    requires Inv(w) && w.sts.Some? && Fits(w.sts.value, obj) && SameMarks(w.sts.value, obj)
    ensures var sts := obj.(rv := w.nextId); var v := w.(sts := Some(sts), nextId := w.nextId + 1);
            Kept(w, v) && Calm(w, v) && HoldsSts(v, sts)
  {
  }

  lemma UpdateStsCases(s: Sys, cur: Sts, obj: Sts, why: Purpose)
    requires Inv(s.w) && HoldsSts(s.w, cur) && obj.rv == cur.rv
    ensures var w := Enter(s).w; var (v, r) := UpdateSts(s, obj, why); var sts := obj.(rv := w.nextId);
            && Steady(s.w, w) && Inv(w) && LeftAlone(s.w, w) && w.log == s.w.log
            && (r.Ok? ==> v.w != w && r.value == sts)
            && (r.Conflict? || r.NotFound? ==> v.w == w)
            && (v.w != w ==>
                && w.sts == Some(cur)
                && v.w == w.(sts := Some(sts), nextId := w.nextId + 1, log := w.log + StsEvents(w, cur, obj, why)))
  {
    hide Inv, Steady, LeftAlone, Grows, Enter;
    EnterBriefly(s);
    HoldsStsOn(s.w, Enter(s).w, cur);
  }

  lemma UpdateStsKeeps(s: Sys, cur: Sts, obj: Sts, why: Purpose)
    requires Inv(s.w) && HoldsSts(s.w, cur) && Fits(cur, obj) && SameMarks(cur, obj) && why != Restart
    ensures var (v, r) := UpdateSts(s, obj, why);
            && Kept(s.w, v.w) && Calm(s.w, v.w) && v.w.log == s.w.log
            && (v.w.sts.Some? ==> Shaped(s.w, v.w) || v.w.sts == Some(obj.(rv := v.w.sts.value.rv)))
            && (r.Ok? ==> v.w.sts == Some(r.value) && HoldsSts(v.w, r.value) && r.value == obj.(rv := r.value.rv))
            && (r.Conflict? || r.NotFound? ==> LeftAlone(s.w, v.w))
  {
    hide Inv, Kept, Calm, LeftAlone, HoldsSts, UpdateSts, Enter;
    UpdateStsCases(s, cur, obj, why);
    var w, v := Enter(s).w, UpdateSts(s, obj, why).0.w;
    if v != w {
      assert StsEvents(w, cur, obj, why) == [];
      assert w.log + [] == w.log;
      StsWritten(w, obj);
      KeptTransitive(s.w, w, v);
      CalmTransitive(s.w, w, v);
    }
  }

  lemma CalmTransitive(w: World, v: World, u: World)
    requires Calm(w, v) && Calm(v, u)
    ensures Calm(w, u)
  {
  }

  lemma CreationCleared(w: World, obj: Sts)
    requires Inv(w) && w.sts.Some? && obj == w.sts.value.(annotations := w.sts.value.annotations - {CREATED_AT})
    requires CREATED_AT in w.sts.value.annotations
    requires Finished(w.log, EnableFeatureFlags, w.sts.value.annotations[CREATED_AT], w.sts.value.rv)
    ensures var sts := obj.(rv := w.nextId);
            var e := MarkerCleared(EnableFeatureFlags, w.sts.value.annotations[CREATED_AT], w.sts.value.rv);
            var v := w.(sts := Some(sts), nextId := w.nextId + 1, log := w.log + [e]);
            Steady(w, v) && Seen(v.log) == Seen(w.log) && HoldsSts(v, sts)
  {
    var e := MarkerCleared(EnableFeatureFlags, w.sts.value.annotations[CREATED_AT], w.sts.value.rv);
    var w1 := w.(log := w.log + [e]);
    ClearKeeps(w, EnableFeatureFlags, e.value, e.version);
    var v := w1.(sts := Some(obj.(rv := w.nextId)), nextId := w.nextId + 1);
    assert Inv(v) && Clears(v.log) == Clears(w.log) + 1 by { hide Finished, StsContinues, MarkerStays, VersionsTell; }
    hide GoodLog, AllBefore, LastMark, LastRestart, Clears, Finished, RanOnPods, Marks, Proper, PluginLooks, Seen;
  }

  lemma ClearCreationSteady(s: Sys, cur: Sts, obj: Sts)
    requires Inv(s.w) && HoldsSts(s.w, cur) && obj == cur.(annotations := cur.annotations - {CREATED_AT})
    requires CREATED_AT in cur.annotations && Finished(s.w.log, EnableFeatureFlags, cur.annotations[CREATED_AT], cur.rv)
    ensures var (v, r) := UpdateSts(s, obj, Apply);
            && Steady(s.w, v.w)
            && (r.Ok? ==> Seen(v.w.log) == Seen(s.w.log) && HoldsSts(v.w, r.value) && r.value == obj.(rv := r.value.rv))
  {
    hide Steady, Inv, HoldsSts, UpdateSts, Enter, LeftAlone, Finished, Seen;
    UpdateStsCases(s, cur, obj, Apply);
    var w, v := Enter(s).w, UpdateSts(s, obj, Apply).0.w;
    if v != w {
      assert StsEvents(w, cur, obj, Apply) == [MarkerCleared(EnableFeatureFlags, cur.annotations[CREATED_AT], cur.rv)];
      CreationCleared(w, obj);
      SteadyTransitive(s.w, w, v);
    }
  }

  predicate RestartGood(w: World, sts: Sts) {
    var prior, mark := Lookup(sts.podAnnotations, LAST_RESTART_AT), ConfMark(w);
    && mark.Some?
    && (prior.Some? && prior.value.Stamp? && mark.value.Stamp? ==> Seconds(prior.value.t) <= Seconds(mark.value.t))
  }

  // The restart of the StatefulSet as the server records it.
  function RestartEvent(w: World, t: Time): Event
    requires w.sts.Some?
  {
    Restarted(w.sts.value.uid, t, Lookup(w.sts.value.podAnnotations, LAST_RESTART_AT), ConfMark(w))
  }

  lemma RestartIsGood(w: World, t: Time)
    requires Inv(w) && w.sts.Some? && RestartGood(w, w.sts.value)
    requires AllBefore(w.log, t) && Seconds(t) <= Seconds(w.now)
    ensures GoodEvent(w.log, RestartEvent(w, t))
  {
    LastMarkLogged(w.log, t);
    LastRestartIsStamp(w.log, w.sts.value.uid);
    hide GoodLog, LastMark, LastRestart;
  }

  lemma RestartIsSound(w: World, t: Time)
    requires Inv(w) && w.sts.Some? && GoodEvent(w.log, RestartEvent(w, t)) && Seconds(t) <= Seconds(w.now)
    ensures var log := w.log + [RestartEvent(w, t)];
            GoodLog(log) && AllBefore(log, w.now) && OfCluster(log, w.cluster.name)
  {
    Appended(w.log, RestartEvent(w, t));
    hide GoodEvent;
  }

  // What the log tells after the restart.
  lemma RestartLogged(w: World, t: Time)
    requires w.sts.Some?
    ensures var uid, log := w.sts.value.uid, w.log + [RestartEvent(w, t)];
            && LastMark(log) == LastMark(w.log) && Clears(log) == Clears(w.log)
            && Marks(log, ServerMap) == Marks(w.log, ServerMap) && Marks(log, PluginsMap) == Marks(w.log, PluginsMap)
            && PluginLooks(log) == PluginLooks(w.log) && LastRestart(log, uid) == Some(Stamp(t))
            && forall other: nat :: other != uid ==> LastRestart(log, other) == LastRestart(w.log, other)
  {
    Appended(w.log, RestartEvent(w, t));
  }

  lemma RestartWritten(w: World, obj: Sts, t: Time)
    requires Inv(w) && w.sts.Some? && RestartGood(w, w.sts.value)
    requires obj == w.sts.value.(podAnnotations := w.sts.value.podAnnotations[LAST_RESTART_AT := Stamp(t)])
    requires AllBefore(w.log, t) && Seconds(t) <= Seconds(w.now)
    ensures var sts := obj.(rv := w.nextId); var e := RestartEvent(w, t);
            Steady(w, w.(sts := Some(sts), nextId := w.nextId + 1, log := w.log + [e]))
  {
    var e := RestartEvent(w, t);
    RestartIsGood(w, t);
    RestartIsSound(w, t);
    RestartLogged(w, t);
    var log := w.log + [e];
    hide GoodEvent;
    forall uid: nat | uid >= w.nextId ensures LastRestart(log, uid) == None {
      assert LastRestart(log, uid) == LastRestart(w.log, uid);
    }
    hide GoodLog, AllBefore, LastMark, LastRestart, GoodEvent, Clears, Marks, OfCluster, PluginLooks, RestartGood;
  }

  lemma CreateStsKeeps(s: Sys, obj: Sts)
    requires Inv(s.w) && Expanded(s.w, obj.replicas, Scaling.CapacityOf(obj)) && LAST_RESTART_AT !in obj.podAnnotations
    ensures var (v, r) := CreateSts(s, obj);
            && Kept(s.w, v.w) && Calm(s.w, v.w)
            && (v.w.sts.Some? ==>
                || Shaped(s.w, v.w)
                || (v.w.sts.value.replicas == obj.replicas && v.w.sts.value.template == obj.template
                    && v.w.sts.value.storage == obj.storage))
            && (r.Ok? ==> v.w.sts == Some(r.value))
  {
    EnterSteady(s);
    var w := Enter(s).w;
    var (v, r) := CreateSts(s, obj);
    var sts := obj.(uid := w.nextId, rv := w.nextId, terminating := false);
    assert v.w != w ==>
      w.sts.None? && v.w == w.(sts := Some(sts), nextId := w.nextId + 1, log := w.log + [StsCreated(sts, w.claims)]);
    assert r.Ok? ==> r.value == sts && v.w != w;
    assert Expanded(w, sts.replicas, Scaling.CapacityOf(sts));
    assert Inv(w) && Kept(s.w, w) && Calm(s.w, w) && Shaped(s.w, w);
    hide *;
    if v.w != w {
      StsIsCreated(w, sts);
      KeptTransitive(s.w, w, v.w);
      CalmTransitive(s.w, w, v.w);
    }
  }

  // The last event is a completed scaling for so many replicas, and what it
  // found is large enough.
  predicate Expanded(w: World, replicas: int, desired: int) {
    && w.log != [] && Last(w.log).Scaled? && Last(w.log).replicas == replicas && Last(w.log).desired == desired
    && forall name :: name in Last(w.log).found ==> name in w.claims && w.claims[name] >= desired
  }

  lemma StsIsCreated(w: World, sts: Sts)
    requires Inv(w) && w.sts.None? && Expanded(w, sts.replicas, Scaling.CapacityOf(sts))
    requires sts.uid == w.nextId && sts.rv == w.nextId && LAST_RESTART_AT !in sts.podAnnotations
    ensures var v := w.(sts := Some(sts), nextId := w.nextId + 1, log := w.log + [StsCreated(sts, w.claims)]);
            Kept(w, v) && Calm(w, v)
  {
    var w1 := w.(log := w.log + [StsCreated(sts, w.claims)]);
    Appended(w.log, StsCreated(sts, w.claims));
    NoteKeeps(w, StsCreated(sts, w.claims));
    hide GoodLog, AllBefore, LastMark;
  }

  // The store once the deletion of its StatefulSet is accepted.
  function Terminated(w: World, rmq: RabbitmqCluster, desired: int): World
    requires w.sts.Some?
  {
    var e := StsDeleteAccepted(w.sts.value.uid, rmq.name, rmq.spec.replicas, desired, w.claims);
    w.(sts := Some(w.sts.value.(terminating := true, rv := w.nextId)), nextId := w.nextId + 1, log := w.log + [e])
  }

  lemma DeleteStsSteady(s: Sys, rmq: RabbitmqCluster, desired: int)
    requires Inv(s.w) && ClaimBelow(rmq.name, rmq.spec.replicas, s.w.claims, desired) && rmq.name == s.w.cluster.name
    ensures var (v, r) := DeleteSts(s, rmq, desired);
            && Steady(s.w, v.w) && (forall n :: n in s.w.claims ==> v.w.claims[n] == s.w.claims[n])
            && (!Live(s.w) ==> v.w.claims == s.w.claims) && (r.Ok? ==> v.w.sts.Some? && v.w.sts.value.terminating)
  {
    EnterSteady(s);
    var w := Enter(s).w;
    var (v, r) := DeleteSts(s, rmq, desired);
    assert v.w != w ==> w.sts.Some? && v.w == Terminated(w, rmq, desired);
    assert r.Ok? ==> v.w != w;
    assert Inv(w) && Steady(s.w, w) && (!Live(s.w) ==> w.claims == s.w.claims) && w.cluster.name == rmq.name;
    assert ClaimBelow(rmq.name, rmq.spec.replicas, w.claims, desired) by {
      var i :| 0 <= i < rmq.spec.replicas && PVCName(rmq.name, i) in s.w.claims
        && s.w.claims[PVCName(rmq.name, i)] < desired;
      assert PVCName(rmq.name, i) in w.claims && w.claims[PVCName(rmq.name, i)] < desired;
    }
    hide *;
    if v.w != w {
      StsTerminates(w, rmq, desired);
      SteadyTransitive(s.w, w, v.w);
    }
  }

  lemma StsTerminates(w: World, rmq: RabbitmqCluster, desired: int)
    requires Inv(w) && w.sts.Some? && ClaimBelow(rmq.name, rmq.spec.replicas, w.claims, desired)
    requires rmq.name == w.cluster.name
    ensures Steady(w, Terminated(w, rmq, desired))
  {
    var e := StsDeleteAccepted(w.sts.value.uid, rmq.name, rmq.spec.replicas, desired, w.claims);
    Appended(w.log, e);
    NoteKeeps(w, e);
    hide GoodLog, AllBefore, LastMark, ClaimBelow;
  }

  /* ---- the claims ---- */

  lemma UpdateClaimSteady(s: Sys, name: string, capacity: int)
    requires Inv(s.w) && s.w.sts.None? && (name in s.w.claims ==> s.w.claims[name] < capacity)
    ensures var (v, r) := UpdateClaim(s, name, capacity);
            && Steady(s.w, v.w) && v.w.sts.None?
            && (v.w.claims == s.w.claims || (name in s.w.claims && v.w.claims == s.w.claims[name := capacity]))
            && (r.Ok? ==> name in s.w.claims && v.w.claims == s.w.claims[name := capacity])
  {
    EnterSteady(s);
    var w := Enter(s).w;
    var (v, r) := UpdateClaim(s, name, capacity);
    assert v.w == w || (name in w.claims &&
      v.w == w.(claims := w.claims[name := capacity],
        log := w.log + [ClaimResized(name, w.claims[name], capacity, false)]));
    assert r.Ok? ==> v.w != w;
    assert Inv(w) && w.claims == s.w.claims && w.sts.None? && Steady(s.w, w);
    hide *;
    if v.w != w {
      ClaimIsResized(w, name, capacity);
      SteadyTransitive(s.w, w, v.w);
    }
  }

  lemma ClaimIsResized(w: World, name: string, capacity: int)
    requires Inv(w) && w.sts.None? && name in w.claims && w.claims[name] < capacity
    ensures Steady(w, w.(claims := w.claims[name := capacity],
      log := w.log + [ClaimResized(name, w.claims[name], capacity, false)]))
  {
    var e := ClaimResized(name, w.claims[name], capacity, false);
    Appended(w.log, e);
    NoteKeeps(w, e);
    hide GoodLog, AllBefore, LastMark;
  }

  /* ---- the ConfigMaps ---- */

  predicate MapWritten(w: World, v: World, which: Which, m: StoredMap, log: seq<Event>) {
    v == WithMap(w, which, m.(rv := w.nextId)).(nextId := w.nextId + 1, log := log)
  }

  function OtherMap(which: Which): Which {
    if which == PluginsMap then ServerMap else PluginsMap
  }

  // Everything but this ConfigMap is as the builders left it.
  ghost predicate MapStep(w: World, v: World, which: Which) {
    && Kept(w, v) && Shaped(w, v) && v.others == w.others && SameObserved(w, v)
    && MapQuiet(w, v, OtherMap(which))
  }

  lemma MapStepTransitive(w: World, v: World, u: World, which: Which)
    requires Inv(w) && MapStep(w, v, which) && MapStep(v, u, which)
    ensures MapStep(w, u, which)
  {
    KeptTransitive(w, v, u);
  }

  lemma DataWritten(w: World, v: World, which: Which, obj: StoredMap)
    requires Inv(w) && MapWritten(w, v, which, obj, w.log)
    requires MapOf(w, which).Some? && obj.annotations == MapOf(w, which).value.annotations
    ensures MapStep(w, v, which)
  {
  }

  lemma UnmarkedMapIsCreated(w: World, v: World, which: Which, obj: StoredMap)
    requires Inv(w) && MapOf(w, which).None? && MarkerKey(which) !in obj.annotations
    requires SERVER_CONF_UPDATED_AT !in obj.annotations && MapWritten(w, v, which, obj, w.log)
    ensures MapStep(w, v, which)
  {
  }

  lemma MapIsCreated(w: World, v: World, which: Which, obj: StoredMap)
    requires Inv(w) && MapOf(w, which).None? && SERVER_CONF_UPDATED_AT !in obj.annotations
    requires MapWritten(w, v, which, obj, w.log + MapEvents(which, map[], 0, obj.annotations, Apply))
    ensures MapStep(w, v, which)
  {
    hide Inv, MapStep;
    var events := MapEvents(which, map[], 0, obj.annotations, Apply);
    if MarkerKey(which) !in obj.annotations {
      assert events == [] && w.log + [] == w.log;
      UnmarkedMapIsCreated(w, v, which, obj);
    } else {
      var e := PluginsMarked(obj.annotations[PLUGINS_UPDATED_AT]);
      assert which == PluginsMap && events == [e];
      PluginsMarkWritten(w, obj, e.value);
    }
  }

  lemma CreateMapKeeps(s: Sys, which: Which, data: Data, annotations: Annotations)
    requires Inv(s.w) && SERVER_CONF_UPDATED_AT !in annotations
    ensures var (v, r) := CreateMap(s, which, data, annotations);
            MapStep(s.w, v.w, which) && (r.Ok? ==> MapOf(v.w, which) == Some(r.value) && r.value.data == data)
  {
    EnterSteady(s);
    var w := Enter(s).w;
    var (v, r) := CreateMap(s, which, data, annotations);
    var m := StoredMap(w.nextId, data, annotations);
    assert v.w != w ==>
      && MapOf(w, which).None? && MapOf(v.w, which) == Some(m)
      && MapWritten(w, v.w, which, m, w.log + MapEvents(which, map[], 0, annotations, Apply));
    assert r.Ok? ==> r.value == m && v.w != w;
    assert Inv(w) && MapStep(s.w, w, which);
    hide *;
    if v.w != w {
      MapIsCreated(w, v.w, which, m);
      MapStepTransitive(s.w, w, v.w, which);
    }
  }

  lemma UpdateMapCases(s: Sys, which: Which, cur: StoredMap, obj: StoredMap, why: Purpose)
    requires Inv(s.w) && HoldsMap(s.w, which, cur) && obj.rv == cur.rv
    ensures var w := Enter(s).w; var (v, r) := UpdateMap(s, which, obj, why);
            && Steady(s.w, w) && Inv(w) && w.log == s.w.log && Seconds(s.w.now) <= Seconds(w.now)
            && (r.Ok? ==> v.w != w && r.value == obj.(rv := w.nextId)) && (r.Conflict? || r.NotFound? ==> v.w == w)
            && (v.w != w ==>
                && MapOf(w, which) == Some(cur) && MapOf(v.w, which) == Some(obj.(rv := w.nextId))
                && MapWritten(w, v.w, which, obj,
                     w.log + MapEvents(which, cur.annotations, cur.rv, obj.annotations, why)))
  {
    hide Inv, Steady, LeftAlone, Grows, Enter, MapEvents, Seconds;
    EnterBriefly(s);
    HoldsMapOn(s.w, Enter(s).w, which, cur);
  }

  lemma UpdateDataKeeps(s: Sys, which: Which, cur: StoredMap, data: Data)
    requires Inv(s.w) && HoldsMap(s.w, which, cur)
    ensures var (v, r) := UpdateMap(s, which, cur.(data := data), Apply);
            && MapStep(s.w, v.w, which) && v.w.log == s.w.log
            && (r.Ok? ==> MapOf(v.w, which) == Some(r.value) && r.value.data == data)
  {
    var obj := cur.(data := data);
    hide Inv, Steady, HoldsMap, UpdateMap, Enter, Seconds;
    UpdateMapCases(s, which, cur, obj, Apply);
    var w, v := Enter(s).w, UpdateMap(s, which, obj, Apply).0.w;
    SteadyIsMapStep(s.w, w, which);
    if v != w {
      assert MapEvents(which, cur.annotations, cur.rv, obj.annotations, Apply) == [];
      assert w.log + [] == w.log;
      DataWritten(w, v, which, obj);
      MapStepTransitive(s.w, w, v, which);
    }
  }

  lemma SteadyIsMapStep(w: World, v: World, which: Which)
    requires Steady(w, v)
    ensures MapStep(w, v, which) && SameData(MapOf(w, which), MapOf(v, which))
  {
  }

  predicate Marked(obj: StoredMap, cur: StoredMap, which: Which, t: Time) {
    obj == cur.(annotations := cur.annotations[MarkerKey(which) := Stamp(t)])
  }

  lemma ConfMarkWritten(w: World, obj: StoredMap, t: Time)
    requires Inv(w) && w.server.Some? && Marked(obj, w.server.value, ServerMap, t)
    requires AllBefore(w.log, t) && Seconds(t) <= Seconds(w.now)
    ensures var v := w.(server := Some(obj.(rv := w.nextId)), nextId := w.nextId + 1, log := w.log + [ConfMarked(t)]);
            MapStep(w, v, ServerMap)
  {
    var e := ConfMarked(t);
    Appended(w.log, e);
    var log := w.log + [e];
    assert GoodLog(log) && AllBefore(log, w.now) && OfCluster(log, w.cluster.name);
    assert LastMark(log) == Some(Stamp(t)) && Clears(log) == Clears(w.log);
    assert Marks(log, PluginsMap) == Marks(w.log, PluginsMap) && PluginLooks(log) == PluginLooks(w.log);
    forall uid: nat ensures LastRestart(log, uid) == LastRestart(w.log, uid) {}
    hide GoodLog, AllBefore, LastMark, LastRestart, Clears, Marks, OfCluster, PluginLooks;
  }

  lemma PluginsMarkWritten(w: World, obj: StoredMap, value: Value)
    requires Inv(w)
    ensures var v := w.(plugins := Some(obj.(rv := w.nextId)), nextId := w.nextId + 1,
      log := w.log + [PluginsMarked(value)]);
            MapStep(w, v, PluginsMap)
  {
    var e := PluginsMarked(value);
    Appended(w.log, e);
    NoteKeeps(w, e);
    assert Marks(w.log + [e], PluginsMap) == Marks(w.log, PluginsMap) + 1;
    assert Marks(w.log + [e], ServerMap) == Marks(w.log, ServerMap);
    hide GoodLog, AllBefore, LastMark, LastRestart, Marks, OfCluster, PluginLooks;
  }

  lemma UpdateMarkKeeps(s: Sys, which: Which, cur: StoredMap, obj: StoredMap, t: Time)
    requires Inv(s.w) && HoldsMap(s.w, which, cur) && Marked(obj, cur, which, t)
    requires AllBefore(s.w.log, t) && Seconds(t) <= Seconds(s.w.now)
    ensures var (v, r) := UpdateMap(s, which, obj, Mark);
            && MapStep(s.w, v.w, which) && SameData(MapOf(s.w, which), MapOf(v.w, which))
            && (r.Conflict? || r.NotFound? ==> v.w.log == s.w.log)
            && (r.Ok? ==> Marks(s.w.log, which) < Marks(v.w.log, which))
  {
    hide Inv, Steady, HoldsMap, UpdateMap, Enter, Seconds, AllBefore;
    UpdateMapCases(s, which, cur, obj, Mark);
    var w, v := Enter(s).w, UpdateMap(s, which, obj, Mark).0.w;
    SteadyIsMapStep(s.w, w, which);
    if v != w {
      assert MapEvents(which, cur.annotations, cur.rv, obj.annotations, Mark) == [MarkerSet(which, Stamp(t))];
      Appended(w.log, MarkerSet(which, Stamp(t)));
      if which == ServerMap { ConfMarkWritten(w, obj, t); } else { PluginsMarkWritten(w, obj, Stamp(t)); }
      MapStepTransitive(s.w, w, v, which);
      SameDataTransitive(MapOf(s.w, which), MapOf(w, which), MapOf(v, which));
    }
  }

  lemma SameDataTransitive(a: Option<StoredMap>, b: Option<StoredMap>, c: Option<StoredMap>)
    requires SameData(a, b) && SameData(b, c)
    ensures SameData(a, c)
  {
  }

  lemma AnnotationsOnly(w: World, v: World)
    requires Inv(w) && w.plugins.Some? && v.plugins.Some?
    requires MapWritten(w, v, PluginsMap, v.plugins.value, w.log) && v.plugins.value.data == w.plugins.value.data
    requires PluginsPending(v) ==> PluginsPending(w)
    ensures Steady(w, v)
  {
  }

  lemma ClearPluginsSteady(s: Sys, cur: StoredMap, obj: StoredMap)
    requires Inv(s.w) && HoldsMap(s.w, PluginsMap, cur)
    requires obj == cur.(annotations := cur.annotations - {PLUGINS_UPDATED_AT})
    requires PLUGINS_UPDATED_AT in cur.annotations
    requires Finished(s.w.log, SetPlugins, cur.annotations[PLUGINS_UPDATED_AT], cur.rv)
    ensures var (v, r) := UpdateMap(s, PluginsMap, obj, Apply);
            && Steady(s.w, v.w)
            && (r.Ok? ==>
                && Seen(v.w.log) == Seen(s.w.log) && HoldsMap(v.w, PluginsMap, r.value)
                && r.value == obj.(rv := r.value.rv)
                && v.w.plugins == Some(r.value))
  {
    hide Inv, Steady, UpdateMap, Enter, Seconds, Finished, Seen, Clears;
    UpdateMapCases(s, PluginsMap, cur, obj, Apply);
    var w, v := Enter(s).w, UpdateMap(s, PluginsMap, obj, Apply).0.w;
    if v != w {
      var e := MarkerCleared(SetPlugins, cur.annotations[PLUGINS_UPDATED_AT], cur.rv);
      assert MapEvents(PluginsMap, cur.annotations, cur.rv, obj.annotations, Apply) == [e];
      var w1 := w.(log := w.log + [e]);
      ClearKeeps(w, SetPlugins, e.value, e.version);
      AnnotationsOnly(w1, v);
      SteadyTransitive(w, w1, v);
      SteadyTransitive(s.w, w, v);
    }
  }

  /* ---- the other children, and commands ---- */

  ghost predicate OtherStep(w: World, v: World, kind: Kind) {
    && Kept(w, v) && Calm(w.(others := v.others), v) && Shaped(w, v)
    && forall k :: k != kind && k in w.others ==> k in v.others && v.others[k] == w.others[k]
  }

  lemma OtherIsWritten(w: World, kind: Kind, spec: ClusterSpec)
    requires Inv(w)
    ensures OtherStep(w, w.(others := w.others[kind := spec]), kind)
  {
  }

  lemma OtherStepTransitive(w: World, v: World, u: World, kind: Kind)
    requires Inv(w) && OtherStep(w, v, kind) && OtherStep(v, u, kind)
    ensures OtherStep(w, u, kind)
  {
    KeptTransitive(w, v, u);
    hide Kept, Inv;
  }

  lemma SteadyIsOtherStep(w: World, v: World, kind: Kind)
    requires Steady(w, v)
    ensures OtherStep(w, v, kind)
  {
    hide Kept;
  }

  lemma WriteOtherKeeps(s: Sys, kind: Kind, spec: ClusterSpec)
    requires Inv(s.w)
    ensures var (v, r) := WriteOther(s, kind, spec);
            OtherStep(s.w, v.w, kind) && (r.Ok? ==> kind in v.w.others && v.w.others[kind] == spec)
  {
    hide Inv, Steady, LeftAlone, Grows, Enter, OtherStep;
    EnterBriefly(s);
    var w := Enter(s).w;
    SteadyIsOtherStep(s.w, w, kind);
    OtherIsWritten(w, kind, spec);
    OtherStepTransitive(s.w, w, w.(others := w.others[kind := spec]), kind);
  }

  lemma ExecSteady(s: Sys, cmd: Command, pod: int)
    requires Inv(s.w) && Due(s.w.log, cmd) && 0 <= pod < PodsOf(cmd, Seen(s.w.log).value)
    ensures var (v, ok) := Exec(s, cmd, pod);
            Steady(s.w, v.w) && v.w.log == s.w.log + [Executed(cmd, pod, ok)] && Seen(v.w.log) == Seen(s.w.log)
  {
    EnterSteady(s);
    var (v, ok) := Exec(s, cmd, pod);
    var w := Enter(s).w;
    var e := Executed(cmd, pod, ok);
    Appended(w.log, e);
    NoteKeeps(w, e);
    assert Steady(w, v.w);
    SteadyTransitive(s.w, w, v.w);
  }
}
