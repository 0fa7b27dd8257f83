// What every call and every step of the others keeps, and what a store must
// satisfy for it to be kept.
module Invariants {
  import opened Text
  import opened Rfc3339
  import opened Spec
  import opened ApiServer
  import opened Controllers
  import Scaling

  /* ---- reading the audit log ---- */

  function Init(log: seq<Event>): seq<Event>
    requires log != []
  {
    log[..|log| - 1]
  }

  function Last(log: seq<Event>): Event
    requires log != []
  {
    log[|log| - 1]
  }

  // The marker of the last change of the server configuration.
  function LastMark(log: seq<Event>): Option<Value> {
    if log == [] then None
    else if Last(log).ConfMarked? then Some(Stamp(Last(log).t))
    else LastMark(Init(log))
  }

  // The marker of the last restart of this StatefulSet.
  function LastRestart(log: seq<Event>, uid: nat): Option<Value> {
    if log == [] then None
    else if Last(log).Restarted? && Last(log).uid == uid then Some(Stamp(Last(log).t))
    else LastRestart(Init(log), uid)
  }

  predicate IsMark(e: Event, which: Which) {
    if which == PluginsMap then e.PluginsMarked? else e.ConfMarked?
  }

  // How often the marker of this ConfigMap was written ...
  function Marks(log: seq<Event>, which: Which): nat {
    if log == [] then 0 else Marks(Init(log), which) + if IsMark(Last(log), which) then 1 else 0
  }

  // ... how often the creation marker was removed ...
  function Clears(log: seq<Event>): nat {
    if log == [] then 0
    else Clears(Init(log)) + if Last(log).MarkerCleared? && Last(log).cmd == EnableFeatureFlags then 1 else 0
  }

  // ... and how often a pass went on to run commands with plugins to set.
  function PluginLooks(log: seq<Event>): nat {
    if log == [] then 0
    else PluginLooks(Init(log)) + if Last(log).Looked? && MarkerOf(SetPlugins, Last(log).look).Some? then 1 else 0
  }

  /* ---- the look before the commands ---- */

  function Found(a: Annotations, key: string): Option<Value> {
    if Pending(a, key) then Some(a[key]) else None
  }

  // The pending marker a command answers to, the version of the object that
  // carries it, and on how many pods the command is to run.
  function MarkerOf(cmd: Command, look: Look): Option<Value> {
    match cmd
    case SetPlugins => Found(look.plugins.annotations, PLUGINS_UPDATED_AT)
    case EnableFeatureFlags => Found(look.sts.annotations, CREATED_AT)
    case RebalanceQueues => Found(look.rmq.annotations, QUEUE_REBALANCE_NEEDED_AT)
  }

  function VersionOf(cmd: Command, look: Look): nat {
    match cmd
    case SetPlugins => look.plugins.rv
    case EnableFeatureFlags => look.sts.rv
    case RebalanceQueues => look.rmq.rv
  }

  function PodsOf(cmd: Command, look: Look): int {
    if cmd == SetPlugins then look.sts.replicas else 1
  }

  // The look the log ends in, if only commands and the removal of their
  // markers followed it.
  function Seen(log: seq<Event>): Option<Look> {
    if log == [] then None
    else if Last(log).Looked? then Some(Last(log).look)
    else if Last(log).Executed? || Last(log).MarkerCleared? then Seen(Init(log))
    else None
  }

  // A command is due: its marker was pending in that look, and all replicas
  // were ready on one revision.
  predicate Due(log: seq<Event>, cmd: Command) {
    Seen(log).Some? && ReadyAndUpdated(Seen(log).value.sts) && MarkerOf(cmd, Seen(log).value).Some?
  }

  predicate Timed(e: Event) {
    e.Restarted? || e.ConfMarked?
  }

  ghost predicate AllBefore(log: seq<Event>, t: Time) {
    forall k :: 0 <= k < |log| && Timed(log[k]) ==> Seconds(log[k].t) <= Seconds(t)
  }

  // The log ends in successful runs of the command on pods 0 .. n-1.
  predicate RanOnPods(log: seq<Event>, cmd: Command, n: int)
    decreases n
  {
    n <= 0 || (log != [] && Last(log) == Executed(cmd, n - 1, true) && RanOnPods(Init(log), cmd, n - 1))
  }

  predicate ClaimBelow(cluster: string, replicas: int, claims: map<string, int>, desired: int) {
    exists i :: 0 <= i < replicas && PVCName(cluster, i) in claims && claims[PVCName(cluster, i)] < desired
  }

  // What each event says given the log before it.
  ghost predicate GoodEvent(log: seq<Event>, e: Event) {
    match e
    case ClaimResized(_, before, after, stsPresent) => !stsPresent && before < after
    case StsDeleteAccepted(_, cluster, replicas, desired, claims) => ClaimBelow(cluster, replicas, claims, desired)
    case Scaled(cluster, replicas, _, present, found) =>
      forall i :: 0 <= i < replicas && PVCName(cluster, i) in present ==> PVCName(cluster, i) in found
    case StsCreated(sts, claims) =>
      && log != [] && Last(log).Scaled? && Last(log).desired == Scaling.CapacityOf(sts)
      && Last(log).replicas == sts.replicas
      && forall name :: name in Last(log).found ==> name in claims && claims[name] >= Last(log).desired
    case Restarted(uid, t, prior, mark) =>
      && AllBefore(log, t) && prior == LastRestart(log, uid) && mark == LastMark(log)
      && mark.Some? && mark.value.Stamp? && Seconds(mark.value.t) <= Seconds(t)
      && (prior.Some? ==> prior.value.Stamp? && Seconds(prior.value.t) <= Seconds(mark.value.t))
    case ConfMarked(t) => AllBefore(log, t)
    case Garbled => false
    case Executed(cmd, pod, _) => Due(log, cmd) && 0 <= pod < PodsOf(cmd, Seen(log).value)
    case MarkerCleared(cmd, value, version) =>
      && Due(log, cmd) && RanOnPods(log, cmd, PodsOf(cmd, Seen(log).value))
      && MarkerOf(cmd, Seen(log).value) == Some(value) && VersionOf(cmd, Seen(log).value) == version
    case _ => true
  }

  ghost predicate GoodLog(log: seq<Event>) {
    log == [] || (GoodLog(Init(log)) && GoodEvent(Init(log), Last(log)))
  }

  lemma {:induction false} GoodAt(log: seq<Event>, k: nat)
    requires GoodLog(log) && k < |log|
    ensures GoodEvent(log[..k], log[k]) && GoodLog(log[..k])
  {
    if k < |log| - 1 {
      GoodAt(Init(log), k);
      assert Init(log)[..k] == log[..k];
    }
  }

  lemma Appended(log: seq<Event>, e: Event)
    ensures Init(log + [e]) == log && Last(log + [e]) == e
  {
  }

  /* ---- growth: the relation between a store and every later one ---- */

  predicate StsContinues(w: World, v: World) {
    v.sts.Some? ==>
      || (w.sts.Some? && v.sts.value.uid == w.sts.value.uid && w.sts.value.replicas <= v.sts.value.replicas
          && (w.sts.value.terminating ==> v.sts.value.terminating))
      || v.sts.value.uid >= w.nextId
  }

  predicate MapContinues(a: Option<StoredMap>, b: Option<StoredMap>, bound: nat) {
    a.Some? ==> b.Some? && (b == a || b.value.rv >= bound)
  }

  // Versions are never reused: an object with an old version is the old object.
  predicate VersionsTell(w: World, v: World) {
    && (v.cluster == w.cluster || v.cluster.rv >= w.nextId)
    && (v.sts.Some? ==> v.sts == w.sts || v.sts.value.rv >= w.nextId)
    && MapContinues(w.plugins, v.plugins, w.nextId)
    && MapContinues(w.server, v.server, w.nextId)
  }

  predicate ClaimsGrow(a: map<string, int>, b: map<string, int>) {
    forall n :: n in a ==> n in b && a[n] <= b[n]
  }

  // A creation marker does not disappear but by a recorded removal.
  predicate MarkerStays(w: World, v: World) {
    w.sts.Some? && v.sts.Some? && w.sts.value.uid == v.sts.value.uid
    && CREATED_AT in w.sts.value.annotations && CREATED_AT !in v.sts.value.annotations
    ==> Clears(w.log) < Clears(v.log)
  }

  predicate PluginsPending(w: World) {
    w.plugins.Some? && Pending(w.plugins.value.annotations, PLUGINS_UPDATED_AT)
  }

  // As long as nobody writes the plugins marker none comes to be pending, and
  // no pass finds plugins to set.
  predicate PluginsIdle(w: World, v: World) {
    && w.rewrites <= v.rewrites && Marks(w.log, PluginsMap) <= Marks(v.log, PluginsMap)
    && (w.rewrites == v.rewrites && Marks(w.log, PluginsMap) == Marks(v.log, PluginsMap) && !PluginsPending(w)
        ==> !PluginsPending(v) && PluginLooks(w.log) == PluginLooks(v.log))
  }

  ghost predicate Grows(w: World, v: World) {
    && w.nextId <= v.nextId && Seconds(w.now) <= Seconds(v.now) && w.zone == v.zone
    && w.cluster.name == v.cluster.name && w.cluster.generation <= v.cluster.generation
    && w.log <= v.log && Clears(w.log) <= Clears(v.log) && MarkerStays(w, v) && PluginsIdle(w, v)
    && ClaimsGrow(w.claims, v.claims) && StsContinues(w, v) && VersionsTell(w, v)
  }

  // Versions and uids in use were handed out.
  predicate Numbered(w: World) {
    && w.cluster.rv < w.nextId
    && (w.sts.Some? ==> w.sts.value.rv < w.nextId && w.sts.value.uid < w.nextId)
    && (w.plugins.Some? ==> w.plugins.value.rv < w.nextId)
    && (w.server.Some? ==> w.server.value.rv < w.nextId)
  }

  lemma GrowsReflexive(w: World)
    ensures Grows(w, w)
  {
  }

  lemma GrowsTransitive(w: World, v: World, u: World)
    requires Numbered(w) && Grows(w, v) && Grows(v, u)
    ensures Grows(w, u)
  {
  }

  /* ---- the invariant ---- */

  // The specification and annotations of a cluster leave the operator's
  // restart annotations alone.
  predicate Proper(c: RabbitmqCluster) {
    LAST_RESTART_AT !in c.spec.podAnnotations && SERVER_CONF_UPDATED_AT !in c.annotations
  }

  // Deletions and scalings were on behalf of this cluster.
  ghost predicate OfCluster(log: seq<Event>, name: string) {
    forall k :: 0 <= k < |log| && (log[k].StsDeleteAccepted? || log[k].Scaled?) ==> log[k].cluster == name
  }

  ghost predicate Inv(w: World) {
    && Numbered(w) && Proper(w.cluster)
    && GoodLog(w.log) && AllBefore(w.log, w.now) && OfCluster(w.log, w.cluster.name)
    && ConfMark(w) == LastMark(w.log)
    && (w.sts.Some? ==> Lookup(w.sts.value.podAnnotations, LAST_RESTART_AT) == LastRestart(w.log, w.sts.value.uid))
    && (forall uid :: uid >= w.nextId ==> LastRestart(w.log, uid) == None)
  }

  /* ---- what the others keep ---- */

  predicate Live(w: World) {
    w.sts.Some? && !w.sts.value.terminating
  }

  // Apart from readiness, revisions and versions the StatefulSet is as it was,
  // unless it has been reaped.
  predicate StsLeft(w: World, v: World) {
    && (v.sts.Some? ==> w.sts.Some? && v.sts.value == w.sts.value.(rv := v.sts.value.rv, ready := v.sts.value.ready,
        currentRevision := v.sts.value.currentRevision, updateRevision := v.sts.value.updateRevision,
        terminating := v.sts.value.terminating))
    && (v.sts.Some? && w.sts.value.terminating ==> v.sts.value.terminating)
  }

  ghost predicate LeftAlone(w: World, v: World) {
    && Grows(w, v) && Numbered(v) && Proper(v.cluster)
    && v.log == w.log && v.others == w.others && v.cluster.status == w.cluster.status && StsLeft(w, v)
    && (w.server.Some? <==> v.server.Some?)
    && (w.server.Some? ==> v.server.value == w.server.value.(rv := v.server.value.rv))
    && (w.plugins.Some? <==> v.plugins.Some?) && (w.plugins.Some? ==> v.plugins.value.data == w.plugins.value.data)
    && (forall n :: n in w.claims ==> v.claims[n] == w.claims[n])
    && (!Live(w) ==> v.claims == w.claims)
  }

  // The ways in which others write an object.
  lemma ClusterEdited(w: World, c: RabbitmqCluster)
    requires Numbered(w) && Proper(c) && c.rv == w.nextId && c.name == w.cluster.name && c.status == w.cluster.status
    requires w.cluster.generation <= c.generation
    ensures LeftAlone(w, w.(cluster := c, nextId := w.nextId + 1))
  {
    hide Seconds, Pending, Clears, Marks, PluginLooks;
  }

  lemma StsReported(w: World, sts: Sts)
    requires Numbered(w) && Proper(w.cluster) && w.sts.Some? && (w.sts.value.terminating ==> sts.terminating)
    requires sts == w.sts.value.(rv := w.nextId, ready := sts.ready, currentRevision := sts.currentRevision,
      updateRevision := sts.updateRevision, terminating := sts.terminating)
    ensures LeftAlone(w, w.(sts := Some(sts), nextId := w.nextId + 1))
  {
    hide Seconds, Pending, Clears, Marks, PluginLooks;
  }

  lemma PluginsRewritten(w: World, a: Annotations)
    requires Numbered(w) && Proper(w.cluster) && w.plugins.Some?
    ensures var m := w.plugins.value.(annotations := a, rv := w.nextId);
            LeftAlone(w, w.(plugins := Some(m), nextId := w.nextId + 1, rewrites := w.rewrites + 1))
  {
    hide Seconds, Pending, Clears, Marks, PluginLooks;
  }

  lemma ServerTouched(w: World)
    requires Numbered(w) && Proper(w.cluster) && w.server.Some?
    ensures LeftAlone(w, w.(server := Some(w.server.value.(rv := w.nextId)), nextId := w.nextId + 1))
  {
    hide Seconds, Pending, Clears, Marks, PluginLooks;
  }

  lemma NothingDone(w: World)
    requires Numbered(w) && Proper(w.cluster)
    ensures LeftAlone(w, w)
  {
  }

  lemma UsersLeaveAlone(w: World, e: EnvStep)
    requires Numbered(w) && Proper(w.cluster) && (e.EditSpec? || e.Annotate? || e.Pause?)
    ensures LeftAlone(w, Acted(w, e))
  {
    hide LeftAlone, Numbered;
    NothingDone(w);
    if Acted(w, e) != w { ClusterEdited(w, Acted(w, e).cluster); }
  }

  lemma StatusReportLeavesAlone(w: World, e: EnvStep)
    requires Numbered(w) && Proper(w.cluster) && (e.ReportStatus? || e.DeleteStatefulSet?)
    ensures LeftAlone(w, Acted(w, e))
  {
    hide LeftAlone, Numbered, Proper;
    if w.sts.Some? { StsReported(w, Acted(w, e).sts.value); } else { NothingDone(w); }
  }

  lemma VolumesLeaveAlone(w: World, e: EnvStep)
    requires Numbered(w) && Proper(w.cluster) && e.ClaimVolume?
    ensures LeftAlone(w, Acted(w, e))
  {
    hide Pending, PVCName, Seconds, Clears, Marks, PluginLooks;
  }

  lemma ReapingLeavesAlone(w: World, e: EnvStep)
    requires Numbered(w) && Proper(w.cluster) && e.Reap?
    ensures LeftAlone(w, Acted(w, e))
  {
    hide Pending, Seconds, Clears, Marks, PluginLooks;
  }

  lemma OthersLeaveAlone(w: World, e: EnvStep)
    requires Numbered(w) && Proper(w.cluster) && (e.RewritePluginsMarkers? || e.TouchServerMap?)
    ensures LeftAlone(w, Acted(w, e))
  {
    hide LeftAlone, Numbered, Proper;
    if e.RewritePluginsMarkers? && w.plugins.Some? {
      PluginsRewritten(w, e.annotations);
    } else if e.TouchServerMap? && w.server.Some? {
      ServerTouched(w);
    } else {
      NothingDone(w);
    }
  }

  lemma TimePasses(w: World, e: EnvStep)
    requires Numbered(w) && Proper(w.cluster) && (e.Tick? || e.SetSecrets? || e.SetEndpoints?)
    ensures LeftAlone(w, Acted(w, e))
  {
    hide Seconds, Pending, Clears, Marks, PluginLooks;
    GrowsReflexive(w);
  }

  lemma ActedLeavesAlone(w: World, e: EnvStep)
    requires Numbered(w) && Proper(w.cluster)
    ensures LeftAlone(w, Acted(w, e))
  {
    hide LeftAlone, Acted;
    if e.EditSpec? || e.Annotate? || e.Pause? {
      UsersLeaveAlone(w, e);
    } else if e.ReportStatus? || e.DeleteStatefulSet? {
      StatusReportLeavesAlone(w, e);
    } else if e.ClaimVolume? {
      VolumesLeaveAlone(w, e);
    } else if e.Reap? {
      ReapingLeavesAlone(w, e);
    } else if e.RewritePluginsMarkers? || e.TouchServerMap? {
      OthersLeaveAlone(w, e);
    } else {
      TimePasses(w, e);
    }
  }

  lemma LeftAloneTransitive(w: World, v: World, u: World)
    requires Numbered(w) && LeftAlone(w, v) && LeftAlone(v, u)
    ensures LeftAlone(w, u)
  {
    GrowsTransitive(w, v, u);
  }

  lemma {:induction false} EnvLeavesAlone(w: World, es: seq<EnvStep>)
    requires Numbered(w) && Proper(w.cluster)
    ensures LeftAlone(w, ActedAll(w, es))
    decreases |es|
  {
    if es != [] {
      ActedLeavesAlone(w, es[0]);
      EnvLeavesAlone(Acted(w, es[0]), es[1..]);
      LeftAloneTransitive(w, Acted(w, es[0]), ActedAll(w, es));
    }
  }

  lemma LeftAloneKeepsInv(w: World, v: World)
    requires Inv(w) && LeftAlone(w, v)
    ensures Inv(v)
  {
  }

  // Entering a call lets the others act and nothing else.
  lemma EnterKeeps(s: Sys)
    requires Inv(s.w)
    ensures LeftAlone(s.w, Enter(s).w) && Inv(Enter(s).w)
  {
    EnvLeavesAlone(s.w, if s.turns == [] then [] else s.turns[0].env);
    LeftAloneKeepsInv(s.w, Enter(s).w);
  }

  /* ---- what a call keeps ---- */

  ghost predicate Kept(w: World, v: World) {
    Inv(v) && Grows(w, v)
  }

  lemma KeptTransitive(w: World, v: World, u: World)
    requires Inv(w) && Kept(w, v) && Kept(v, u)
    ensures Kept(w, u)
  {
    GrowsTransitive(w, v, u);
  }

  lemma {:induction false} LastMarkLogged(log: seq<Event>, t: Time)
    requires AllBefore(log, t)
    ensures LastMark(log).Some? ==> LastMark(log).value.Stamp? && Seconds(LastMark(log).value.t) <= Seconds(t)
  {
    if log != [] && !Last(log).ConfMarked? { LastMarkLogged(Init(log), t); }
  }

  lemma {:induction false} LastRestartIsStamp(log: seq<Event>, uid: nat)
    ensures LastRestart(log, uid).Some? ==> LastRestart(log, uid).value.Stamp?
  {
    if log != [] { LastRestartIsStamp(Init(log), uid); }
  }

  // Recording an event that is neither a restart nor a configuration mark.
  lemma NoteKeeps(w: World, e: Event)
    requires Inv(w) && GoodEvent(w.log, e) && !Timed(e)
    requires e.StsDeleteAccepted? || e.Scaled? ==> e.cluster == w.cluster.name
    requires e.Looked? && MarkerOf(SetPlugins, e.look).Some? ==> PluginsPending(w)
    ensures Kept(w, w.(log := w.log + [e]))
  {
    Appended(w.log, e);
    hide GoodEvent;
    forall uid: nat ensures LastRestart(w.log + [e], uid) == LastRestart(w.log, uid) {}
  }
}
