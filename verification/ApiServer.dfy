// The API server as the operator uses it: a store of objects guarded by
// resource versions, other actors who write to it between any two calls, and
// calls that may fail before or after they take effect.
module ApiServer {
  import opened Text
  import opened Rfc3339
  import opened Spec
  import opened ConfigMaps

  const LAST_RESTART_AT := "rabbitmq.com/lastRestartAt"
  const SERVER_CONF_UPDATED_AT := "rabbitmq.com/serverConfUpdatedAt"
  const PLUGINS_UPDATED_AT := "rabbitmq.com/pluginsUpdatedAt"
  const CREATED_AT := "rabbitmq.com/createdAt"
  const QUEUE_REBALANCE_NEEDED_AT := "rabbitmq.com/queueRebalanceNeededAt"

  // `template` is the specification the pod template was generated from;
  // `storage` is the capacity of the "persistence" claim template, if any.
  datatype Sts = Sts(
    uid: nat, rv: nat, terminating: bool,
    replicas: int, storage: Option<int>, annotations: Annotations, podAnnotations: Annotations, template: ClusterSpec,
    ready: int, currentRevision: nat, updateRevision: nat)

  datatype StoredMap = StoredMap(rv: nat, data: Data, annotations: Annotations)

  datatype Which = PluginsMap | ServerMap

  // The children whose content is generated afresh from the specification.
  datatype Kind =
    | HeadlessService | ClientService | ErlangCookie | DefaultUserSecret
    | ServiceAccount | Role | RoleBinding

  datatype Command = SetPlugins | EnableFeatureFlags | RebalanceQueues

  // The copies a pass acts on while it runs commands.
  datatype Look = Look(rmq: RabbitmqCluster, sts: Sts, plugins: StoredMap)

  // The audit log. The server appends what it saw when it acted; the operator
  // records when a pass begins, when a call of Scale is done, and on which
  // copies it goes on to run commands.
  datatype Event =
    | PassBegan(spec: ClusterSpec)
    | ClaimResized(name: string, before: int, after: int, stsPresent: bool)
    | StsDeleteAccepted(uid: nat, cluster: string, replicas: int, desired: int, claims: map<string, int>)
    | Scaled(cluster: string, replicas: int, desired: int, present: map<string, int>, found: seq<string>)
    | StsCreated(sts: Sts, claims: map<string, int>)
    | Restarted(uid: nat, t: Time, prior: Option<Value>, mark: Option<Value>)
    | ConfMarked(t: Time)
    | PluginsMarked(value: Value)
    | Garbled // one of the operator's two restart annotations set to no time
    | Looked(look: Look)
    | Executed(cmd: Command, pod: int, ok: bool)
    | MarkerCleared(cmd: Command, value: Value, version: nat)

  // `rewrites` counts how often others rewrote the plugins annotations.
  datatype World = World(
    now: Time, zone: string, nextId: nat,
    cluster: RabbitmqCluster, sts: Option<Sts>, claims: map<string, int>,
    plugins: Option<StoredMap>, server: Option<StoredMap>, others: map<Kind, ClusterSpec>,
    secrets: map<string, set<string>>, endpoints: Option<seq<nat>>,
    rewrites: nat, log: seq<Event>)

  function Lookup(a: Annotations, key: string): Option<Value> {
    if key in a then Some(a[key]) else None
  }

  /* ---- the other actors ---- */

  datatype EnvStep =
    | Tick(t: Time)                                     // the clock
    | EditSpec(spec: ClusterSpec)                       // users
    | Annotate(annotations: Annotations)
    | Pause(paused: bool)
    | DeleteStatefulSet
    | ReportStatus(ready: int, current: nat, update: nat) // the StatefulSet controller
    | ClaimVolume(i: nat)
    | Reap                                              // the garbage collector
    | RewritePluginsMarkers(annotations: Annotations)   // anyone else
    | TouchServerMap
    | SetSecrets(secrets: map<string, set<string>>)
    | SetEndpoints(endpoints: Option<seq<nat>>)

  // Users leave the two restart annotations to the operator.
  predicate Admissible(e: EnvStep) {
    && (e.EditSpec? ==> LAST_RESTART_AT !in e.spec.podAnnotations)
    && (e.Annotate? ==> SERVER_CONF_UPDATED_AT !in e.annotations)
  }

  // The StatefulSet controller claims a volume for replica i.
  predicate Claiming(w: World, i: nat) {
    w.sts.Some? && !w.sts.value.terminating && w.sts.value.storage.Some? && i < w.sts.value.replicas
  }

  function Acted(w: World, e: EnvStep): World {
    if !Admissible(e) then w
    else match e
      case Tick(t) => if Seconds(w.now) <= Seconds(t) then w.(now := t) else w
      case EditSpec(spec) =>
        w.(cluster := w.cluster.(spec := spec, generation := w.cluster.generation + 1, rv := w.nextId),
          nextId := w.nextId + 1)
      case Annotate(a) => w.(cluster := w.cluster.(annotations := a, rv := w.nextId), nextId := w.nextId + 1)
      case Pause(p) => w.(cluster := w.cluster.(paused := p, rv := w.nextId), nextId := w.nextId + 1)
      case DeleteStatefulSet =>
        if w.sts.None? then w
        else w.(sts := Some(w.sts.value.(terminating := true, rv := w.nextId)), nextId := w.nextId + 1)
      case ReportStatus(ready, current, update) =>
        if w.sts.None? then w
        else
          var sts := w.sts.value.(ready := ready, currentRevision := current, updateRevision := update, rv := w.nextId);
          w.(sts := Some(sts), nextId := w.nextId + 1)
      case ClaimVolume(i) =>
        var name := PVCName(w.cluster.name, i);
        if !Claiming(w, i) || name in w.claims then w else w.(claims := w.claims[name := w.sts.value.storage.value])
      case Reap => if w.sts.Some? && w.sts.value.terminating then w.(sts := None) else w
      case RewritePluginsMarkers(a) =>
        if w.plugins.None? then w
        else
          var m := w.plugins.value.(annotations := a, rv := w.nextId);
          w.(plugins := Some(m), nextId := w.nextId + 1, rewrites := w.rewrites + 1)
      case TouchServerMap =>
        if w.server.None? then w else w.(server := Some(w.server.value.(rv := w.nextId)), nextId := w.nextId + 1)
      case SetSecrets(m) => w.(secrets := m)
      case SetEndpoints(ep) => w.(endpoints := ep)
  }

  function ActedAll(w: World, es: seq<EnvStep>): World
    decreases |es|
  {
    if es == [] then w else ActedAll(Acted(w, es[0]), es[1..])
  }

  /* ---- calls ---- */

  datatype Fate = Delivered | ReplyLost | Refused

  // What happens at one call: first others act, then the call meets its fate.
  datatype Turn = Turn(env: seq<EnvStep>, fate: Fate)

  // The store and what is still to happen at the calls to come. When no turn
  // is left the operator has stopped: nothing it tries has any effect.
  datatype Sys = Sys(w: World, turns: seq<Turn>)

  datatype Reply<+T> = Ok(value: T) | NotFound | Conflict | Failed

  function Enter(s: Sys): Sys {
    if s.turns == [] then s else Sys(ActedAll(s.w, s.turns[0].env), s.turns[1..])
  }

  function FateOf(s: Sys): Fate {
    if s.turns == [] then Refused else s.turns[0].fate
  }

  function Answer<T>(f: Fate, value: T): Reply<T> {
    if f == Delivered then Ok(value) else Failed
  }

  function Note(s: Sys, e: Event): Sys {
    s.(w := s.w.(log := s.w.log + [e]))
  }

  function Found<T>(f: Fate, stored: Option<T>): Reply<T> {
    if f != Delivered then Failed else if stored.None? then NotFound else Ok(stored.value)
  }

  function ReadCluster(s: Sys): (Sys, Reply<RabbitmqCluster>) {
    (Enter(s), Answer(FateOf(s), Enter(s).w.cluster))
  }

  function ReadSts(s: Sys): (Sys, Reply<Sts>) {
    (Enter(s), Found(FateOf(s), Enter(s).w.sts))
  }

  function MapOf(w: World, which: Which): Option<StoredMap> {
    if which == PluginsMap then w.plugins else w.server
  }

  function WithMap(w: World, which: Which, m: StoredMap): World {
    if which == PluginsMap then w.(plugins := Some(m)) else w.(server := Some(m))
  }

  function ReadMap(s: Sys, which: Which): (Sys, Reply<StoredMap>) {
    (Enter(s), Found(FateOf(s), MapOf(Enter(s).w, which)))
  }

  function ReadEndpoints(s: Sys): (Sys, Reply<seq<nat>>) {
    (Enter(s), Found(FateOf(s), Enter(s).w.endpoints))
  }

  function ReadSecret(s: Sys, name: string): (Sys, Reply<set<string>>) {
    var e := Enter(s);
    (e, Found(FateOf(s), if name in e.w.secrets then Some(e.w.secrets[name]) else None))
  }

  function ReadClaim(s: Sys, name: string): (Sys, Reply<int>) {
    var e := Enter(s);
    (e, Found(FateOf(s), if name in e.w.claims then Some(e.w.claims[name]) else None))
  }

  // The claims have no other writer, so a claim that was read is current.
  function UpdateClaim(s: Sys, name: string, capacity: int): (Sys, Reply<()>) {
    var e, f := Enter(s), FateOf(s);
    if f == Refused then (e, Failed)
    else if name !in e.w.claims then (e, NotFound)
    else
      var event := ClaimResized(name, e.w.claims[name], capacity, e.w.sts.Some?);
      (e.(w := e.w.(claims := e.w.claims[name := capacity], log := e.w.log + [event])), Answer(f, ()))
  }

  // Deletion with orphan propagation: the object stays until it is reaped.
  function DeleteSts(s: Sys, rmq: RabbitmqCluster, desired: int): (Sys, Reply<()>) {
    var e, f := Enter(s), FateOf(s);
    if f == Refused then (e, Failed)
    else if e.w.sts.None? then (e, NotFound)
    else
      var sts := e.w.sts.value;
      var gone := sts.(terminating := true, rv := e.w.nextId);
      var event := StsDeleteAccepted(sts.uid, rmq.name, rmq.spec.replicas, desired, e.w.claims);
      (e.(w := e.w.(sts := Some(gone), nextId := e.w.nextId + 1, log := e.w.log + [event])), Answer(f, ()))
  }

  function CreateSts(s: Sys, obj: Sts): (Sys, Reply<Sts>) {
    var e, f := Enter(s), FateOf(s);
    if f == Refused || e.w.sts.Some? then (e, Failed)
    else
      var sts := obj.(uid := e.w.nextId, rv := e.w.nextId, terminating := false);
      var event := StsCreated(sts, e.w.claims);
      (e.(w := e.w.(sts := Some(sts), nextId := e.w.nextId + 1, log := e.w.log + [event])), Answer(f, sts))
  }

  // What a write is meant to do. The server cannot tell a marker written anew
  // with its old value from one left alone; everything else it sees itself.
  datatype Purpose = Apply | Restart | Mark

  // A marker is set when it comes out with another value, or is written anew.
  predicate Sets(key: string, before: Annotations, after: Annotations, anew: bool) {
    key in after && (anew || Lookup(before, key) != Lookup(after, key))
  }

  // The removal of a marker, if this is one.
  function Removal(cmd: Command, key: string, before: Annotations, after: Annotations, version: nat): seq<Event> {
    if key in before && key !in after then [MarkerCleared(cmd, before[key], version)] else []
  }

  function RestartSet(w: World, uid: nat, prior: Option<Value>, v: Value): Event {
    if v.Stamp? then Restarted(uid, v.t, prior, ConfMark(w)) else Garbled
  }

  function StsEvents(w: World, stored: Sts, obj: Sts, why: Purpose): seq<Event> {
    Removal(EnableFeatureFlags, CREATED_AT, stored.annotations, obj.annotations, stored.rv)
    + if Sets(LAST_RESTART_AT, stored.podAnnotations, obj.podAnnotations, why == Restart)
      then
        var prior := Lookup(stored.podAnnotations, LAST_RESTART_AT);
        [RestartSet(w, stored.uid, prior, obj.podAnnotations[LAST_RESTART_AT])]
      else []
  }

  function ConfMark(w: World): Option<Value> {
    if w.server.None? then None else Lookup(w.server.value.annotations, SERVER_CONF_UPDATED_AT)
  }

  // obj is the changed copy; it still carries the version that was read.
  function UpdateSts(s: Sys, obj: Sts, why: Purpose): (Sys, Reply<Sts>) {
    var e, f := Enter(s), FateOf(s);
    if f == Refused then (e, Failed)
    else if e.w.sts.None? then (e, NotFound)
    else if e.w.sts.value.rv != obj.rv then (e, Conflict)
    else
      var sts := obj.(rv := e.w.nextId);
      var events := StsEvents(e.w, e.w.sts.value, obj, why);
      (e.(w := e.w.(sts := Some(sts), nextId := e.w.nextId + 1, log := e.w.log + events)), Answer(f, sts))
  }

  function MarkerSet(which: Which, v: Value): Event {
    if which == PluginsMap then PluginsMarked(v) else if v.Stamp? then ConfMarked(v.t) else Garbled
  }

  function MarkerKey(which: Which): string {
    if which == PluginsMap then PLUGINS_UPDATED_AT else SERVER_CONF_UPDATED_AT
  }

  function MapEvents(which: Which, before: Annotations, version: nat, after: Annotations, why: Purpose): seq<Event> {
    (if which == PluginsMap then Removal(SetPlugins, PLUGINS_UPDATED_AT, before, after, version) else [])
    + if Sets(MarkerKey(which), before, after, why == Mark) then [MarkerSet(which, after[MarkerKey(which)])] else []
  }

  function CreateMap(s: Sys, which: Which, data: Data, annotations: Annotations): (Sys, Reply<StoredMap>) {
    var e, f := Enter(s), FateOf(s);
    if f == Refused || MapOf(e.w, which).Some? then (e, Failed)
    else
      var m := StoredMap(e.w.nextId, data, annotations);
      var events := MapEvents(which, map[], 0, annotations, Apply);
      (e.(w := WithMap(e.w, which, m).(nextId := e.w.nextId + 1, log := e.w.log + events)), Answer(f, m))
  }

  function UpdateMap(s: Sys, which: Which, obj: StoredMap, why: Purpose): (Sys, Reply<StoredMap>) {
    var e, f := Enter(s), FateOf(s);
    var stored := MapOf(e.w, which);
    if f == Refused then (e, Failed)
    else if stored.None? then (e, NotFound)
    else if stored.value.rv != obj.rv then (e, Conflict)
    else
      var m := obj.(rv := e.w.nextId);
      var events := MapEvents(which, stored.value.annotations, stored.value.rv, obj.annotations, why);
      (e.(w := WithMap(e.w, which, m).(nextId := e.w.nextId + 1, log := e.w.log + events)), Answer(f, m))
  }

  function ReadOther(s: Sys, kind: Kind): (Sys, Reply<ClusterSpec>) {
    var e := Enter(s);
    (e, Found(FateOf(s), if kind in e.w.others then Some(e.w.others[kind]) else None))
  }

  function WriteOther(s: Sys, kind: Kind, spec: ClusterSpec): (Sys, Reply<()>) {
    var e, f := Enter(s), FateOf(s);
    if f == Refused then (e, Failed)
    else (e.(w := e.w.(others := e.w.others[kind := spec])), Answer(f, ()))
  }

  // An update of the resource itself leaves its status alone ...
  function UpdateCluster(s: Sys, obj: RabbitmqCluster): (Sys, Reply<RabbitmqCluster>) {
    var e, f := Enter(s), FateOf(s);
    var stored := e.w.cluster;
    if f == Refused then (e, Failed)
    else if stored.rv != obj.rv then (e, Conflict)
    else
      var c := stored.(annotations := obj.annotations, finalizer := obj.finalizer, rv := e.w.nextId);
      var events := Removal(RebalanceQueues, QUEUE_REBALANCE_NEEDED_AT, stored.annotations, obj.annotations, stored.rv);
      (e.(w := e.w.(cluster := c, nextId := e.w.nextId + 1, log := e.w.log + events)), Answer(f, c))
  }

  // ... and an update of the status leaves everything else alone.
  function UpdateStatus(s: Sys, obj: RabbitmqCluster): (Sys, Reply<RabbitmqCluster>) {
    var e, f := Enter(s), FateOf(s);
    if f == Refused then (e, Failed)
    else if e.w.cluster.rv != obj.rv then (e, Conflict)
    else
      var c := e.w.cluster.(status := obj.status, rv := e.w.nextId);
      (e.(w := e.w.(cluster := c, nextId := e.w.nextId + 1)), Answer(f, c))
  }

  // A command run inside a pod.
  function Exec(s: Sys, cmd: Command, pod: int): (Sys, bool) {
    var e, ok := Enter(s), FateOf(s) == Delivered;
    (Note(e, Executed(cmd, pod, ok)), ok)
  }
}
