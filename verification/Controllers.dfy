// One reconcile pass (package controllers), call by call.
module Controllers {
  import opened Text
  import opened Rfc3339
  import opened Conditions
  import opened Spec
  import opened ConfigMaps
  import opened ApiServer
  import Metadata
  import Scaling

  datatype Flow = Go | Halt | Requeue | Error

  // The store, the pass's copy of the custom resource, and how to go on.
  datatype Step = Step(s: Sys, rmq: RabbitmqCluster, flow: Flow)

  /* ---- timestamps in annotations ---- */

  function TextOf(v: Value, zone: string): string {
    match v
    case Stamp(t) => Format(t, zone)
    case Words(s) => s
  }

  // Pending work is marked by an annotation that is there and not empty.
  predicate Pending(a: Annotations, key: string) {
    key in a && a[key] != Words("")
  }

  // The text of a time is never empty, so that work is pending exactly when
  // there is some text.
  lemma EmptyTextIsWords(a: Annotations, key: string, zone: string)
    requires key in a
    ensures TextOf(a[key], zone) == "" <==> a[key] == Words("")
    ensures Pending(a, key) <==> TextOf(a[key], zone) != ""
  {
    if a[key].Stamp? { FormatZone(a[key].t, zone); }
  }

  /* ---- status writes ---- */

  // Sets a condition and writes the status; a failed write is only logged.
  function SetCondition(s: Sys, rmq: RabbitmqCluster, kind: ConditionType, status: ConditionStatus,
    reason: string): Step
  {
    var st := rmq.status.(conditions := AfterSetCondition(rmq.status.conditions, kind, status, reason, [], s.w.now));
    var (s1, r) := UpdateStatus(s, rmq.(status := st));
    Step(s1, if r.Ok? then r.value else rmq.(status := st), Go)
  }

  function SetReconcileSuccess(s: Sys, rmq: RabbitmqCluster, status: ConditionStatus, reason: string): Step {
    SetCondition(s, rmq, ReconcileSuccess, status, reason)
  }

  /* ---- the steps before the children ---- */

  function AddFinalizerIfNeeded(s: Sys, rmq: RabbitmqCluster): Step {
    if rmq.finalizer then Step(s, rmq, Go)
    else
      var (s1, r) := UpdateCluster(s, rmq.(finalizer := true));
      if r.Ok? then Step(s1, r.value, Go) else Step(s1, rmq, Error)
  }

  function ViewOf(sts: Sts): StsView {
    StsView(Some(sts.replicas), sts.ready, sts.template.memoryLimit, sts.template.memoryRequest)
  }

  function Known<T>(r: Reply<T>): Option<T> {
    if r.Ok? then Some(r.value) else None
  }

  function UpdateStatusConditions(s: Sys, rmq: RabbitmqCluster): Step {
    var (s1, sts) := ReadSts(s);
    if sts.Failed? then Step(s1, rmq, Error)
    else
      var (s2, ep) := ReadEndpoints(s1);
      if ep.Failed? then Step(s2, rmq, Error)
      else
        var resources := [StatefulSet(if sts.Ok? then Some(ViewOf(sts.value)) else None), Endpoints(Known(ep))];
        var conditions := AfterSetConditions(rmq.status.conditions, resources, s2.w.now);
        var changed := rmq.(status := rmq.status.(conditions := conditions));
        if conditions == rmq.status.conditions then Step(s2, rmq, Go)
        else
          var (s3, r) := UpdateStatus(s2, changed);
          if r.Ok? then Step(s3, r.value, Go) else Step(s3, changed, if r.Conflict? then Requeue else Error)
  }

  function CheckTLSSecrets(s: Sys, spec: ClusterSpec): (Sys, bool) {
    var (s1, r) := ReadSecret(s, spec.tls.secretName);
    if !r.Ok? || "tls.key" !in r.value || "tls.crt" !in r.value then (s1, false)
    else if !spec.MutualTLSEnabled() then (s1, true)
    else if spec.SingleTLSSecret() then (s1, "ca.crt" in r.value)
    else
      var (s2, ca) := ReadSecret(s1, spec.tls.caSecretName);
      (s2, ca.Ok? && "ca.crt" in ca.value)
  }

  // A specification that turns plain listeners off without TLS ends the pass
  // for good; a missing or unfit secret is an error to be retried.
  function ReconcileTLS(s: Sys, rmq: RabbitmqCluster): Step {
    if rmq.spec.DisableNonTLSListeners() && !rmq.spec.TLSEnabled()
    then SetReconcileSuccess(s, rmq, ConditionFalse, "TLSError").(flow := Halt)
    else if !rmq.spec.SecretTLSEnabled() then Step(s, rmq, Go)
    else
      var (s1, fit) := CheckTLSSecrets(s, rmq.spec);
      if fit then Step(s1, rmq, Go) else SetReconcileSuccess(s1, rmq, ConditionFalse, "TLSError").(flow := Error)
  }

  predicate BeingUpdated(sts: Sts) {
    sts.currentRevision != sts.updateRevision
  }

  predicate ReadyAndUpdated(sts: Sts) {
    sts.ready == sts.replicas && !BeingUpdated(sts)
  }

  predicate NeedsQueueRebalance(sts: Sts, rmq: RabbitmqCluster) {
    BeingUpdated(sts) && !rmq.spec.skipPostDeploySteps && rmq.spec.replicas > 1
  }

  function MarkForQueueRebalance(s: Sys, rmq: RabbitmqCluster): Step {
    var (s1, sts) := ReadSts(s);
    if sts.Failed? then Step(s1, rmq, Error)
    else if !sts.Ok? || !NeedsQueueRebalance(sts.value, rmq) || Pending(rmq.annotations, QUEUE_REBALANCE_NEEDED_AT)
      then Step(s1, rmq, Go)
    else
      var (s2, r) := UpdateCluster(s1,
        rmq.(annotations := rmq.annotations[QUEUE_REBALANCE_NEEDED_AT := Stamp(s1.w.now)]));
      if r.Ok? then Step(s2, r.value, Go) else Step(s2, rmq, Error)
  }

  /* ---- the children ---- */

  datatype Builder = OtherBuilder(kind: Kind) | MapBuilder(which: Which) | StsBuilder

  // The order of ResourceBuilders; the StatefulSet comes last.
  function Builders(spec: ClusterSpec): seq<Builder> {
    [OtherBuilder(HeadlessService), OtherBuilder(ClientService), OtherBuilder(ErlangCookie)]
    + (if spec.VaultDefaultUserSecretEnabled() then [] else [OtherBuilder(DefaultUserSecret)])
    + [MapBuilder(PluginsMap), MapBuilder(ServerMap), OtherBuilder(ServiceAccount), OtherBuilder(Role),
      OtherBuilder(RoleBinding), StsBuilder]
  }

  datatype Operation = Created | Updated | Unchanged

  function ApplyOther(s: Sys, kind: Kind, spec: ClusterSpec): (Sys, Reply<Operation>) {
    var (s1, r) := ReadOther(s, kind);
    if r.Failed? then (s1, Failed)
    else if r == Ok(spec) then (s1, Ok(Unchanged))
    else
      var (s2, u) := WriteOther(s1, kind, spec);
      (s2, if u.Ok? then Ok(if r.Ok? then Updated else Created) else Failed)
  }

  function BuiltData(which: Which): Data {
    if which == PluginsMap then PluginsData(map[], []) else map[]
  }

  function UpdatedData(which: Which, data: Data, spec: ClusterSpec): Data {
    if which == PluginsMap then PluginsData(data, spec.plugins) else ServerData(data, spec.conf)
  }

  // Create the ConfigMap or bring its data up to date, trying again on conflict.
  function ApplyMap(s: Sys, which: Which, rmq: RabbitmqCluster, tries: nat): (Sys, Reply<Operation>)
    decreases tries
  {
    if tries == 0 then (s, Conflict)
    else
      var (s1, r) := ReadMap(s, which);
      if r.Failed? then (s1, Failed)
      else if r.NotFound? then
        var annotations := Metadata.Merged(Metadata.IsNotKubernetesAnnotation, map[], [rmq.annotations]);
        var (s2, c) := CreateMap(s1, which, UpdatedData(which, BuiltData(which), rmq.spec), annotations);
        (s2, if c.Ok? then Ok(Created) else Failed)
      else if r.Ok? then
        var data := UpdatedData(which, r.value.data, rmq.spec);
        if data == r.value.data then (s1, Ok(Unchanged))
        else
          var (s2, u) := UpdateMap(s1, which, r.value.(data := data), Apply);
          if u.Conflict? then ApplyMap(s2, which, rmq, tries - 1)
          else (s2, if u.Ok? then Ok(Updated) else Failed)
      else (s1, Failed)
  }

  function UpdatedSts(sts: Sts, rmq: RabbitmqCluster): Sts {
    sts.(
      replicas := rmq.spec.replicas,
      storage := if sts.storage.Some? then Some(rmq.spec.storage) else None,
      annotations := Metadata.Merged(Metadata.IsNotKubernetesAnnotation, sts.annotations, [rmq.annotations]),
      podAnnotations := Metadata.Merged(Metadata.AnyAnnotation, sts.podAnnotations, [rmq.spec.podAnnotations]),
      template := rmq.spec)
  }

  function BuiltSts(rmq: RabbitmqCluster): Sts {
    Sts(0, 0, false, 1, if rmq.spec.storage == 0 then None else Some(rmq.spec.storage), map[], map[], rmq.spec, 0, 0, 0)
  }

  function ApplySts(s: Sys, rmq: RabbitmqCluster, tries: nat): (Sys, Reply<Operation>)
    decreases tries
  {
    if tries == 0 then (s, Conflict)
    else
      var (s1, r) := ReadSts(s);
      if r.Failed? then (s1, Failed)
      else if r.NotFound? then
        var (s2, c) := CreateSts(s1, UpdatedSts(BuiltSts(rmq), rmq));
        (s2, if c.Ok? then Ok(Created) else Failed)
      else if r.Ok? then
        var sts := UpdatedSts(r.value, rmq);
        if sts == r.value then (s1, Ok(Unchanged))
        else
          var (s2, u) := UpdateSts(s1, sts, Apply);
          if u.Conflict? then ApplySts(s2, rmq, tries - 1)
          else (s2, if u.Ok? then Ok(Updated) else Failed)
      else (s1, Failed)
  }

  // updateAnnotation: set the marker to t, trying again on conflict or absence.
  function AnnotateMap(s: Sys, which: Which, t: Time, tries: nat): (Sys, bool)
    decreases tries
  {
    if tries == 0 then (s, false)
    else
      var (s1, r) := ReadMap(s, which);
      if r.NotFound? then AnnotateMap(s1, which, t, tries - 1)
      else if !r.Ok? then (s1, false)
      else
        var (s2, u) := UpdateMap(s1, which, r.value.(annotations := r.value.annotations[MarkerKey(which) := Stamp(t)]),
          Mark);
        if u.Conflict? || u.NotFound? then AnnotateMap(s2, which, t, tries - 1) else (s2, u.Ok?)
  }

  function AnnotateSts(s: Sys, t: Time, tries: nat): (Sys, bool)
    decreases tries
  {
    if tries == 0 then (s, false)
    else
      var (s1, r) := ReadSts(s);
      if r.NotFound? then AnnotateSts(s1, t, tries - 1)
      else if !r.Ok? then (s1, false)
      else
        var (s2, u) := UpdateSts(s1, r.value.(annotations := r.value.annotations[CREATED_AT := Stamp(t)]), Mark);
        if u.Conflict? || u.NotFound? then AnnotateSts(s2, t, tries - 1) else (s2, u.Ok?)
  }

  // An updated ConfigMap and a created StatefulSet are marked.
  function AnnotateIfNeeded(s: Sys, b: Builder, op: Operation, tries: nat): (Sys, bool) {
    match b
    case MapBuilder(which) => if op == Updated then AnnotateMap(s, which, s.w.now, tries) else (s, true)
    case StsBuilder => if op == Created then AnnotateSts(s, s.w.now, tries) else (s, true)
    case OtherBuilder(_) => (s, true)
  }

  function DesiredCapacity(spec: ClusterSpec): int {
    Scaling.CapacityOf(BuiltSts(RabbitmqCluster("", 0, 0, spec, map[], false, false, ClusterStatus([], None, 0))))
  }

  function ReconcilePVC(s: Sys, rmq: RabbitmqCluster): Step {
    var (s1, scaled) := Scaling.Scale(s, rmq, DesiredCapacity(rmq.spec));
    if scaled == Scaling.Done then Step(s1, rmq, Go)
    else SetReconcileSuccess(s1, rmq, ConditionFalse, "FailedReconcilePVC").(flow := Error)
  }

  // What precedes the update of the StatefulSet: no scaling down, and the
  // claims expanded.
  function PrepareSts(s: Sys, rmq: RabbitmqCluster): Step {
    var (s1, r) := ReadSts(s);
    if r.Failed? then Step(s1, rmq, Error)
    else if r.Ok? && r.value.replicas > rmq.spec.replicas
    then SetReconcileSuccess(s1, rmq, ConditionFalse, "UnsupportedOperation").(flow := Halt)
    else ReconcilePVC(s1, rmq)
  }

  function CreateOrUpdate(s: Sys, rmq: RabbitmqCluster, b: Builder, tries: nat): (Sys, Reply<Operation>) {
    match b
    case OtherBuilder(kind) => ApplyOther(s, kind, rmq.spec)
    case MapBuilder(which) => ApplyMap(s, which, rmq, tries)
    case StsBuilder => ApplySts(s, rmq, tries)
  }

  function ApplyAndAnnotate(s: Sys, rmq: RabbitmqCluster, b: Builder, tries: nat): Step {
    var (s1, r) := CreateOrUpdate(s, rmq, b, tries);
    if !r.Ok? then SetReconcileSuccess(s1, rmq, ConditionFalse, "Error").(flow := Error)
    else
      var (s2, ok) := AnnotateIfNeeded(s1, b, r.value, tries);
      Step(s2, rmq, if ok then Go else Error)
  }

  function RunBuilder(s: Sys, rmq: RabbitmqCluster, b: Builder, tries: nat): Step {
    if b.StsBuilder? then
      var p := PrepareSts(s, rmq);
      if p.flow == Go then ApplyAndAnnotate(p.s, p.rmq, b, tries) else p
    else ApplyAndAnnotate(s, rmq, b, tries)
  }

  function RunBuilders(s: Sys, rmq: RabbitmqCluster, bs: seq<Builder>, tries: nat): Step
    decreases |bs|
  {
    if bs == [] then Step(s, rmq, Go)
    else
      var p := RunBuilder(s, rmq, bs[0], tries);
      if p.flow == Go then RunBuilders(p.s, p.rmq, bs[1..], tries) else p
  }

  /* ---- restarting the StatefulSet ---- */

  datatype Restarting = NotMarked | UpToDate(sts: Sts, mark: Value) | RestartDone | Wait | RestartFailed

  // Go's comparison of the two annotation texts.
  predicate TextAfter(a: Value, b: Value, zone: string) {
    Less(TextOf(b, zone), TextOf(a, zone))
  }

  function WriteRestart(s: Sys, tries: nat): (Sys, bool)
    decreases tries
  {
    if tries == 0 then (s, false)
    else
      var (s1, r) := ReadSts(s);
      if !r.Ok? then (s1, false)
      else
        var t := s1.w.now;
        var (s2, u) := UpdateSts(s1, r.value.(podAnnotations := r.value.podAnnotations[LAST_RESTART_AT := Stamp(t)]),
          Restart);
        if u.Conflict? then WriteRestart(s2, tries - 1) else (s2, u.Ok?)
  }

  // Given the marker of the configuration as it was read.
  function RestartIfMarked(s: Sys, tries: nat, mark: Value): (Sys, Restarting) {
    var (s1, r) := ReadSts(s);
    if r.NotFound? then (s1, Wait)
    else if !r.Ok? then (s1, RestartFailed)
    else if LAST_RESTART_AT in r.value.podAnnotations
      && TextAfter(r.value.podAnnotations[LAST_RESTART_AT], mark, s1.w.zone)
    then (s1, UpToDate(r.value, mark))
    else
      var (s2, ok) := WriteRestart(s1, tries);
      (s2, if ok then RestartDone else RestartFailed)
  }

  function RestartIfNeeded(s: Sys, tries: nat): (Sys, Restarting) {
    var (s1, conf) := ReadMap(s, ServerMap);
    if conf.NotFound? then (s1, Wait)
    else if !conf.Ok? then (s1, RestartFailed)
    else if SERVER_CONF_UPDATED_AT !in conf.value.annotations then (s1, NotMarked)
    else RestartIfMarked(s1, tries, conf.value.annotations[SERVER_CONF_UPDATED_AT])
  }

  /* ---- commands in the pods ---- */

  function ReconcileStatus(s: Sys, rmq: RabbitmqCluster): Step {
    var user := Some(!rmq.spec.VaultDefaultUserSecretEnabled());
    if rmq.status.userSecret == user then Step(s, rmq, Go)
    else
      var changed := rmq.(status := rmq.status.(userSecret := user));
      var (s1, r) := UpdateStatus(s, changed);
      if r.Ok? then Step(s1, r.value, Go) else Step(s1, changed, Error)
  }

  function RunOnPods(s: Sys, cmd: Command, i: nat, n: int): (Sys, bool)
    decreases n - i
  {
    if i >= n then (s, true)
    else
      var (s1, ok) := Exec(s, cmd, i);
      if ok then RunOnPods(s1, cmd, i + 1, n) else (s1, false)
  }

  // The objects a pass holds while it runs commands.
  datatype Cli = Cli(s: Sys, rmq: RabbitmqCluster, sts: Sts, plugins: StoredMap, flow: Flow)

  function RunSetPlugins(c: Cli): Cli {
    if !Pending(c.plugins.annotations, PLUGINS_UPDATED_AT) then c
    else
      var (s1, ok) := RunOnPods(c.s, SetPlugins, 0, c.rmq.spec.replicas);
      if !ok then c.(s := s1, flow := Error)
      else
        var (s2, u) := UpdateMap(s1, PluginsMap,
          c.plugins.(annotations := c.plugins.annotations - {PLUGINS_UPDATED_AT}), Apply);
        if u.Ok? then c.(s := s2, plugins := u.value) else c.(s := s2, flow := Error)
  }

  function RunEnableFeatureFlags(c: Cli): Cli {
    if !Pending(c.sts.annotations, CREATED_AT) then c
    else
      var (s1, ok) := RunOnPods(c.s, EnableFeatureFlags, 0, 1);
      if !ok then c.(s := s1, flow := Error)
      else
        var (s2, u) := UpdateSts(s1, c.sts.(annotations := c.sts.annotations - {CREATED_AT}), Apply);
        if u.Ok? then c.(s := s2, sts := u.value) else c.(s := s2, flow := Error)
  }

  function RunQueueRebalance(c: Cli): Cli {
    if !Pending(c.rmq.annotations, QUEUE_REBALANCE_NEEDED_AT) then c
    else
      var (s1, ok) := RunOnPods(c.s, RebalanceQueues, 0, 1);
      if !ok then c.(s := s1, flow := Error)
      else
        var (s2, u) := UpdateCluster(s1, c.rmq.(annotations := c.rmq.annotations - {QUEUE_REBALANCE_NEEDED_AT}));
        if u.Ok? then c.(s := s2, rmq := u.value) else c.(s := s2, flow := Error)
  }

  // Whether the plugins ConfigMap changed less than two seconds ago; None when
  // its marker cannot be read as a time.
  function UpdatedRecently(a: Annotations, now: Time): Option<bool> {
    if PLUGINS_UPDATED_AT !in a then Some(false)
    else match a[PLUGINS_UPDATED_AT]
      case Stamp(t) => Some(Seconds(now) - Seconds(t) < 2)
      case Words(_) => None
  }

  function RunMarkedCommands(c: Cli): Cli {
    var c1 := RunSetPlugins(c);
    if c1.flow != Go then c1
    else
      var c2 := RunEnableFeatureFlags(c1);
      if c2.flow != Go then c2 else RunQueueRebalance(c2)
  }

  const NO_STS := Sts(0, 0, false, 0, None, map[], map[],
    ClusterSpec(0, 0, [], ServerConf("", "", "", ""), Tls("", "", false), None, map[], None, None, false), 0, 0, 0)
  const NO_MAP := StoredMap(0, map[], map[])

  function RunCommands(s: Sys, rmq: RabbitmqCluster): Cli {
    var (s1, r) := ReadSts(s);
    if !r.Ok? then Cli(s1, rmq, NO_STS, NO_MAP, Error)
    else if !ReadyAndUpdated(r.value) then Cli(s1, rmq, r.value, NO_MAP, Requeue)
    else
      var (s2, p) := ReadMap(s1, PluginsMap);
      if !p.Ok? then Cli(s2, rmq, r.value, NO_MAP, Error)
      else
        var recently := UpdatedRecently(p.value.annotations, s2.w.now);
        if recently != Some(false) then Cli(s2, rmq, r.value, p.value, if recently.Some? then Requeue else Error)
        else RunMarkedCommands(Cli(Note(s2, Looked(Look(rmq, r.value, p.value))), rmq, r.value, p.value, Go))
  }

  /* ---- the pass ---- */

  datatype Result = Completed(cli: Cli) | Stopped(flow: Flow)

  datatype Pass = Pass(s: Sys, result: Result)

  function Ended(p: Step): Pass {
    Pass(p.s, Stopped(p.flow))
  }

  function Preliminaries(s: Sys, rmq: RabbitmqCluster): Step {
    var p1 := AddFinalizerIfNeeded(s, rmq);
    if p1.flow != Go then p1
    else
      var p2 := UpdateStatusConditions(p1.s, p1.rmq);
      if p2.flow != Go then p2
      else
        var p3 := ReconcileTLS(p2.s, p2.rmq);
        if p3.flow != Go then p3 else MarkForQueueRebalance(p3.s, p3.rmq)
  }

  function FlowOf(r: Restarting): Flow {
    match r
    case Wait => Requeue
    case RestartFailed => Error
    case _ => Go
  }

  function Finish(s: Sys, rmq: RabbitmqCluster): Pass {
    var c := RunCommands(s, rmq);
    if c.flow == Go then
      var seen := c.rmq.(status := c.rmq.status.(observedGeneration := c.rmq.generation));
      Pass(SetReconcileSuccess(c.s, seen, ConditionTrue, "Success").s, Completed(c))
    else if c.flow == Error then
      Ended(SetReconcileSuccess(c.s, c.rmq, ConditionFalse, "FailedCLICommand").(flow := Error))
    else Pass(c.s, Stopped(c.flow))
  }

  function AfterRestart(s: Sys, rmq: RabbitmqCluster): Pass {
    var p := ReconcileStatus(s, rmq);
    if p.flow != Go then Ended(p) else Finish(p.s, p.rmq)
  }

  function AfterChildren(s: Sys, rmq: RabbitmqCluster, tries: nat): Pass {
    var (s1, restart) := RestartIfNeeded(s, tries);
    if FlowOf(restart) != Go then Pass(s1, Stopped(FlowOf(restart))) else AfterRestart(s1, rmq)
  }

  // The pass once the resource has been read.
  function Begun(s: Sys, rmq: RabbitmqCluster, tries: nat): Pass {
    if rmq.paused then
      Ended(SetCondition(s, rmq, NoWarnings, ConditionFalse, "reconciliation paused").(flow := Halt))
    else
      var p := Preliminaries(s, rmq);
      if p.flow != Go then Ended(p)
      else
        var q := RunBuilders(p.s, p.rmq, Builders(p.rmq.spec), tries);
        if q.flow != Go then Ended(q) else AfterChildren(q.s, q.rmq, tries)
  }

  function Reconcile(s: Sys, tries: nat): Pass {
    var (s1, r) := ReadCluster(s);
    if r.Ok? then Begun(Note(s1, PassBegan(r.value.spec)), r.value, tries) else Pass(s1, Stopped(Error))
  }
}
