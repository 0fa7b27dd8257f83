// The reconciler of package controllers, call by call, against Controllers.
module Reconciler {
  import opened Text
  import opened Rfc3339
  import opened Conditions
  import opened Spec
  import opened ConfigMaps
  import opened ApiServer
  import opened Client
  import opened Controllers
  import Scaler
  import Metadata
  import Scaling

  class RabbitmqClusterReconciler {
    const client: Client
    const tries: nat // of one retry on conflict

    constructor (client: Client, tries: nat)
      ensures this.client == client && this.tries == tries
    {
      this.client, this.tries := client, tries;
    }

    /* ---- the status ---- */

    method SetCondition(rmq: RabbitmqCluster, kind: ConditionType, status: ConditionStatus, reason: string)
      returns (held: RabbitmqCluster)
      modifies client
      ensures Step(client.sys, held, Go) == Controllers.SetCondition(old(client.sys), rmq, kind, status, reason)
    {
      hide AfterSetCondition, UpdateStatus;
      var st := new RabbitmqClusterStatus(rmq.status.conditions);
      st.SetCondition(kind, status, reason, [], client.sys.w.now);
      held := rmq.(status := rmq.status.(conditions := st.conditions));
      var r := client.PutStatus(held);
      if r.Ok? { held := r.value; }
    }

    method UpdateStatusConditions(rmq: RabbitmqCluster) returns (held: RabbitmqCluster, flow: Flow)
      modifies client
      ensures Step(client.sys, held, flow) == Controllers.UpdateStatusConditions(old(client.sys), rmq)
    {
      hide AfterSetConditions, UpdateStatus, ReadSts, ReadEndpoints;
      held := rmq;
      var sts := client.GetSts();
      if sts.Failed? { return held, Error; }
      var ep := client.GetEndpoints();
      if ep.Failed? { return held, Error; }
      var resources := [StatefulSet(if sts.Ok? then Some(ViewOf(sts.value)) else None), Endpoints(Known(ep))];
      var st := new RabbitmqClusterStatus(rmq.status.conditions);
      st.SetConditions(resources, client.sys.w.now);
      if st.conditions == rmq.status.conditions { return held, Go; }
      held := rmq.(status := rmq.status.(conditions := st.conditions));
      var r := client.PutStatus(held);
      if r.Conflict? { return held, Requeue; }
      if !r.Ok? { return held, Error; }
      return r.value, Go;
    }

    method AddFinalizerIfNeeded(rmq: RabbitmqCluster) returns (held: RabbitmqCluster, flow: Flow)
      modifies client
      ensures Step(client.sys, held, flow) == Controllers.AddFinalizerIfNeeded(old(client.sys), rmq)
    {
      hide UpdateCluster;
      if rmq.finalizer { return rmq, Go; }
      var r := client.PutCluster(rmq.(finalizer := true));
      if r.Ok? { return r.value, Go; }
      return rmq, Error;
    }

    method CheckTLSSecrets(spec: ClusterSpec) returns (fit: bool)
      modifies client
      ensures (client.sys, fit) == Controllers.CheckTLSSecrets(old(client.sys), spec)
    {
      hide ReadSecret;
      var r := client.GetSecret(spec.tls.secretName);
      if !r.Ok? { return false; }
      if "tls.key" !in r.value || "tls.crt" !in r.value { return false; }
      if !spec.MutualTLSEnabled() { return true; }
      if spec.SingleTLSSecret() { return "ca.crt" in r.value; }
      var ca := client.GetSecret(spec.tls.caSecretName);
      return ca.Ok? && "ca.crt" in ca.value;
    }

    method ReconcileTLS(rmq: RabbitmqCluster) returns (held: RabbitmqCluster, flow: Flow)
      modifies client
      ensures Step(client.sys, held, flow) == Controllers.ReconcileTLS(old(client.sys), rmq)
    {
      hide Controllers.SetCondition, Controllers.CheckTLSSecrets;
      held, flow := rmq, Go;
      if rmq.spec.DisableNonTLSListeners() && !rmq.spec.TLSEnabled() {
        held := SetCondition(rmq, ReconcileSuccess, ConditionFalse, "TLSError");
        return held, Halt;
      }
      if rmq.spec.SecretTLSEnabled() {
        var fit := CheckTLSSecrets(rmq.spec);
        if !fit {
          held := SetCondition(rmq, ReconcileSuccess, ConditionFalse, "TLSError");
          return held, Error;
        }
      }
    }

    method MarkForQueueRebalance(rmq: RabbitmqCluster) returns (held: RabbitmqCluster, flow: Flow)
      modifies client
      ensures Step(client.sys, held, flow) == Controllers.MarkForQueueRebalance(old(client.sys), rmq)
    {
      hide ReadSts, UpdateCluster, Pending, NeedsQueueRebalance;
      var sts := client.GetSts();
      if sts.Failed? { return rmq, Error; }
      if !sts.Ok? || !NeedsQueueRebalance(sts.value, rmq) { return rmq, Go; }
      if Pending(rmq.annotations, QUEUE_REBALANCE_NEEDED_AT) { return rmq, Go; }
      var now := client.sys.w.now;
      var r := client.PutCluster(rmq.(annotations := rmq.annotations[QUEUE_REBALANCE_NEEDED_AT := Stamp(now)]));
      if r.Ok? { return r.value, Go; }
      return rmq, Error;
    }

    /* ---- the children ---- */

    method ApplyOther(kind: Kind, spec: ClusterSpec) returns (r: Reply<Operation>)
      modifies client
      ensures (client.sys, r) == Controllers.ApplyOther(old(client.sys), kind, spec)
    {
      hide ReadOther, WriteOther;
      var found := client.GetOther(kind);
      if found.Failed? { return Failed; }
      if found == Ok(spec) { return Ok(Unchanged); }
      var u := client.PutOther(kind, spec);
      if !u.Ok? { return Failed; }
      return Ok(if found.Ok? then Updated else Created);
    }

    method UpdateData(which: Which, data: Data, spec: ClusterSpec) returns (updated: Data)
      ensures updated == UpdatedData(which, data, spec)
    {
      var configMap := new ConfigMap(data);
      if which == PluginsMap {
        configMap.UpdatePlugins(spec.plugins);
      } else {
        configMap.UpdateServerConf(spec.conf);
      }
      return configMap.data;
    }

    method ApplyMap(which: Which, rmq: RabbitmqCluster) returns (r: Reply<Operation>)
      modifies client
      ensures (client.sys, r) == Controllers.ApplyMap(old(client.sys), which, rmq, tries)
    {
      hide ReadMap, CreateMap, UpdateMap, UpdatedData, BuiltData, Metadata.Merged;
      for k := 0 to tries
        invariant Controllers.ApplyMap(old(client.sys), which, rmq, tries)
               == Controllers.ApplyMap(client.sys, which, rmq, tries - k)
      {
        var found := client.GetMap(which);
        if found.NotFound? {
          var annotations := Metadata.MergeWithFilter(Metadata.IsNotKubernetesAnnotation, map[], [rmq.annotations]);
          var data := UpdateData(which, BuiltData(which), rmq.spec);
          var c := client.PostMap(which, data, annotations);
          return if c.Ok? then Ok(Created) else Failed;
        }
        if !found.Ok? { return Failed; }
        var data := UpdateData(which, found.value.data, rmq.spec);
        if data == found.value.data { return Ok(Unchanged); }
        var u := client.PutMap(which, found.value.(data := data), Apply);
        if !u.Conflict? { return if u.Ok? then Ok(Updated) else Failed; }
      }
      return Conflict;
    }

    method UpdateSts(sts: Sts, rmq: RabbitmqCluster) returns (updated: Sts)
      ensures updated == UpdatedSts(sts, rmq)
    {
      hide Metadata.Merged;
      updated := sts.(replicas := rmq.spec.replicas, template := rmq.spec);
      if updated.storage.Some? { updated := updated.(storage := Some(rmq.spec.storage)); }
      var annotations := Metadata.MergeWithFilter(Metadata.IsNotKubernetesAnnotation, sts.annotations,
        [rmq.annotations]);
      var podAnnotations := Metadata.MergeWithFilter(Metadata.AnyAnnotation, sts.podAnnotations,
        [rmq.spec.podAnnotations]);
      updated := updated.(annotations := annotations, podAnnotations := podAnnotations);
    }

    method ApplySts(rmq: RabbitmqCluster) returns (r: Reply<Operation>)
      modifies client
      ensures (client.sys, r) == Controllers.ApplySts(old(client.sys), rmq, tries)
    {
      hide ReadSts, CreateSts, ApiServer.UpdateSts, UpdatedSts, BuiltSts;
      for k := 0 to tries
        invariant Controllers.ApplySts(old(client.sys), rmq, tries)
               == Controllers.ApplySts(client.sys, rmq, tries - k)
      {
        var found := client.GetSts();
        if found.NotFound? {
          var sts := UpdateSts(BuiltSts(rmq), rmq);
          var c := client.PostSts(sts);
          return if c.Ok? then Ok(Created) else Failed;
        }
        if !found.Ok? { return Failed; }
        var sts := UpdateSts(found.value, rmq);
        if sts == found.value { return Ok(Unchanged); }
        var u := client.PutSts(sts, Apply);
        if !u.Conflict? { return if u.Ok? then Ok(Updated) else Failed; }
      }
      return Conflict;
    }

    method AnnotateMap(which: Which, t: Time) returns (ok: bool)
      modifies client
      ensures (client.sys, ok) == Controllers.AnnotateMap(old(client.sys), which, t, tries)
    {
      hide ReadMap, UpdateMap, MarkerKey;
      for k := 0 to tries
        invariant Controllers.AnnotateMap(old(client.sys), which, t, tries)
               == Controllers.AnnotateMap(client.sys, which, t, tries - k)
      {
        var found := client.GetMap(which);
        if found.Ok? {
          var annotations := found.value.annotations[MarkerKey(which) := Stamp(t)];
          var u := client.PutMap(which, found.value.(annotations := annotations), Mark);
          if !u.Conflict? && !u.NotFound? { return u.Ok?; }
        } else if !found.NotFound? {
          return false;
        }
      }
      return false;
    }

    method AnnotateSts(t: Time) returns (ok: bool)
      modifies client
      ensures (client.sys, ok) == Controllers.AnnotateSts(old(client.sys), t, tries)
    {
      hide ReadSts, ApiServer.UpdateSts;
      for k := 0 to tries
        invariant Controllers.AnnotateSts(old(client.sys), t, tries)
               == Controllers.AnnotateSts(client.sys, t, tries - k)
      {
        var found := client.GetSts();
        if found.Ok? {
          var u := client.PutSts(found.value.(annotations := found.value.annotations[CREATED_AT := Stamp(t)]), Mark);
          if !u.Conflict? && !u.NotFound? { return u.Ok?; }
        } else if !found.NotFound? {
          return false;
        }
      }
      return false;
    }

    method AnnotateIfNeeded(b: Builder, op: Operation) returns (ok: bool)
      modifies client
      ensures (client.sys, ok) == Controllers.AnnotateIfNeeded(old(client.sys), b, op, tries)
    {
      hide Controllers.AnnotateMap, Controllers.AnnotateSts;
      ok := true;
      if b.MapBuilder? && op == Updated {
        ok := AnnotateMap(b.which, client.sys.w.now);
      } else if b.StsBuilder? && op == Created {
        ok := AnnotateSts(client.sys.w.now);
      }
    }

    method PrepareSts(rmq: RabbitmqCluster) returns (held: RabbitmqCluster, flow: Flow)
      modifies client
      ensures Step(client.sys, held, flow) == Controllers.PrepareSts(old(client.sys), rmq)
    {
      hide ReadSts, Scaling.Scale, DesiredCapacity, Controllers.SetCondition;
      var sts := client.GetSts();
      if sts.Failed? { return rmq, Error; }
      if sts.Ok? && sts.value.replicas > rmq.spec.replicas {
        held := SetCondition(rmq, ReconcileSuccess, ConditionFalse, "UnsupportedOperation");
        return held, Halt;
      }
      var scaler := new Scaler.PersistenceScaler(client);
      var outcome := scaler.Scale(rmq, DesiredCapacity(rmq.spec));
      if outcome == Scaling.Done { return rmq, Go; }
      held := SetCondition(rmq, ReconcileSuccess, ConditionFalse, "FailedReconcilePVC");
      return held, Error;
    }

    method CreateOrUpdate(rmq: RabbitmqCluster, b: Builder) returns (r: Reply<Operation>)
      modifies client
      ensures (client.sys, r) == Controllers.CreateOrUpdate(old(client.sys), rmq, b, tries)
    {
      hide Controllers.ApplyOther, Controllers.ApplyMap, Controllers.ApplySts;
      match b
      case OtherBuilder(kind) => r := ApplyOther(kind, rmq.spec);
      case MapBuilder(which) => r := ApplyMap(which, rmq);
      case StsBuilder => r := ApplySts(rmq);
    }

    method RunBuilders(rmq: RabbitmqCluster) returns (held: RabbitmqCluster, flow: Flow)
      modifies client
      ensures Step(client.sys, held, flow) == Controllers.RunBuilders(old(client.sys), rmq, Builders(rmq.spec), tries)
    {
      hide Controllers.PrepareSts, Controllers.CreateOrUpdate, Controllers.AnnotateIfNeeded, Controllers.SetCondition;
      var bs := Builders(rmq.spec);
      held := rmq;
      for i := 0 to |bs|
        invariant Controllers.RunBuilders(old(client.sys), rmq, bs, tries)
               == Controllers.RunBuilders(client.sys, held, bs[i..], tries)
      {
        var b := bs[i];
        assert bs[i..][1..] == bs[i + 1..];
        if b.StsBuilder? {
          held, flow := PrepareSts(held);
          if flow != Go { return; }
        }
        var r := CreateOrUpdate(held, b);
        if !r.Ok? {
          held := SetCondition(held, ReconcileSuccess, ConditionFalse, "Error");
          return held, Error;
        }
        var ok := AnnotateIfNeeded(b, r.value);
        if !ok { return held, Error; }
      }
      assert bs[|bs|..] == [];
      return held, Go;
    }

    /* ---- the restart ---- */

    method WriteRestart() returns (ok: bool)
      modifies client
      ensures (client.sys, ok) == Controllers.WriteRestart(old(client.sys), tries)
    {
      hide ReadSts, ApiServer.UpdateSts;
      for k := 0 to tries
        invariant Controllers.WriteRestart(old(client.sys), tries)
               == Controllers.WriteRestart(client.sys, tries - k)
      {
        var found := client.GetSts();
        if !found.Ok? { return false; }
        var now := client.sys.w.now;
        var podAnnotations := found.value.podAnnotations[LAST_RESTART_AT := Stamp(now)];
        var u := client.PutSts(found.value.(podAnnotations := podAnnotations), Restart);
        if !u.Conflict? { return u.Ok?; }
      }
      return false;
    }

    method RestartStatefulSetIfNeeded() returns (outcome: Restarting)
      modifies client
      ensures (client.sys, outcome) == RestartIfNeeded(old(client.sys), tries)
    {
      hide ReadMap, ReadSts, Controllers.WriteRestart, TextAfter;
      var conf := client.GetMap(ServerMap);
      if conf.NotFound? { return Wait; }
      if !conf.Ok? { return RestartFailed; }
      if SERVER_CONF_UPDATED_AT !in conf.value.annotations { return NotMarked; }
      var mark := conf.value.annotations[SERVER_CONF_UPDATED_AT];
      var sts := client.GetSts();
      if sts.NotFound? { return Wait; }
      if !sts.Ok? { return RestartFailed; }
      if LAST_RESTART_AT in sts.value.podAnnotations {
        var last := sts.value.podAnnotations[LAST_RESTART_AT];
        if TextAfter(last, mark, client.sys.w.zone) { return UpToDate(sts.value, mark); }
      }
      var ok := WriteRestart();
      return if ok then RestartDone else RestartFailed;
    }

    method ReconcileStatus(rmq: RabbitmqCluster) returns (held: RabbitmqCluster, flow: Flow)
      modifies client
      ensures Step(client.sys, held, flow) == Controllers.ReconcileStatus(old(client.sys), rmq)
    {
      hide UpdateStatus;
      var user := Some(!rmq.spec.VaultDefaultUserSecretEnabled());
      if rmq.status.userSecret == user { return rmq, Go; }
      held := rmq.(status := rmq.status.(userSecret := user));
      var r := client.PutStatus(held);
      if r.Ok? { return r.value, Go; }
      return held, Error;
    }

    /* ---- commands ---- */

    method RunOnPods(cmd: Command, n: int) returns (ok: bool)
      modifies client
      ensures (client.sys, ok) == Controllers.RunOnPods(old(client.sys), cmd, 0, n)
    {
      hide Exec;
      var i := 0;
      while i < n
        invariant 0 <= i
        invariant Controllers.RunOnPods(old(client.sys), cmd, 0, n)
               == Controllers.RunOnPods(client.sys, cmd, i, n)
        decreases n - i
      {
        ok := client.RunInPod(cmd, i);
        if !ok { return; }
        i := i + 1;
      }
      return true;
    }

    method RunSetPlugins(rmq: RabbitmqCluster, sts: Sts, plugins: StoredMap) returns (left: StoredMap, flow: Flow)
      modifies client
      ensures Cli(client.sys, rmq, sts, left, flow) ==
        Controllers.RunSetPlugins(Cli(old(client.sys), rmq, sts, plugins, Go))
    {
      hide Controllers.RunOnPods, UpdateMap, Pending;
      if !Pending(plugins.annotations, PLUGINS_UPDATED_AT) { return plugins, Go; }
      var ok := RunOnPods(SetPlugins, rmq.spec.replicas);
      if !ok { return plugins, Error; }
      var u := client.PutMap(PluginsMap, plugins.(annotations := plugins.annotations - {PLUGINS_UPDATED_AT}), Apply);
      if !u.Ok? { return plugins, Error; }
      return u.value, Go;
    }

    method RunEnableFeatureFlags(rmq: RabbitmqCluster, sts: Sts, plugins: StoredMap) returns (left: Sts, flow: Flow)
      modifies client
      ensures Cli(client.sys, rmq, left, plugins, flow) ==
        Controllers.RunEnableFeatureFlags(Cli(old(client.sys), rmq, sts, plugins, Go))
    {
      hide Controllers.RunOnPods, ApiServer.UpdateSts, Pending;
      if !Pending(sts.annotations, CREATED_AT) { return sts, Go; }
      var ok := RunOnPods(EnableFeatureFlags, 1);
      if !ok { return sts, Error; }
      var u := client.PutSts(sts.(annotations := sts.annotations - {CREATED_AT}), Apply);
      if !u.Ok? { return sts, Error; }
      return u.value, Go;
    }

    method RunQueueRebalance(rmq: RabbitmqCluster, sts: Sts, plugins: StoredMap)
      returns (left: RabbitmqCluster, flow: Flow)
      modifies client
      ensures Cli(client.sys, left, sts, plugins, flow) ==
        Controllers.RunQueueRebalance(Cli(old(client.sys), rmq, sts, plugins, Go))
    {
      hide Controllers.RunOnPods, UpdateCluster, Pending;
      if !Pending(rmq.annotations, QUEUE_REBALANCE_NEEDED_AT) { return rmq, Go; }
      var ok := RunOnPods(RebalanceQueues, 1);
      if !ok { return rmq, Error; }
      var u := client.PutCluster(rmq.(annotations := rmq.annotations - {QUEUE_REBALANCE_NEEDED_AT}));
      if !u.Ok? { return rmq, Error; }
      return u.value, Go;
    }

    method RunRabbitmqCLICommandsIfAnnotated(rmq: RabbitmqCluster) returns (c: Cli)
      modifies client
      ensures c == RunCommands(old(client.sys), rmq) && client.sys == c.s
    {
      hide ReadSts, ReadMap, ReadyAndUpdated, UpdatedRecently, Controllers.RunSetPlugins,
        Controllers.RunEnableFeatureFlags, Controllers.RunQueueRebalance;
      var sts := client.GetSts();
      if !sts.Ok? { return Cli(client.sys, rmq, NO_STS, NO_MAP, Error); }
      if !ReadyAndUpdated(sts.value) { return Cli(client.sys, rmq, sts.value, NO_MAP, Requeue); }
      var p := client.GetMap(PluginsMap);
      if !p.Ok? { return Cli(client.sys, rmq, sts.value, NO_MAP, Error); }
      var recently := UpdatedRecently(p.value.annotations, client.sys.w.now);
      if recently != Some(false) {
        return Cli(client.sys, rmq, sts.value, p.value, if recently.Some? then Requeue else Error);
      }
      client.Record(Looked(Look(rmq, sts.value, p.value)));
      var plugins, flow := RunSetPlugins(rmq, sts.value, p.value);
      if flow != Go { return Cli(client.sys, rmq, sts.value, plugins, flow); }
      var left;
      left, flow := RunEnableFeatureFlags(rmq, sts.value, plugins);
      if flow != Go { return Cli(client.sys, rmq, left, plugins, flow); }
      var held;
      held, flow := RunQueueRebalance(rmq, left, plugins);
      return Cli(client.sys, held, left, plugins, flow);
    }

    /* ---- the pass ---- */

    method Finish(rmq: RabbitmqCluster) returns (result: Result)
      modifies client
      ensures Pass(client.sys, result) == Controllers.Finish(old(client.sys), rmq)
    {
      hide RunCommands, Controllers.SetCondition;
      var c := RunRabbitmqCLICommandsIfAnnotated(rmq);
      if c.flow == Go {
        var seen := c.rmq.(status := c.rmq.status.(observedGeneration := c.rmq.generation));
        seen := SetCondition(seen, ReconcileSuccess, ConditionTrue, "Success");
        return Completed(c);
      }
      if c.flow == Error {
        var held := SetCondition(c.rmq, ReconcileSuccess, ConditionFalse, "FailedCLICommand");
      }
      return Stopped(c.flow);
    }

    method Prepare(rmq: RabbitmqCluster) returns (held: RabbitmqCluster, flow: Flow)
      modifies client
      ensures Step(client.sys, held, flow) == Preliminaries(old(client.sys), rmq)
    {
      hide Controllers.AddFinalizerIfNeeded, Controllers.UpdateStatusConditions, Controllers.ReconcileTLS,
        Controllers.MarkForQueueRebalance;
      held, flow := AddFinalizerIfNeeded(rmq);
      if flow != Go { return; }
      held, flow := UpdateStatusConditions(held);
      if flow != Go { return; }
      held, flow := ReconcileTLS(held);
      if flow != Go { return; }
      held, flow := MarkForQueueRebalance(held);
    }

    // One pass for an existing resource that is not being deleted.
    method Reconcile() returns (result: Result)
      modifies client
      ensures Pass(client.sys, result) == Controllers.Reconcile(old(client.sys), tries)
    {
      hide ReadCluster, Preliminaries, Controllers.RunBuilders, RestartIfNeeded, Controllers.ReconcileStatus,
        Controllers.Finish, Controllers.SetCondition;
      var r := client.GetCluster();
      if !r.Ok? { return Stopped(Error); }
      client.Record(PassBegan(r.value.spec));
      if r.value.paused {
        var told := SetCondition(r.value, NoWarnings, ConditionFalse, "reconciliation paused");
        return Stopped(Halt);
      }
      var held, flow := Prepare(r.value);
      if flow != Go { return Stopped(flow); }
      held, flow := RunBuilders(held);
      if flow != Go { return Stopped(flow); }
      var restart := RestartStatefulSetIfNeeded();
      if FlowOf(restart) != Go { return Stopped(FlowOf(restart)); }
      held, flow := ReconcileStatus(held);
      if flow != Go { return Stopped(flow); }
      result := Finish(held);
    }
  }
}
