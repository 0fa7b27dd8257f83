// On whose behalf: what a pass deletes, expands and creates answers to the one
// specification that it read.
module OnBehalf {
  import opened Text
  import opened Rfc3339
  import opened Conditions
  import opened Spec
  import opened ConfigMaps
  import opened ApiServer
  import opened Invariants
  import opened Calls
  import opened Controllers
  import opened Passes
  import opened Children
  import opened Runs
  import Metadata
  import Scaling

  // An event within a pass that read this specification.
  predicate ForSpec(e: Event, spec: ClusterSpec) {
    match e
    case PassBegan(_) => false
    case StsDeleteAccepted(_, _, replicas, desired, _) =>
      replicas == spec.replicas && desired == DesiredCapacity(spec)
    case Scaled(_, replicas, desired, _, _) => replicas == spec.replicas && desired == DesiredCapacity(spec)
    case StsCreated(sts, _) => StsSettled(sts, spec)
    case _ => true
  }

  // From one log to a later one there are only such events.
  predicate Serves(a: seq<Event>, b: seq<Event>, spec: ClusterSpec) {
    a <= b && forall k :: |a| <= k < |b| ==> ForSpec(b[k], spec)
  }

  lemma ServesTransitive(a: seq<Event>, b: seq<Event>, c: seq<Event>, spec: ClusterSpec)
    requires Serves(a, b, spec) && Serves(b, c, spec)
    ensures Serves(a, c, spec)
  {
    hide ForSpec;
    forall k | |a| <= k < |c| ensures ForSpec(c[k], spec) {
      if k < |b| { assert c[k] == b[k]; }
    }
  }

  /* ---- the calls ---- */

  lemma {:induction false} OthersLogNothing(w: World, es: seq<EnvStep>)
    ensures ActedAll(w, es).log == w.log
    decreases |es|
  {
    if es != [] {
      OthersLogNothing(Acted(w, es[0]), es[1..]);
      assert Acted(w, es[0]).log == w.log by { hide Seconds, PVCName; }
    }
  }

  lemma EnterLogsNothing(s: Sys)
    ensures Enter(s).w.log == s.w.log
  {
    if s.turns != [] { OthersLogNothing(s.w, s.turns[0].env); }
  }

  lemma ResourceCallsServe(s: Sys, obj: RabbitmqCluster, spec: ClusterSpec)
    ensures Serves(s.w.log, UpdateCluster(s, obj).0.w.log, spec)
    ensures Serves(s.w.log, UpdateStatus(s, obj).0.w.log, spec)
  {
    EnterLogsNothing(s);
    hide Enter;
  }

  lemma MapCreationServes(s: Sys, which: Which, data: Data, a: Annotations, spec: ClusterSpec)
    ensures Serves(s.w.log, CreateMap(s, which, data, a).0.w.log, spec)
  {
    EnterLogsNothing(s);
    hide Enter;
  }

  lemma MapUpdateServes(s: Sys, which: Which, obj: StoredMap, why: Purpose, spec: ClusterSpec)
    ensures Serves(s.w.log, UpdateMap(s, which, obj, why).0.w.log, spec)
  {
    EnterLogsNothing(s);
    hide Enter;
  }

  lemma StsUpdateServes(s: Sys, obj: Sts, why: Purpose, spec: ClusterSpec)
    ensures Serves(s.w.log, UpdateSts(s, obj, why).0.w.log, spec)
  {
    EnterLogsNothing(s);
    hide Enter;
  }

  lemma StsCreationServes(s: Sys, obj: Sts, spec: ClusterSpec)
    requires StsSettled(obj, spec)
    ensures Serves(s.w.log, CreateSts(s, obj).0.w.log, spec)
  {
    EnterLogsNothing(s);
    hide Enter;
  }

  lemma StsDeletionServes(s: Sys, rmq: RabbitmqCluster)
    ensures Serves(s.w.log, DeleteSts(s, rmq, DesiredCapacity(rmq.spec)).0.w.log, rmq.spec)
  {
    EnterLogsNothing(s);
    hide Enter, DesiredCapacity;
  }

  lemma ClaimUpdateServes(s: Sys, name: string, capacity: int, spec: ClusterSpec)
    ensures Serves(s.w.log, UpdateClaim(s, name, capacity).0.w.log, spec)
  {
    EnterLogsNothing(s);
    hide Enter;
  }

  lemma ExecServes(s: Sys, cmd: Command, pod: int, spec: ClusterSpec)
    ensures Serves(s.w.log, Exec(s, cmd, pod).0.w.log, spec)
  {
    EnterLogsNothing(s);
    hide Enter;
  }

  lemma NoteServes(s: Sys, e: Event, spec: ClusterSpec)
    requires ForSpec(e, spec)
    ensures Serves(s.w.log, Note(s, e).w.log, spec)
  {
  }

  /* ---- Scale ---- */

  lemma {:induction false} ListingLogsNothing(s: Sys, name: string, i: nat, n: int)
    ensures Scaling.GetClusterClaims(s, name, i, n).0.w.log == s.w.log
    decreases n - i
  {
    EnterLogsNothing(s);
    hide Enter, PVCName;
    if i < n { ListingLogsNothing(ReadClaim(s, PVCName(name, i)).0, name, i + 1, n); }
  }

  lemma {:induction false} PollLogsNothing(s: Sys, retries: nat)
    ensures Scaling.PollGone(s, retries).0.w.log == s.w.log
    decreases retries
  {
    EnterLogsNothing(s);
    hide Enter;
    if retries > 0 { PollLogsNothing(ReadSts(s).0, retries - 1); }
  }

  lemma RemovalServes(s: Sys, rmq: RabbitmqCluster)
    ensures Serves(s.w.log, Scaling.RemoveSts(s, rmq, DesiredCapacity(rmq.spec)).0.w.log, rmq.spec)
  {
    var s1 := ReadSts(s).0;
    EnterLogsNothing(s);
    StsDeletionServes(s1, rmq);
    PollLogsNothing(DeleteSts(s1, rmq, DesiredCapacity(rmq.spec)).0, Scaling.RETRIES);
    hide DeleteSts, Scaling.PollGone, ForSpec, DesiredCapacity, Enter;
  }

  lemma {:induction false} ScaleUpServes(s: Sys, claims: seq<Scaling.Claim>, desired: int, spec: ClusterSpec)
    ensures Serves(s.w.log, Scaling.ScaleUp(s, claims, desired).0.w.log, spec)
    decreases |claims|
  {
    hide Enter, UpdateClaim, ForSpec;
    if claims != [] {
      var s1 := ReadClaim(s, claims[0].name).0;
      EnterLogsNothing(s);
      assert s1 == Enter(s);
      var s2 := UpdateClaim(s1, claims[0].name, desired).0;
      ClaimUpdateServes(s1, claims[0].name, desired, spec);
      ScaleUpServes(s2, claims[1..], desired, spec);
      ServesTransitive(s.w.log, s2.w.log, Scaling.ScaleUp(s2, claims[1..], desired).0.w.log, spec);
    }
  }

  lemma ScaleServes(s: Sys, rmq: RabbitmqCluster)
    ensures Serves(s.w.log, Scaling.Scale(s, rmq, DesiredCapacity(rmq.spec)).0.w.log, rmq.spec)
  {
    var desired, spec := DesiredCapacity(rmq.spec), rmq.spec;
    var s1 := ReadSts(s).0;
    EnterLogsNothing(s);
    var (s2, claims) := Scaling.GetClusterClaims(s1, rmq.name, 0, spec.replicas);
    ListingLogsNothing(s1, rmq.name, 0, spec.replicas);
    assert s2.w.log == s.w.log;
    if claims.Ok? {
      var small := Scaling.ClaimsNeedingScaling(claims.value, desired);
      var done := Scaled(rmq.name, spec.replicas, desired, s1.w.claims, Scaling.Names(claims.value));
      var s3 := Scaling.RemoveSts(s2, rmq, desired).0;
      RemovalServes(s2, rmq);
      var s4 := Scaling.ScaleUp(s3, small, desired).0;
      ScaleUpServes(s3, small, desired, spec);
      NoteServes(s2, done, spec);
      NoteServes(s4, done, spec);
      ServesTransitive(s2.w.log, s3.w.log, s4.w.log, spec);
      ServesTransitive(s2.w.log, s4.w.log, Note(s4, done).w.log, spec);
      hide Scaling.RemoveSts, Scaling.ScaleUp, Scaling.GetClusterClaims, ForSpec, DesiredCapacity, Enter, Scaling.Names,
        Scaling.Guard, Scaling.ClaimsNeedingScaling, Note;
    }
    hide Serves, Scaling.Guard, Scaling.GetClusterClaims, Enter;
  }

  /* ---- the children ---- */

  lemma SetConditionServes(s: Sys, rmq: RabbitmqCluster, kind: ConditionType, status: ConditionStatus, reason: string,
    spec: ClusterSpec)
    ensures Serves(s.w.log, SetCondition(s, rmq, kind, status, reason).s.w.log, spec)
  {
    var conditions := AfterSetCondition(rmq.status.conditions, kind, status, reason, [], s.w.now);
    ResourceCallsServe(s, rmq.(status := rmq.status.(conditions := conditions)), spec);
    hide UpdateStatus, AfterSetCondition, Serves;
  }

  lemma ApplyOtherServes(s: Sys, kind: Kind, wanted: ClusterSpec, spec: ClusterSpec)
    ensures Serves(s.w.log, ApplyOther(s, kind, wanted).0.w.log, spec)
  {
    EnterLogsNothing(s);
    EnterLogsNothing(Enter(s));
    hide Enter;
  }

  lemma {:induction false} ApplyMapServes(s: Sys, which: Which, rmq: RabbitmqCluster, tries: nat, spec: ClusterSpec)
    ensures Serves(s.w.log, ApplyMap(s, which, rmq, tries).0.w.log, spec)
    decreases tries
  {
    hide ReadMap, CreateMap, UpdateMap, UpdatedData, BuiltData, Metadata.Merged, ForSpec;
    if tries > 0 {
      var (s1, r) := ReadMap(s, which);
      ReadMapLogsNothing(s, which);
      var data := UpdatedData(which, BuiltData(which), rmq.spec);
      MapCreationServes(s1, which, data, Metadata.Merged(Metadata.IsNotKubernetesAnnotation, map[], [rmq.annotations]),
        spec);
      if r.Ok? {
        var obj := r.value.(data := UpdatedData(which, r.value.data, rmq.spec));
        var s2 := UpdateMap(s1, which, obj, Apply).0;
        MapUpdateServes(s1, which, obj, Apply, spec);
        ApplyMapServes(s2, which, rmq, tries - 1, spec);
        ServesTransitive(s1.w.log, s2.w.log, ApplyMap(s2, which, rmq, tries - 1).0.w.log, spec);
      }
    }
  }

  lemma ReadMapLogsNothing(s: Sys, which: Which)
    ensures ReadMap(s, which).0.w.log == s.w.log
  {
    EnterLogsNothing(s);
  }

  lemma {:induction false} AnnotateMapServes(s: Sys, which: Which, t: Time, tries: nat, spec: ClusterSpec)
    ensures Serves(s.w.log, AnnotateMap(s, which, t, tries).0.w.log, spec)
    decreases tries
  {
    hide ReadMap, UpdateMap, ForSpec;
    if tries > 0 {
      var (s1, r) := ReadMap(s, which);
      ReadMapLogsNothing(s, which);
      AnnotateMapServes(s1, which, t, tries - 1, spec);
      if r.Ok? {
        var obj := r.value.(annotations := r.value.annotations[MarkerKey(which) := Stamp(t)]);
        var s2 := UpdateMap(s1, which, obj, Mark).0;
        MapUpdateServes(s1, which, obj, Mark, spec);
        AnnotateMapServes(s2, which, t, tries - 1, spec);
        ServesTransitive(s1.w.log, s2.w.log, AnnotateMap(s2, which, t, tries - 1).0.w.log, spec);
      }
    }
  }

  lemma ReadStsLogsNothing(s: Sys)
    ensures ReadSts(s).0.w.log == s.w.log
  {
    EnterLogsNothing(s);
  }

  lemma BuiltIsForSpec(rmq: RabbitmqCluster)
    ensures StsSettled(UpdatedSts(BuiltSts(rmq), rmq), rmq.spec)
  {
  }

  lemma {:induction false} ApplyStsServes(s: Sys, rmq: RabbitmqCluster, tries: nat)
    ensures Serves(s.w.log, ApplySts(s, rmq, tries).0.w.log, rmq.spec)
    decreases tries
  {
    BuiltIsForSpec(rmq);
    hide ReadSts, CreateSts, UpdateSts, UpdatedSts, BuiltSts, ForSpec, StsSettled;
    if tries > 0 {
      var (s1, r) := ReadSts(s);
      ReadStsLogsNothing(s);
      StsCreationServes(s1, UpdatedSts(BuiltSts(rmq), rmq), rmq.spec);
      if r.Ok? {
        var obj := UpdatedSts(r.value, rmq);
        var s2 := UpdateSts(s1, obj, Apply).0;
        StsUpdateServes(s1, obj, Apply, rmq.spec);
        ApplyStsServes(s2, rmq, tries - 1);
        ServesTransitive(s1.w.log, s2.w.log, ApplySts(s2, rmq, tries - 1).0.w.log, rmq.spec);
      }
    }
  }

  lemma {:induction false} AnnotateStsServes(s: Sys, t: Time, tries: nat, spec: ClusterSpec)
    ensures Serves(s.w.log, AnnotateSts(s, t, tries).0.w.log, spec)
    decreases tries
  {
    hide ReadSts, UpdateSts, ForSpec;
    if tries > 0 {
      var (s1, r) := ReadSts(s);
      ReadStsLogsNothing(s);
      AnnotateStsServes(s1, t, tries - 1, spec);
      if r.Ok? {
        var obj := r.value.(annotations := r.value.annotations[CREATED_AT := Stamp(t)]);
        var s2 := UpdateSts(s1, obj, Mark).0;
        StsUpdateServes(s1, obj, Mark, spec);
        AnnotateStsServes(s2, t, tries - 1, spec);
        ServesTransitive(s1.w.log, s2.w.log, AnnotateSts(s2, t, tries - 1).0.w.log, spec);
      }
    }
  }

  lemma CreateOrUpdateServes(s: Sys, rmq: RabbitmqCluster, b: Builder, tries: nat)
    ensures Serves(s.w.log, CreateOrUpdate(s, rmq, b, tries).0.w.log, rmq.spec)
  {
    match b
    case OtherBuilder(kind) => ApplyOtherServes(s, kind, rmq.spec, rmq.spec);
    case MapBuilder(which) => ApplyMapServes(s, which, rmq, tries, rmq.spec);
    case StsBuilder => ApplyStsServes(s, rmq, tries);
  }

  lemma AnnotateIfNeededServes(s: Sys, b: Builder, op: Operation, tries: nat, spec: ClusterSpec)
    ensures Serves(s.w.log, AnnotateIfNeeded(s, b, op, tries).0.w.log, spec)
  {
    match b
    case OtherBuilder(_) =>
    case MapBuilder(which) => AnnotateMapServes(s, which, s.w.now, tries, spec);
    case StsBuilder => AnnotateStsServes(s, s.w.now, tries, spec);
  }

  lemma ApplyAndAnnotateServes(s: Sys, rmq: RabbitmqCluster, b: Builder, tries: nat)
    ensures var p := ApplyAndAnnotate(s, rmq, b, tries);
            Serves(s.w.log, p.s.w.log, rmq.spec) && (p.flow == Go ==> p.rmq == rmq)
  {
    hide CreateOrUpdate, AnnotateIfNeeded, SetCondition, Serves;
    var (s1, r) := CreateOrUpdate(s, rmq, b, tries);
    CreateOrUpdateServes(s, rmq, b, tries);
    SetConditionServes(s1, rmq, ReconcileSuccess, ConditionFalse, "Error", rmq.spec);
    if r.Ok? { AnnotateIfNeededServes(s1, b, r.value, tries, rmq.spec); }
    ServesTransitive(s.w.log, s1.w.log, ApplyAndAnnotate(s, rmq, b, tries).s.w.log, rmq.spec);
  }

  lemma ReconcilePVCServes(s: Sys, rmq: RabbitmqCluster)
    ensures var p := ReconcilePVC(s, rmq);
            Serves(s.w.log, p.s.w.log, rmq.spec) && (p.flow == Go ==> p.rmq == rmq)
  {
    hide Scaling.Scale, DesiredCapacity, SetCondition, Serves;
    ScaleServes(s, rmq);
    var (s1, scaled) := Scaling.Scale(s, rmq, DesiredCapacity(rmq.spec));
    if scaled != Scaling.Done {
      SetConditionServes(s1, rmq, ReconcileSuccess, ConditionFalse, "FailedReconcilePVC", rmq.spec);
      ServesTransitive(s.w.log, s1.w.log, ReconcilePVC(s, rmq).s.w.log, rmq.spec);
    }
  }

  lemma PrepareStsServes(s: Sys, rmq: RabbitmqCluster)
    ensures var p := PrepareSts(s, rmq);
            Serves(s.w.log, p.s.w.log, rmq.spec) && (p.flow == Go ==> p.rmq == rmq)
  {
    var s1 := ReadSts(s).0;
    ReadStsLogsNothing(s);
    SetConditionServes(s1, rmq, ReconcileSuccess, ConditionFalse, "UnsupportedOperation", rmq.spec);
    ReconcilePVCServes(s1, rmq);
    hide ReadSts, ReconcilePVC, SetCondition;
  }

  lemma RunBuilderServes(s: Sys, rmq: RabbitmqCluster, b: Builder, tries: nat)
    ensures var p := RunBuilder(s, rmq, b, tries);
            Serves(s.w.log, p.s.w.log, rmq.spec) && (p.flow == Go ==> p.rmq == rmq)
  {
    hide PrepareSts, ApplyAndAnnotate, Serves;
    if b.StsBuilder? {
      var p := PrepareSts(s, rmq);
      PrepareStsServes(s, rmq);
      if p.flow == Go {
        ApplyAndAnnotateServes(p.s, rmq, b, tries);
        ServesTransitive(s.w.log, p.s.w.log, ApplyAndAnnotate(p.s, rmq, b, tries).s.w.log, rmq.spec);
      }
    } else {
      ApplyAndAnnotateServes(s, rmq, b, tries);
    }
  }

  lemma {:induction false} RunBuildersServe(s: Sys, rmq: RabbitmqCluster, bs: seq<Builder>, tries: nat)
    ensures Serves(s.w.log, RunBuilders(s, rmq, bs, tries).s.w.log, rmq.spec)
    decreases |bs|
  {
    hide RunBuilder, ForSpec;
    if bs != [] {
      var p := RunBuilder(s, rmq, bs[0], tries);
      RunBuilderServes(s, rmq, bs[0], tries);
      if p.flow == Go {
        RunBuildersServe(p.s, rmq, bs[1..], tries);
        ServesTransitive(s.w.log, p.s.w.log, RunBuilders(p.s, rmq, bs[1..], tries).s.w.log, rmq.spec);
      }
    }
  }

  /* ---- before and after ---- */

  lemma FinalizerServes(s: Sys, rmq: RabbitmqCluster, spec: ClusterSpec)
    ensures Serves(s.w.log, AddFinalizerIfNeeded(s, rmq).s.w.log, spec)
  {
    ResourceCallsServe(s, rmq.(finalizer := true), spec);
    hide UpdateCluster;
  }

  lemma ConditionsServe(s: Sys, rmq: RabbitmqCluster, spec: ClusterSpec)
    ensures Serves(s.w.log, UpdateStatusConditions(s, rmq).s.w.log, spec)
  {
    var (s1, sts) := ReadSts(s);
    var (s2, ep) := ReadEndpoints(s1);
    EnterLogsNothing(s);
    EnterLogsNothing(s1);
    assert s2.w.log == s.w.log;
    var resources := [StatefulSet(if sts.Ok? then Some(ViewOf(sts.value)) else None), Endpoints(Known(ep))];
    var conditions := AfterSetConditions(rmq.status.conditions, resources, s2.w.now);
    ResourceCallsServe(s2, rmq.(status := rmq.status.(conditions := conditions)), spec);
    hide UpdateStatus, AfterSetConditions, ReadSts, ReadEndpoints;
  }

  lemma TLSServes(s: Sys, rmq: RabbitmqCluster, spec: ClusterSpec)
    ensures Serves(s.w.log, ReconcileTLS(s, rmq).s.w.log, spec)
  {
    EnterLogsNothing(s);
    EnterLogsNothing(Enter(s));
    var s1 := CheckTLSSecrets(s, rmq.spec).0;
    assert s1 == Enter(s) || s1 == Enter(Enter(s)) by { hide Enter; }
    SetConditionServes(s, rmq, ReconcileSuccess, ConditionFalse, "TLSError", spec);
    SetConditionServes(s1, rmq, ReconcileSuccess, ConditionFalse, "TLSError", spec);
    hide CheckTLSSecrets, SetCondition, ClusterSpec.TLSEnabled, ClusterSpec.SecretTLSEnabled, Enter;
  }

  lemma RebalanceMarkServes(s: Sys, rmq: RabbitmqCluster, spec: ClusterSpec)
    ensures Serves(s.w.log, MarkForQueueRebalance(s, rmq).s.w.log, spec)
  {
    var s1 := ReadSts(s).0;
    ReadStsLogsNothing(s);
    ResourceCallsServe(s1, rmq.(annotations := rmq.annotations[QUEUE_REBALANCE_NEEDED_AT := Stamp(s1.w.now)]), spec);
    hide UpdateCluster, ReadSts, NeedsQueueRebalance, Pending;
  }

  lemma PreliminariesServe(s: Sys, rmq: RabbitmqCluster, spec: ClusterSpec)
    ensures Serves(s.w.log, Preliminaries(s, rmq).s.w.log, spec)
  {
    hide AddFinalizerIfNeeded, UpdateStatusConditions, ReconcileTLS, MarkForQueueRebalance, Serves;
    var p1 := AddFinalizerIfNeeded(s, rmq);
    FinalizerServes(s, rmq, spec);
    var p2 := UpdateStatusConditions(p1.s, p1.rmq);
    ConditionsServe(p1.s, p1.rmq, spec);
    var p3 := ReconcileTLS(p2.s, p2.rmq);
    TLSServes(p2.s, p2.rmq, spec);
    var p4 := MarkForQueueRebalance(p3.s, p3.rmq);
    RebalanceMarkServes(p3.s, p3.rmq, spec);
    ServesTransitive(s.w.log, p1.s.w.log, p2.s.w.log, spec);
    ServesTransitive(s.w.log, p2.s.w.log, p3.s.w.log, spec);
    ServesTransitive(s.w.log, p3.s.w.log, p4.s.w.log, spec);
  }

  lemma {:induction false} WriteRestartServes(s: Sys, tries: nat, spec: ClusterSpec)
    ensures Serves(s.w.log, WriteRestart(s, tries).0.w.log, spec)
    decreases tries
  {
    hide ReadSts, UpdateSts, ForSpec;
    if tries > 0 {
      var (s1, r) := ReadSts(s);
      ReadStsLogsNothing(s);
      if r.Ok? {
        var obj := r.value.(podAnnotations := r.value.podAnnotations[LAST_RESTART_AT := Stamp(s1.w.now)]);
        var s2 := UpdateSts(s1, obj, Restart).0;
        StsUpdateServes(s1, obj, Restart, spec);
        WriteRestartServes(s2, tries - 1, spec);
        ServesTransitive(s1.w.log, s2.w.log, WriteRestart(s2, tries - 1).0.w.log, spec);
      }
    }
  }

  lemma RestartServes(s: Sys, tries: nat, spec: ClusterSpec)
    ensures Serves(s.w.log, RestartIfNeeded(s, tries).0.w.log, spec)
  {
    var s1 := ReadMap(s, ServerMap).0;
    ReadMapLogsNothing(s, ServerMap);
    var s2 := ReadSts(s1).0;
    ReadStsLogsNothing(s1);
    WriteRestartServes(s2, tries, spec);
    hide ReadMap, ReadSts, WriteRestart, TextAfter;
  }

  lemma {:induction false} PodsServe(s: Sys, cmd: Command, i: nat, n: int, spec: ClusterSpec)
    ensures Serves(s.w.log, RunOnPods(s, cmd, i, n).0.w.log, spec)
    decreases n - i
  {
    hide Exec, ForSpec;
    if i < n {
      var s1 := Exec(s, cmd, i).0;
      ExecServes(s, cmd, i, spec);
      PodsServe(s1, cmd, i + 1, n, spec);
      ServesTransitive(s.w.log, s1.w.log, RunOnPods(s1, cmd, i + 1, n).0.w.log, spec);
    }
  }

  lemma PluginsServe(c: Cli, spec: ClusterSpec)
    ensures Serves(c.s.w.log, RunSetPlugins(c).s.w.log, spec)
  {
    hide RunOnPods, UpdateMap, ForSpec, Pending;
    var s1 := RunOnPods(c.s, SetPlugins, 0, c.rmq.spec.replicas).0;
    PodsServe(c.s, SetPlugins, 0, c.rmq.spec.replicas, spec);
    var obj := c.plugins.(annotations := c.plugins.annotations - {PLUGINS_UPDATED_AT});
    MapUpdateServes(s1, PluginsMap, obj, Apply, spec);
    ServesTransitive(c.s.w.log, s1.w.log, UpdateMap(s1, PluginsMap, obj, Apply).0.w.log, spec);
  }

  lemma FlagsServe(c: Cli, spec: ClusterSpec)
    ensures Serves(c.s.w.log, RunEnableFeatureFlags(c).s.w.log, spec)
  {
    hide RunOnPods, UpdateSts, ForSpec, Pending;
    var s1 := RunOnPods(c.s, EnableFeatureFlags, 0, 1).0;
    PodsServe(c.s, EnableFeatureFlags, 0, 1, spec);
    var obj := c.sts.(annotations := c.sts.annotations - {CREATED_AT});
    StsUpdateServes(s1, obj, Apply, spec);
    ServesTransitive(c.s.w.log, s1.w.log, UpdateSts(s1, obj, Apply).0.w.log, spec);
  }

  lemma RebalanceServes(c: Cli, spec: ClusterSpec)
    ensures Serves(c.s.w.log, RunQueueRebalance(c).s.w.log, spec)
  {
    hide RunOnPods, UpdateCluster, ForSpec, Pending;
    var s1 := RunOnPods(c.s, RebalanceQueues, 0, 1).0;
    PodsServe(c.s, RebalanceQueues, 0, 1, spec);
    var obj := c.rmq.(annotations := c.rmq.annotations - {QUEUE_REBALANCE_NEEDED_AT});
    ResourceCallsServe(s1, obj, spec);
    ServesTransitive(c.s.w.log, s1.w.log, UpdateCluster(s1, obj).0.w.log, spec);
  }

  lemma MarkedCommandsServe(c: Cli, spec: ClusterSpec)
    ensures Serves(c.s.w.log, RunMarkedCommands(c).s.w.log, spec)
  {
    hide RunSetPlugins, RunEnableFeatureFlags, RunQueueRebalance, Serves;
    var c1 := RunSetPlugins(c);
    PluginsServe(c, spec);
    var c2 := RunEnableFeatureFlags(c1);
    FlagsServe(c1, spec);
    var c3 := RunQueueRebalance(c2);
    RebalanceServes(c2, spec);
    ServesTransitive(c.s.w.log, c1.s.w.log, c2.s.w.log, spec);
    ServesTransitive(c.s.w.log, c2.s.w.log, c3.s.w.log, spec);
  }

  lemma CommandsServe(s: Sys, rmq: RabbitmqCluster, spec: ClusterSpec)
    ensures Serves(s.w.log, RunCommands(s, rmq).s.w.log, spec)
  {
    hide RunMarkedCommands, ReadSts, ReadMap, UpdatedRecently, ReadyAndUpdated, ForSpec;
    var (s1, r) := ReadSts(s);
    ReadStsLogsNothing(s);
    var (s2, p) := ReadMap(s1, PluginsMap);
    ReadMapLogsNothing(s1, PluginsMap);
    if r.Ok? && p.Ok? {
      var e := Looked(Look(rmq, r.value, p.value));
      var c := Cli(Note(s2, e), rmq, r.value, p.value, Go);
      LookServes(s2, e, spec);
      MarkedCommandsServe(c, spec);
      ServesTransitive(s2.w.log, c.s.w.log, RunMarkedCommands(c).s.w.log, spec);
    }
  }

  lemma LookServes(s: Sys, e: Event, spec: ClusterSpec)
    requires e.Looked?
    ensures Serves(s.w.log, Note(s, e).w.log, spec)
  {
    NoteServes(s, e, spec);
  }

  lemma FinishServes(s: Sys, rmq: RabbitmqCluster, spec: ClusterSpec)
    ensures Serves(s.w.log, Finish(s, rmq).s.w.log, spec)
  {
    hide RunCommands, SetCondition, Serves;
    var c := RunCommands(s, rmq);
    CommandsServe(s, rmq, spec);
    var seen := c.rmq.(status := c.rmq.status.(observedGeneration := c.rmq.generation));
    SetConditionServes(c.s, seen, ReconcileSuccess, ConditionTrue, "Success", spec);
    SetConditionServes(c.s, c.rmq, ReconcileSuccess, ConditionFalse, "FailedCLICommand", spec);
    if c.flow == Go || c.flow == Error {
      ServesTransitive(s.w.log, c.s.w.log, Finish(s, rmq).s.w.log, spec);
    }
  }

  lemma AfterChildrenServes(s: Sys, rmq: RabbitmqCluster, tries: nat, spec: ClusterSpec)
    ensures Serves(s.w.log, AfterChildren(s, rmq, tries).s.w.log, spec)
  {
    hide RestartIfNeeded, ReconcileStatus, Finish, Serves;
    var s1 := RestartIfNeeded(s, tries).0;
    RestartServes(s, tries, spec);
    var q := ReconcileStatus(s1, rmq);
    ReferencesServe(s1, rmq, spec);
    FinishServes(q.s, q.rmq, spec);
    ServesTransitive(s.w.log, s1.w.log, q.s.w.log, spec);
    ServesTransitive(s.w.log, q.s.w.log, Finish(q.s, q.rmq).s.w.log, spec);
  }

  lemma ReferencesServe(s: Sys, rmq: RabbitmqCluster, spec: ClusterSpec)
    ensures Serves(s.w.log, ReconcileStatus(s, rmq).s.w.log, spec)
  {
    var user := Some(!rmq.spec.VaultDefaultUserSecretEnabled());
    ResourceCallsServe(s, rmq.(status := rmq.status.(userSecret := user)), spec);
    hide UpdateStatus;
  }

  /* ---- the pass and the run ---- */

  // All that a pass does answers to the specification of the resource it read.
  lemma BegunServes(s: Sys, rmq: RabbitmqCluster, tries: nat)
    requires Inv(s.w) && Holds(s.w, rmq)
    ensures Serves(s.w.log, Begun(s, rmq, tries).s.w.log, rmq.spec)
  {
    hide Inv, Holds, Preliminaries, RunBuilders, AfterChildren, SetCondition, Serves, Builders;
    if rmq.paused {
      SetConditionServes(s, rmq, NoWarnings, ConditionFalse, "reconciliation paused", rmq.spec);
    } else {
      var p := Preliminaries(s, rmq);
      PreliminariesServe(s, rmq, rmq.spec);
      PreliminariesKeep(s, rmq);
      SpecOfStep(s, rmq, p.s, p.rmq);
      var q := RunBuilders(p.s, p.rmq, Builders(p.rmq.spec), tries);
      RunBuildersServe(p.s, p.rmq, Builders(p.rmq.spec), tries);
      AfterChildrenServes(q.s, q.rmq, tries, rmq.spec);
      ServesTransitive(s.w.log, p.s.w.log, q.s.w.log, rmq.spec);
      ServesTransitive(s.w.log, q.s.w.log, AfterChildren(q.s, q.rmq, tries).s.w.log, rmq.spec);
    }
  }

  lemma SpecOfStep(s: Sys, rmq: RabbitmqCluster, t: Sys, held: RabbitmqCluster)
    requires StepKeeps(s, rmq, t, held)
    ensures held.spec == rmq.spec
  {
  }

  // The event at index k answers to the specification of the last pass begun.
  predicate Answers(log: seq<Event>, k: nat, b: nat) {
    && b < k < |log| && log[b].PassBegan? && ForSpec(log[k], log[b].spec)
    && forall j :: b < j < k ==> !log[j].PassBegan?
  }

  predicate Answerable(e: Event) {
    e.StsDeleteAccepted? || e.Scaled? || e.StsCreated?
  }

  ghost predicate AllAnswer(log: seq<Event>) {
    forall k :: 0 <= k < |log| && Answerable(log[k]) ==> exists b :: Answers(log, k, b)
  }

  lemma ReconcileAnswers(s: Sys, tries: nat)
    requires Inv(s.w) && AllAnswer(s.w.log)
    ensures AllAnswer(Reconcile(s, tries).s.w.log)
  {
    var (s0, r) := ReadCluster(s);
    EnterSteady(s);
    EnterLogsNothing(s);
    if r.Ok? {
      var rmq, s1 := r.value, Note(s0, PassBegan(r.value.spec));
      assert Holds(s0.w, rmq) && Inv(s0.w);
      PassOpens(s0, rmq);
      BegunServes(s1, rmq, tries);
      assert Reconcile(s, tries) == Begun(s1, rmq, tries);
      hide *;
      PassAnswers(s.w.log, Begun(s1, rmq, tries).s.w.log, rmq.spec);
    }
  }

  lemma PassAnswers(a: seq<Event>, c: seq<Event>, spec: ClusterSpec)
    requires AllAnswer(a) && Serves(a + [PassBegan(spec)], c, spec)
    ensures AllAnswer(c)
  {
    var n := |a|;
    assert c[n] == (a + [PassBegan(spec)])[n];
    forall k | 0 <= k < |c| && Answerable(c[k]) ensures exists b :: Answers(c, k, b) {
      if k < n {
        assert c[k] == (a + [PassBegan(spec)])[k] == a[k];
        var b :| Answers(a, k, b);
        assert forall j :: 0 <= j < n ==> c[j] == (a + [PassBegan(spec)])[j];
        assert Answers(c, k, b);
      } else {
        assert forall j :: n < j < |c| ==> ForSpec(c[j], spec);
        assert Answers(c, k, n);
      }
    }
  }

  lemma {:induction false} RunAnswers(w: World, run: seq<Action>)
    requires Inv(w) && AllAnswer(w.log)
    ensures AllAnswer(Run(w, run).log)
    decreases |run|
  {
    if run != [] {
      var v := Next(w, run[0]);
      NextKeeps(w, run[0]);
      match run[0] {
        case Others(env) => OthersLogNothing(w, env);
        case Begin(turns, tries) => ReconcileAnswers(Sys(w, turns), tries);
      }
      hide AllAnswer, Next, Inv;
      RunAnswers(v, run[1..]);
    }
  }

  // Over any run, each deletion of the StatefulSet, each call of Scale that is
  // done and each creation has the replicas and the size, and the creation the
  // template, of the specification that its own pass read.
  lemma ActsForItsSpec(start: World, run: seq<Action>, k: nat) returns (b: nat)
    requires Fresh(start) && k < |Run(start, run).log| && Answerable(Run(start, run).log[k])
    ensures Answers(Run(start, run).log, k, b)
  {
    FreshIsGood(start);
    RunAnswers(start, run);
    b :| Answers(Run(start, run).log, k, b);
  }

  // The window of an expansion: claims are written while there is no
  // StatefulSet, and to grow; the StatefulSet is deleted for the sake of a
  // claim of this cluster strictly smaller than the specification asks for
  // that the pass read; and it is created directly after a call of Scale that
  // was done for as many replicas, whose listing had every claim of theirs
  // that was there, and they are all as large as the StatefulSet's own
  // template asks for, which is what the specification read asks for.
  lemma ExpansionWindow(start: World, run: seq<Action>, k: nat) returns (b: nat)
    requires Fresh(start) && k < |Run(start, run).log|
    ensures var log := Run(start, run).log;
            && (Answerable(log[k]) ==> Answers(log, k, b))
            && match log[k]
               case ClaimResized(_, before, after, stsPresent) => !stsPresent && before < after
               case StsDeleteAccepted(_, cluster, _, _, claims) =>
                 && cluster == start.cluster.name
                 && ClaimBelow(cluster, log[b].spec.replicas, claims, DesiredCapacity(log[b].spec))
               case StsCreated(sts, claims) =>
                 && k > 0 && log[k - 1].Scaled? && log[k - 1].cluster == start.cluster.name
                 && log[k - 1].replicas == sts.replicas && log[k - 1].desired == Scaling.CapacityOf(sts)
                 && forall i :: 0 <= i < sts.replicas && PVCName(start.cluster.name, i) in log[k - 1].present ==>
                      && PVCName(start.cluster.name, i) in claims
                      && claims[PVCName(start.cluster.name, i)] >= Scaling.CapacityOf(sts)
               case _ => true
  {
    FreshIsGood(start);
    RunKeeps(start, run);
    var log := Run(start, run).log;
    b := 0;
    if Answerable(log[k]) { b := ActsForItsSpec(start, run, k); }
    GoodAt(log, k);
    if log[k].StsCreated? {
      GoodAt(log, k - 1);
      assert Last(log[..k]) == log[k - 1];
    }
    hide Inv, GoodLog, PVCName, Run, DesiredCapacity, ClaimBelow;
  }
}
