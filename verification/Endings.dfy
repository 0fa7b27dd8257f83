// How an undisturbed pass ends, and what it tells in the resource's status.
module Endings {
  import opened Text
  import opened Rfc3339
  import opened Conditions
  import opened Spec
  import opened ApiServer
  import opened Controllers
  import opened Invariants
  import opened Calls
  import opened Children
  import opened Convergence
  import opened Settling
  import opened Recovery
  import opened Applying
  import Ports
  import Scaling

  /* ---- the specification and the secrets ---- */

  predicate VaultTLS(spec: ClusterSpec) {
    spec.vault.Some? && spec.vault.value.pkiIssuerPath != ""
  }

  // Without plain listeners there must be others.
  predicate Reachable(spec: ClusterSpec) {
    spec.tls.disableNonTLSListeners ==> spec.tls.secretName != "" || VaultTLS(spec)
  }

  predicate HasKeys(w: World, name: string, keys: set<string>) {
    name in w.secrets && keys <= w.secrets[name]
  }

  // The secret named has certificate and key, and for mutual TLS the one named
  // for it has the authority's certificate.
  predicate SecretsServe(w: World, spec: ClusterSpec) {
    spec.tls.secretName != "" ==>
      && HasKeys(w, spec.tls.secretName, {"tls.key", "tls.crt"})
      && (spec.tls.caSecretName != "" || VaultTLS(spec) ==> HasKeys(w, spec.tls.caSecretName, {"ca.crt"}))
  }

  lemma InRawTerms(w: World, spec: ClusterSpec)
    ensures Reachable(spec) <==> Ports.Accepted(spec)
    ensures SecretsServe(w, spec) <==> (spec.SecretTLSEnabled() ==> SecretsFit(w, spec))
  {
  }

  /* ---- what the status tells ---- */

  // Whether all replicas are ready, and if not how many are, ...
  predicate TellsReplicas(c: Condition, sts: Option<Sts>) {
    match sts
    case None => c.status == ConditionUnknown
    case Some(s) =>
      if s.ready == s.replicas then c.status == ConditionTrue
      else c.status == ConditionFalse && c.message == Itoa(s.ready) + "/" + Itoa(s.replicas) + " Pods ready"
  }

  // ... whether the service has some address, ...
  predicate TellsService(c: Condition, ep: Option<seq<nat>>) {
    match ep
    case None => c.status == ConditionUnknown
    case Some(subsets) =>
      c.status == if exists k :: 0 <= k < |subsets| && subsets[k] > 0 then ConditionTrue else ConditionFalse
  }

  // ... and whether memory limit and request are equal.
  predicate TellsMemory(c: Condition, sts: Option<Sts>) {
    match sts
    case None => c.status == ConditionUnknown
    case Some(s) =>
      c.status == if s.template.memoryLimit == s.template.memoryRequest then ConditionTrue else ConditionFalse
  }

  // Four conditions, the first three telling these.
  predicate Assessed(cs: seq<Condition>, sts: Option<Sts>, ep: Option<seq<nat>>) {
    FourInOrder(cs) && TellsReplicas(cs[0], sts) && TellsService(cs[1], ep) && TellsMemory(cs[2], sts)
  }

  // The fourth condition, as a pass has it of itself ...
  predicate Says(cs: seq<Condition>, status: ConditionStatus, reason: string) {
    |cs| == 4 && cs[3].status == status && cs[3].reason == reason
  }

  // ... or has left it.
  predicate SaysAsBefore(cs: seq<Condition>, was: seq<Condition>) {
    |cs| == 4 && (cs[3] in was || ((forall d :: d in was ==> d.kind != ReconcileSuccess) &&
                                   Says(cs, ConditionUnknown, "Initialising")))
  }

  function ViewedSts(sts: Option<Sts>): Option<StsView> {
    if sts.Some? then Some(ViewOf(sts.value)) else None
  }

  lemma ReplicasTold(cs: seq<Condition>, sts: Option<Sts>, ep: Option<seq<nat>>, now: Time)
    ensures TellsReplicas(AfterSetConditions(cs, [StatefulSet(ViewedSts(sts)), Endpoints(ep)], now)[0], sts)
  {
    ReplicasAreJudged(cs, ViewedSts(sts), ep, [StatefulSet(ViewedSts(sts)), Endpoints(ep)], now);
    hide AfterSetConditions, Itoa;
  }

  lemma ServiceTold(cs: seq<Condition>, sts: Option<Sts>, ep: Option<seq<nat>>, now: Time)
    ensures TellsService(AfterSetConditions(cs, [StatefulSet(ViewedSts(sts)), Endpoints(ep)], now)[1], ep)
  {
    ServiceIsJudged(cs, ViewedSts(sts), ep, [StatefulSet(ViewedSts(sts)), Endpoints(ep)], now);
    hide AfterSetConditions;
  }

  lemma MemoryTold(cs: seq<Condition>, sts: Option<Sts>, ep: Option<seq<nat>>, now: Time)
    ensures TellsMemory(AfterSetConditions(cs, [StatefulSet(ViewedSts(sts)), Endpoints(ep)], now)[2], sts)
  {
    MemoryIsJudged(cs, ViewedSts(sts), ep, [StatefulSet(ViewedSts(sts)), Endpoints(ep)], now);
    hide AfterSetConditions;
  }

  lemma AssessedAfter(cs: seq<Condition>, sts: Option<Sts>, ep: Option<seq<nat>>, now: Time)
    ensures var ds := AfterSetConditions(cs, [StatefulSet(ViewedSts(sts)), Endpoints(ep)], now);
            Assessed(ds, sts, ep) && SaysAsBefore(ds, cs)
  {
    var rs := [StatefulSet(ViewedSts(sts)), Endpoints(ep)];
    assert FourInOrder(AfterSetConditions(cs, rs, now));
    hide AfterSetConditions, TellsReplicas, TellsService, TellsMemory, LastOf;
    ReplicasTold(cs, sts, ep, now);
    ServiceTold(cs, sts, ep, now);
    MemoryTold(cs, sts, ep, now);
    SuccessIsCarriedOver(cs, rs, now);
  }

  // Setting the fourth leaves the others as assessed.
  lemma SaidAfter(cs: seq<Condition>, sts: Option<Sts>, ep: Option<seq<nat>>, status: ConditionStatus, reason: string,
    now: Time)
    requires Assessed(cs, sts, ep)
    ensures var ds := AfterSetCondition(cs, ReconcileSuccess, status, reason, [], now);
            Assessed(ds, sts, ep) && Says(ds, status, reason)
  {
    forall j | 0 <= j < 4 {
      ConditionIsSet(cs, ReconcileSuccess, status, reason, [], now, j);
    }
    hide AfterSetCondition;
  }

  /* ---- the steps before the children ---- */

  // Only the resource differs, and of it only status and version.
  predicate StatusOnly(w: World, v: World) {
    && v == w.(cluster := v.cluster, nextId := v.nextId)
    && v.cluster == w.cluster.(status := v.cluster.status, rv := v.cluster.rv)
  }

  lemma FinalizerAdded(s: Sys, n: int, rmq: RabbitmqCluster)
    requires Quiet(s, n) && n > 0 && rmq == s.w.cluster
    ensures var p := AddFinalizerIfNeeded(s, rmq);
            && p.flow == Go && p.rmq == p.s.w.cluster && Quiet(p.s, n - 1) && p.s.w.cluster.finalizer
            && StatusOnly(s.w.(cluster := rmq.(finalizer := true), log := p.s.w.log), p.s.w)
            && p.s.w.cluster.status == rmq.status
  {
    QuietCall(s, n);
  }

  lemma StatusStored(s: Sys, n: int, rmq: RabbitmqCluster)
    requires Quiet(s, n) && n > 0 && rmq == s.w.cluster.(status := rmq.status)
    ensures var (v, r) := UpdateStatus(s, rmq);
            && r.Ok? && r.value == v.w.cluster && StatusOnly(s.w, v.w) && v.w.cluster.status == rmq.status
            && Quiet(v, n - 1)
  {
    QuietCall(s, n);
  }

  // The conditions of the resource as the store has it now.
  function Computed(w: World): seq<Condition> {
    AfterSetConditions(w.cluster.status.conditions,
      [StatefulSet(ViewedSts(w.sts)), Endpoints(w.endpoints)], w.now)
  }

  lemma ConditionsComputed(s: Sys, n: int, rmq: RabbitmqCluster)
    requires Quiet(s, n) && n > 3 && rmq == s.w.cluster
    ensures var s2 := Enter(Enter(s)); var changed := rmq.(status := rmq.status.(conditions := Computed(s.w)));
            && s2.w == s.w && Quiet(s2, n - 2)
            && UpdateStatusConditions(s, rmq) ==
               if Computed(s.w) == rmq.status.conditions then Step(s2, rmq, Go)
               else
                 var (s3, r) := UpdateStatus(s2, changed);
                 if r.Ok? then Step(s3, r.value, Go) else Step(s3, changed, if r.Conflict? then Requeue else Error)
  {
    QuietCall(s, n);
    QuietCall(Enter(s), n - 1);
    var (s1, sts) := ReadSts(s);
    var (s2, ep) := ReadEndpoints(s1);
    var w, view := s.w, ViewedSts(s.w.sts);
    assert s2.w == w && !sts.Failed? && !ep.Failed? && Known(ep) == w.endpoints;
    assert (if sts.Ok? then Some(ViewOf(sts.value)) else None) == view;
    hide AfterSetConditions, ViewOf, UpdateStatus, Quiet, ReadSts, ReadEndpoints, Enter, Known;
    assert Computed(w) ==
      AfterSetConditions(w.cluster.status.conditions, [StatefulSet(view), Endpoints(Known(ep))], w.now);
  }

  lemma ConditionsAssessed(s: Sys, n: int, rmq: RabbitmqCluster)
    requires Quiet(s, n) && n > 3 && rmq == s.w.cluster
    ensures var p := UpdateStatusConditions(s, rmq); var st := p.s.w.cluster.status;
            && p.flow == Go && p.rmq == p.s.w.cluster && Quiet(p.s, n - 3) && StatusOnly(s.w, p.s.w)
            && st == rmq.status.(conditions := st.conditions) && Assessed(st.conditions, s.w.sts, s.w.endpoints)
            && SaysAsBefore(st.conditions, rmq.status.conditions)
  {
    AssessedAfter(rmq.status.conditions, s.w.sts, s.w.endpoints, s.w.now);
    ConditionsComputed(s, n, rmq);
    var s2 := Enter(Enter(s));
    QuietLess(s2, n - 2);
    StatusStored(s2, n - 2, rmq.(status := rmq.status.(conditions := Computed(s.w))));
    hide AfterSetConditions, Assessed, SaysAsBefore, ViewOf, UpdateStatus, Quiet, Enter, UpdateStatusConditions;
  }

  lemma StatusSaid(s: Sys, n: int, rmq: RabbitmqCluster, sts: Option<Sts>, ep: Option<seq<nat>>,
    status: ConditionStatus, reason: string)
    requires Quiet(s, n) && n > 0 && rmq == s.w.cluster.(status := rmq.status)
    requires Assessed(rmq.status.conditions, sts, ep)
    ensures var p := SetReconcileSuccess(s, rmq, status, reason); var st := p.s.w.cluster.status;
            && StatusOnly(s.w, p.s.w) && p.rmq == p.s.w.cluster && Quiet(p.s, n - 1)
            && st == rmq.status.(conditions := st.conditions)
            && Assessed(st.conditions, sts, ep) && Says(st.conditions, status, reason)
  {
    QuietCall(s, n);
    SaidAfter(rmq.status.conditions, sts, ep, status, reason, s.w.now);
    hide AfterSetCondition, Assessed, Says;
  }

  // The secrets are read, and judged as they are.
  lemma SecretsChecked(s: Sys, n: int, spec: ClusterSpec)
    requires Quiet(s, n) && n > 2 && spec.tls.secretName != ""
    ensures var (v, fit) := CheckTLSSecrets(s, spec);
            v.w == s.w && Quiet(v, n - 2) && (fit <==> SecretsServe(s.w, spec))
  {
    QuietCall(s, n);
    QuietCall(Enter(s), n - 1);
  }

  lemma TLSChecked(s: Sys, n: int, rmq: RabbitmqCluster, ep: Option<seq<nat>>)
    requires Quiet(s, n) && n > 3 && rmq == s.w.cluster && Assessed(rmq.status.conditions, s.w.sts, ep)
    ensures var p := ReconcileTLS(s, rmq); var st := p.s.w.cluster.status;
            && p.flow == (if !Reachable(rmq.spec) then Halt else if !SecretsServe(s.w, rmq.spec) then Error else Go)
            && StatusOnly(s.w, p.s.w) && p.rmq == p.s.w.cluster && Quiet(p.s, n - 3)
            && st == rmq.status.(conditions := st.conditions) && Assessed(st.conditions, s.w.sts, ep)
            && if p.flow == Go then st == rmq.status else Says(st.conditions, ConditionFalse, "TLSError")
  {
    InRawTerms(s.w, rmq.spec);
    StatusSaid(s, n, rmq, s.w.sts, ep, ConditionFalse, "TLSError");
    if rmq.spec.tls.secretName != "" {
      SecretsChecked(s, n, rmq.spec);
      StatusSaid(CheckTLSSecrets(s, rmq.spec).0, n - 2, rmq, s.w.sts, ep, ConditionFalse, "TLSError");
    }
    hide CheckTLSSecrets, SetCondition, Assessed, Says, SecretsServe, SecretsFit;
  }

  // A rolling update of more than one replica asks for queues to be rebalanced
  // after it.
  predicate Rebalances(w: World) {
    && w.sts.Some? && w.sts.value.currentRevision != w.sts.value.updateRevision
    && !w.cluster.spec.skipPostDeploySteps && w.cluster.spec.replicas > 1
  }

  function AnnotationsAfter(w: World): Annotations {
    var a, key := w.cluster.annotations, QUEUE_REBALANCE_NEEDED_AT;
    if Rebalances(w) && (key !in a || a[key] == Words("")) then a[key := Stamp(w.now)] else a
  }

  lemma RebalanceMarked(s: Sys, n: int, rmq: RabbitmqCluster)
    requires Quiet(s, n) && n > 1 && rmq == s.w.cluster
    ensures var p := MarkForQueueRebalance(s, rmq); var c := p.s.w.cluster;
            && p.flow == Go && p.rmq == c && Quiet(p.s, n - 2)
            && p.s.w == s.w.(cluster := c, nextId := p.s.w.nextId, log := p.s.w.log)
            && c == rmq.(annotations := AnnotationsAfter(s.w), rv := c.rv)
  {
    QuietCall(s, n);
    QuietCall(Enter(s), n - 1);
    hide Removal;
  }

  // The four steps together.
  ghost predicate PrefaceTold(w: World, p: Step) {
    var c, cs := p.s.w.cluster, p.s.w.cluster.status.conditions;
    && p.s.w == w.(cluster := c, nextId := p.s.w.nextId, log := p.s.w.log)
    && c == w.cluster.(status := w.cluster.status.(conditions := cs), annotations := c.annotations, rv := c.rv,
         finalizer := true)
    && Assessed(cs, w.sts, w.endpoints) && p.rmq == c
    && p.flow == (if !Reachable(w.cluster.spec) then Halt else if !SecretsServe(w, w.cluster.spec) then Error else Go)
    && if p.flow == Go then c.annotations == AnnotationsAfter(w) && SaysAsBefore(cs, w.cluster.status.conditions)
       else c.annotations == w.cluster.annotations && Says(cs, ConditionFalse, "TLSError")
  }

  lemma PreliminariesEnd(s: Sys, n: int, rmq: RabbitmqCluster)
    requires Quiet(s, n) && n > 9 && rmq == s.w.cluster
    ensures var p := Preliminaries(s, rmq); PrefaceTold(s.w, p) && Quiet(p.s, n - 9)
  {
    hide Quiet, AddFinalizerIfNeeded, UpdateStatusConditions, ReconcileTLS, MarkForQueueRebalance, Assessed, Says,
      SaysAsBefore;
    var p1 := AddFinalizerIfNeeded(s, rmq);
    FinalizerAdded(s, n, rmq);
    var p2 := UpdateStatusConditions(p1.s, p1.rmq);
    ConditionsAssessed(p1.s, n - 1, p1.rmq);
    var p3 := ReconcileTLS(p2.s, p2.rmq);
    TLSChecked(p2.s, n - 4, p2.rmq, s.w.endpoints);
    QuietLess(p3.s, n - 7);
    if p3.flow == Go {
      RebalanceMarked(p3.s, n - 7, p3.rmq);
    }
  }

  /* ---- the children ---- */

  // The StatefulSet has more replicas than are wanted ...
  predicate TooMany(w: World) {
    w.sts.Some? && w.sts.value.replicas > w.cluster.spec.replicas
  }

  // ... or volumes that cannot come to the size wanted: they are larger, or
  // there are none yet.
  predicate Unsizable(w: World) {
    w.sts.Some? &&
      var has := if w.sts.value.storage.Some? then w.sts.value.storage.value else 0;
      has > w.cluster.spec.storage || (has == 0 && w.cluster.spec.storage != 0)
  }

  lemma GrowableInRawTerms(w: World)
    ensures Growable(w, w.cluster.spec) <==> !TooMany(w) && !Unsizable(w)
    ensures DesiredCapacity(w.cluster.spec) == w.cluster.spec.storage
  {
  }

  function Refusal(w: World): (Flow, string) {
    if TooMany(w) then (Halt, "UnsupportedOperation") else (Error, "FailedReconcilePVC")
  }

  // Only the resource's conditions differ, and the fourth says this.
  ghost predicate Declined(w: World, p: Step, ep: Option<seq<nat>>, flow: Flow, reason: string) {
    var st := p.s.w.cluster.status;
    && p.flow == flow && StatusOnly(w, p.s.w) && st == w.cluster.status.(conditions := st.conditions)
    && Assessed(st.conditions, w.sts, ep) && Says(st.conditions, ConditionFalse, reason)
  }

  lemma PrepareDeclines(s: Sys, n: int, rmq: RabbitmqCluster, ep: Option<seq<nat>>)
    requires Quiet(s, n) && n > 3 && rmq == s.w.cluster && Assessed(rmq.status.conditions, s.w.sts, ep)
    requires TooMany(s.w) || Unsizable(s.w)
    ensures Declined(s.w, PrepareSts(s, rmq), ep, Refusal(s.w).0, Refusal(s.w).1)
  {
    QuietCall(s, n);
    var s1 := Enter(s);
    QuietCall(s1, n - 1);
    GrowableInRawTerms(s.w);
    if TooMany(s.w) {
      StatusSaid(s1, n - 1, rmq, s.w.sts, ep, ConditionFalse, "UnsupportedOperation");
    } else {
      var s2 := Scaling.Scale(s1, rmq, DesiredCapacity(rmq.spec)).0;
      RefusalsAreExact(s1, rmq, DesiredCapacity(rmq.spec));
      StatusSaid(s2, n - 2, rmq, s.w.sts, ep, ConditionFalse, "FailedReconcilePVC");
    }
    hide SetCondition, Scaling.Scale, Assessed, Says, Quiet, Enter;
  }

  // The builders before the last have gone; the rest of the store is as it was.
  ghost predicate DeclinedLate(w: World, p: Step, ep: Option<seq<nat>>, flow: Flow, reason: string) {
    var v, st := p.s.w, p.s.w.cluster.status;
    && p.flow == flow && v.sts == w.sts && v.claims == w.claims && v.now == w.now
    && v.cluster == w.cluster.(status := w.cluster.status.(conditions := st.conditions), rv := v.cluster.rv)
    && Assessed(st.conditions, w.sts, ep) && Says(st.conditions, ConditionFalse, reason)
  }

  lemma DeclinedAfter(w: World, v: World, p: Step, ep: Option<seq<nat>>, flow: Flow, reason: string)
    requires StsSide(w, v) && Declined(v, p, ep, flow, reason)
    ensures DeclinedLate(w, p, ep, flow, reason)
  {
    hide Dated, Assessed, Says;
  }

  lemma StsStops(s: Sys, rmq: RabbitmqCluster, tries: nat)
    requires PrepareSts(s, rmq).flow != Go
    ensures RunBuilder(s, rmq, StsBuilder, tries) == PrepareSts(s, rmq)
  {
    hide PrepareSts, ApplyAndAnnotate;
  }

  // The other builders leave what bears on the refusal.
  lemma StillDeclined(w: World, v: World)
    requires StsSide(w, v)
    ensures v.sts == w.sts && v.cluster == w.cluster && Refusal(v) == Refusal(w)
    ensures TooMany(v) == TooMany(w) && Unsizable(v) == Unsizable(w)
  {
    hide Dated;
  }

  lemma FlowOfDeclined(w: World, p: Step, ep: Option<seq<nat>>)
    requires Declined(w, p, ep, Refusal(w).0, Refusal(w).1)
    ensures p.flow != Go && p.flow == Refusal(w).0
  {
    hide Assessed, Says;
  }

  lemma ChildrenDecline(s: Sys, n: int, rmq: RabbitmqCluster, tries: nat, ep: Option<seq<nat>>)
    requires Quiet(s, n) && n > 42 && tries > 0 && rmq == s.w.cluster && (TooMany(s.w) || Unsizable(s.w))
    requires Assessed(rmq.status.conditions, s.w.sts, ep)
    ensures DeclinedLate(s.w, RunBuilders(s, rmq, Builders(rmq.spec), tries), ep, Refusal(s.w).0, Refusal(s.w).1)
  {
    var bs := AllBut(rmq.spec);
    hide *;
    StsComesLast(rmq.spec);
    ChildrenGo(s, n, rmq, bs, tries);
    BuildersSplit(s, rmq, bs, StsBuilder, tries);
    var p := RunBuilders(s, rmq, bs, tries);
    StillDeclined(s.w, p.s.w);
    PrepareDeclines(p.s, n - 4 * |bs|, rmq, ep);
    FlowOfDeclined(p.s.w, PrepareSts(p.s, rmq), ep);
    StsStops(p.s, rmq, tries);
    DeclinedAfter(s.w, p.s.w, PrepareSts(p.s, rmq), ep, Refusal(s.w).0, Refusal(s.w).1);
  }

  /* ---- the rest ---- */

  predicate ReadyNow(w: World) {
    && w.sts.Some? && w.sts.value.ready == w.cluster.spec.replicas
    && w.sts.value.currentRevision == w.sts.value.updateRevision
  }

  function PluginsMark(w: World): Option<Value> {
    if w.plugins.Some? then Lookup(w.plugins.value.annotations, PLUGINS_UPDATED_AT) else None
  }

  // The plugins were changed less than two seconds ago.
  predicate Young(w: World) {
    match PluginsMark(w)
    case Some(Stamp(t)) => Seconds(w.now) - Seconds(t) < 2
    case _ => false
  }

  predicate Unreadable(w: World) {
    match PluginsMark(w)
    case Some(Words(_)) => true
    case _ => false
  }

  // How the commands go: not before all replicas are ready on one revision, nor
  // while the change of the plugins is young.
  function CommandFlow(w: World): Flow {
    if !ReadyNow(w) then Requeue else if Unreadable(w) then Error else if Young(w) then Requeue else Go
  }

  // The copies with which the commands start.
  function Looking(s: Sys, rmq: RabbitmqCluster): Cli
    requires s.w.sts.Some? && s.w.plugins.Some?
  {
    var sts, m := s.w.sts.value, s.w.plugins.value;
    Cli(Note(Enter(Enter(s)), Looked(Look(rmq, sts, m))), rmq, sts, m, Go)
  }

  lemma FlowInRawTerms(w: World)
    requires w.sts.Some? && w.plugins.Some? && w.sts.value.replicas == w.cluster.spec.replicas
    ensures ReadyNow(w) <==> ReadyAndUpdated(w.sts.value)
    ensures UpdatedRecently(w.plugins.value.annotations, w.now) == if Unreadable(w) then None else Some(Young(w))
  {
  }

  lemma CommandsDecided(s: Sys, n: int, rmq: RabbitmqCluster)
    requires Quiet(s, n) && n > 2 && rmq == s.w.cluster && s.w.sts.Some? && s.w.plugins.Some?
    requires s.w.sts.value.replicas == rmq.spec.replicas
    ensures var c := RunCommands(s, rmq);
            if CommandFlow(s.w) == Go then c == RunMarkedCommands(Looking(s, rmq))
            else c.flow == CommandFlow(s.w) && c.s.w == s.w && c.rmq == rmq && Quiet(c.s, n - 2)
    ensures Enter(Enter(s)).w == s.w && Quiet(Looking(s, rmq).s, n - 2)
  {
    FlowInRawTerms(s.w);
    QuietCall(s, n);
    QuietCall(Enter(s), n - 1);
    QuietLess(Enter(s), n - 1);
    hide RunMarkedCommands, UpdatedRecently, ReadyAndUpdated, Enter, Unreadable, Young, ReadyNow, Quiet;
  }

  // What the commands leave when they run.
  ghost predicate Commanded(w: World, c: Cli) {
    var v := c.s.w;
    && c.flow == Go && c.rmq == v.cluster && Quiet(c.s, 1) && v.now == w.now && PluginsMark(v) == None && ReadyNow(v)
    && c.rmq == w.cluster.(annotations := c.rmq.annotations, rv := c.rmq.rv)
  }

  lemma CommandsRun(s: Sys, n: int, rmq: RabbitmqCluster)
    requires Quiet(s, n) && n > Count(rmq.spec.replicas) + 6 && rmq == s.w.cluster && Applied(s.w)
    requires s.w.sts.Some? && s.w.plugins.Some? && CommandFlow(s.w) == Go
    requires s.w.sts.value.replicas == rmq.spec.replicas && Enter(Enter(s)).w == s.w && Quiet(Looking(s, rmq).s, n)
    ensures Commanded(s.w, RunMarkedCommands(Looking(s, rmq)))
  {
    var c := Looking(s, rmq);
    var d := RunMarkedCommands(c);
    FlowInRawTerms(s.w);
    assert c.s.w == s.w.(log := c.s.w.log) && Sound(s.w) && PluginsWaited(s.w);
    LogOnly(s.w, c.s.w);
    hide RunMarkedCommands, UpdatedRecently, ReadyAndUpdated, Enter, Unreadable, Young, StsFits, Applied, Sound;
    AllHeal(c, n);
    assert Kin(c.s.w, d.s.w) && ReadyNow(d.s.w);
    QuietLess(d.s, n - 5 - Count(rmq.spec.replicas));
    hide Quiet, Kin, Pending;
  }

  lemma CommandsEnd(s: Sys, n: int, rmq: RabbitmqCluster)
    requires Quiet(s, n) && n > Count(rmq.spec.replicas) + 8 && rmq == s.w.cluster && Applied(s.w)
    ensures var c := RunCommands(s, rmq);
            if CommandFlow(s.w) == Go then Commanded(s.w, c)
            else c.flow == CommandFlow(s.w) && c.s.w == s.w && c.rmq == rmq && Quiet(c.s, 1)
  {
    AppliedFits(s.w);
    CommandsDecided(s, n, rmq);
    hide Quiet, RunMarkedCommands, RunCommands, CommandFlow, Enter, Applied, Commanded;
    if CommandFlow(s.w) == Go {
      CommandsRun(s, n - 2, rmq);
    } else {
      QuietLess(RunCommands(s, rmq).s, n - 2);
    }
  }

  // How the pass ends when its children are in order, told by the store then.
  ghost predicate FinishedAs(w: World, p: Pass, sts: Option<Sts>, ep: Option<seq<nat>>) {
    var v, st := p.s.w, p.s.w.cluster.status;
    && Assessed(st.conditions, sts, ep) && v.cluster.finalizer == w.cluster.finalizer
    && v.cluster.spec == w.cluster.spec && st.userSecret == w.cluster.status.userSecret && v.now == w.now
    && match CommandFlow(w)
       case Go =>
         && p.result.Completed? && ReadyNow(v) && PluginsMark(v) == None
         && Says(st.conditions, ConditionTrue, "Success") && st.observedGeneration == w.cluster.generation
       case Error =>
         && p.result == Stopped(Error) && StatusOnly(w, v) && Says(st.conditions, ConditionFalse, "FailedCLICommand")
       case _ => p.result == Stopped(Requeue) && v == w
  }

  lemma FinishInSteps(s: Sys, rmq: RabbitmqCluster)
    ensures var c := RunCommands(s, rmq);
            var seen := c.rmq.(status := c.rmq.status.(observedGeneration := c.rmq.generation));
            Finish(s, rmq) ==
              if c.flow == Go then Pass(SetReconcileSuccess(c.s, seen, ConditionTrue, "Success").s, Completed(c))
              else if c.flow == Error then
                Pass(SetReconcileSuccess(c.s, c.rmq, ConditionFalse, "FailedCLICommand").s, Stopped(Error))
              else Pass(c.s, Stopped(c.flow))
  {
    hide RunCommands, SetCondition;
  }

  lemma SuccessIsSaid(w: World, c: Cli, sts: Option<Sts>, ep: Option<seq<nat>>)
    requires Commanded(w, c) && Assessed(w.cluster.status.conditions, sts, ep) && CommandFlow(w) == Go
    ensures var seen := c.rmq.(status := c.rmq.status.(observedGeneration := c.rmq.generation));
            FinishedAs(w, Pass(SetReconcileSuccess(c.s, seen, ConditionTrue, "Success").s, Completed(c)), sts, ep)
  {
    var seen := c.rmq.(status := c.rmq.status.(observedGeneration := c.rmq.generation));
    hide Quiet, SetCondition, Assessed, Says, CommandFlow;
    StatusSaid(c.s, 1, seen, sts, ep, ConditionTrue, "Success");
  }

  lemma FailureIsSaid(s: Sys, rmq: RabbitmqCluster, sts: Option<Sts>, ep: Option<seq<nat>>)
    requires Quiet(s, 1) && rmq == s.w.cluster && Assessed(rmq.status.conditions, sts, ep) && CommandFlow(s.w) == Error
    ensures FinishedAs(s.w,
      Pass(SetReconcileSuccess(s, rmq, ConditionFalse, "FailedCLICommand").s, Stopped(Error)), sts, ep)
  {
    hide Quiet, SetCondition, Assessed, Says, CommandFlow;
    StatusSaid(s, 1, rmq, sts, ep, ConditionFalse, "FailedCLICommand");
  }

  lemma FinishEnds(s: Sys, n: int, rmq: RabbitmqCluster, sts: Option<Sts>, ep: Option<seq<nat>>)
    requires Quiet(s, n) && n > Count(rmq.spec.replicas) + 8 && rmq == s.w.cluster && Applied(s.w)
    requires Assessed(rmq.status.conditions, sts, ep)
    ensures FinishedAs(s.w, Finish(s, rmq), sts, ep)
  {
    var c := RunCommands(s, rmq);
    CommandsEnd(s, n, rmq);
    FinishInSteps(s, rmq);
    hide Quiet, Applied, RunCommands, Finish, SetCondition, Assessed, Says, CommandFlow, SetReconcileSuccess;
    if CommandFlow(s.w) == Go {
      SuccessIsSaid(s.w, c, sts, ep);
    } else if CommandFlow(s.w) == Error {
      FailureIsSaid(c.s, rmq, sts, ep);
    }
  }

  // The default user's secret is the operator's unless Vault has it.
  predicate OwnUser(spec: ClusterSpec) {
    spec.vault.None? || spec.vault.value.defaultUserPath == ""
  }

  lemma SecretRecorded(s: Sys, n: int, rmq: RabbitmqCluster)
    requires Quiet(s, n) && n > 1 && rmq == s.w.cluster
    ensures var p := ReconcileStatus(s, rmq);
            && p.flow == Go && p.rmq == p.s.w.cluster && Quiet(p.s, n - 1) && StatusOnly(s.w, p.s.w)
            && p.s.w.cluster.status == rmq.status.(userSecret := Some(OwnUser(rmq.spec)))
  {
    StatusStored(s, n, rmq.(status := rmq.status.(userSecret := Some(!rmq.spec.VaultDefaultUserSecretEnabled()))));
    QuietLess(s, n);
    hide UpdateStatus, Quiet;
  }

  // What bears on how the commands go is the same, and of the resource all but
  // its status.
  predicate SameFlow(w: World, v: World) {
    && v.now == w.now && v.plugins == w.plugins && v.cluster.spec == w.cluster.spec
    && v.cluster == w.cluster.(rv := v.cluster.rv, status := v.cluster.status)
    && w.sts.Some? && v.sts.Some? && v.sts.value.ready == w.sts.value.ready
    && v.sts.value.currentRevision == w.sts.value.currentRevision
    && v.sts.value.updateRevision == w.sts.value.updateRevision
  }

  lemma FlowStays(w: World, v: World)
    requires SameFlow(w, v)
    ensures CommandFlow(v) == CommandFlow(w)
  {
  }

  lemma RestartLeavesFlow(w: World, v: World, u: World)
    requires RestartStep(w, v) && StatusOnly(v, u)
    ensures SameFlow(w, u) && Applied(v) && v.cluster == w.cluster
  {
    hide Applied, Sound, RestartDue;
  }

  lemma AppliedUnderStatus(w: World, v: World)
    requires Applied(w) && StatusOnly(w, v)
    ensures Applied(v)
  {
    AppliedOn(w, v);
    hide Applied, Sound, Idle, InOrder;
  }

  // The pass from its children being built, as the store has it in the end.
  ghost predicate RestEnded(w: World, p: Pass, sts: Option<Sts>, ep: Option<seq<nat>>) {
    var v, st := p.s.w, p.s.w.cluster.status;
    && Assessed(st.conditions, sts, ep) && v.cluster.finalizer == w.cluster.finalizer
    && st.userSecret == Some(OwnUser(w.cluster.spec)) && CommandFlow(v) == CommandFlow(w)
    && match CommandFlow(v)
       case Go =>
         p.result.Completed? && Says(st.conditions, ConditionTrue, "Success")
         && st.observedGeneration == w.cluster.generation
       case Error => p.result == Stopped(Error) && Says(st.conditions, ConditionFalse, "FailedCLICommand")
       case _ => p.result == Stopped(Requeue) && st.conditions == w.cluster.status.conditions
  }

  lemma GoWhenUnmarked(w: World)
    requires ReadyNow(w) && PluginsMark(w).None?
    ensures CommandFlow(w) == Go
  {
    hide ReadyNow, PluginsMark;
  }

  lemma FinishedIsRest(w: World, u: World, p: Pass, sts: Option<Sts>, ep: Option<seq<nat>>)
    requires SameFlow(w, u) && FinishedAs(u, p, sts, ep)
    requires u.cluster.status == w.cluster.status.(userSecret := Some(OwnUser(w.cluster.spec)))
    ensures RestEnded(w, p, sts, ep)
  {
    FlowStays(w, u);
    var v := p.s.w;
    if CommandFlow(u) == Go {
      GoWhenUnmarked(v);
    } else {
      assert SameFlow(w, v) by { hide CommandFlow, Assessed, Says; }
      FlowStays(w, v);
    }
    hide Assessed, Says, ReadyNow;
  }

  lemma RestEnds(s: Sys, n: int, rmq: RabbitmqCluster, tries: nat, sts: Option<Sts>, ep: Option<seq<nat>>)
    requires Quiet(s, n) && n > Count(rmq.spec.replicas) + 14 && rmq == s.w.cluster && Applied(s.w) && tries > 0
    requires Assessed(rmq.status.conditions, sts, ep)
    ensures RestEnded(s.w, AfterChildren(s, rmq, tries), sts, ep)
  {
    var s1 := RestartIfNeeded(s, tries).0;
    var q := ReconcileStatus(s1, rmq);
    RestartHeals(s, n, tries);
    assert s1.w.cluster == rmq;
    SecretRecorded(s1, n - 4, rmq);
    RestartLeavesFlow(s.w, s1.w, q.s.w);
    AppliedUnderStatus(s1.w, q.s.w);
    FinishEnds(q.s, n - 5, q.rmq, sts, ep);
    hide Quiet, Applied, RestartIfNeeded, ReconcileStatus, Finish, Assessed, FinishedAs, RestEnded, SameFlow,
      RestartStep;
    FinishedIsRest(s.w, q.s.w, Finish(q.s, q.rmq), sts, ep);
  }

  /* ---- the pass ---- */

  // How an undisturbed pass over this store ends, and what the status tells
  // then.
  ghost predicate EndsAs(w: World, p: Pass) {
    var v, st, cs, spec := p.s.w, p.s.w.cluster.status, p.s.w.cluster.status.conditions, w.cluster.spec;
    && v.cluster.finalizer && Assessed(cs, w.sts, w.endpoints)
    && if !Reachable(spec) || !SecretsServe(w, spec) then
         && p.result == Stopped(if Reachable(spec) then Error else Halt) && Says(cs, ConditionFalse, "TLSError")
         && v == w.(cluster := v.cluster, nextId := v.nextId, log := v.log)
         && v.cluster.annotations == w.cluster.annotations
       else if TooMany(w) || Unsizable(w) then
         && p.result == Stopped(Refusal(w).0) && Says(cs, ConditionFalse, Refusal(w).1)
         && v.sts == w.sts && v.claims == w.claims && v.cluster.annotations == AnnotationsAfter(w)
       else
         && st.userSecret == Some(OwnUser(spec))
         && match CommandFlow(v)
            case Go =>
              p.result.Completed? && Says(cs, ConditionTrue, "Success")
              && st.observedGeneration == w.cluster.generation
            case Error => p.result == Stopped(Error) && Says(cs, ConditionFalse, "FailedCLICommand")
            case _ => p.result == Stopped(Requeue) && SaysAsBefore(cs, w.cluster.status.conditions)
  }

  lemma EarlyEnds(w: World, v: World, p: Step)
    requires v == w.(log := v.log) && PrefaceTold(v, p) && p.flow != Go
    ensures EndsAs(w, Ended(p))
  {
    assert SecretsServe(v, w.cluster.spec) == SecretsServe(w, w.cluster.spec);
    hide Assessed, Says, SaysAsBefore, Reachable, SecretsServe;
  }

  lemma StartableInRawTerms(v: World, p: Step, w: World)
    requires v == w.(log := v.log) && PrefaceTold(v, p) && p.flow == Go && !TooMany(w) && !Unsizable(w) && Inv(w)
    requires !w.cluster.paused && CREATED_AT !in w.cluster.annotations
    ensures Startable(w)
  {
    GrowableInRawTerms(w);
    InRawTerms(w, w.cluster.spec);
    assert SecretsServe(v, w.cluster.spec) == SecretsServe(w, w.cluster.spec);
    hide Assessed, SaysAsBefore, SecretsServe, Reachable, SecretsFit;
  }

  lemma DeclinedEnds(w: World, v: World, p: Step, q: Step)
    requires v == w.(log := v.log) && PrefaceTold(v, p) && p.flow == Go && (TooMany(w) || Unsizable(w))
    requires DeclinedLate(p.s.w, q, w.endpoints, Refusal(w).0, Refusal(w).1)
    ensures EndsAs(w, Ended(q))
  {
    assert SecretsServe(v, w.cluster.spec) == SecretsServe(w, w.cluster.spec);
    assert AnnotationsAfter(v) == AnnotationsAfter(w);
    hide Assessed, Says, SaysAsBefore, Reachable, Rebalances, SecretsServe, AnnotationsAfter;
  }

  lemma RestEndsAs(w: World, v: World, p: Step, q: Step, o: Pass)
    requires v == w.(log := v.log) && PrefaceTold(v, p) && p.flow == Go && !TooMany(w) && !Unsizable(w)
    requires q.rmq == q.s.w.cluster == p.rmq && RestEnded(q.s.w, o, w.sts, w.endpoints)
    ensures EndsAs(w, o)
  {
    hide Assessed, Says, Reachable, CommandFlow;
    assert SecretsServe(v, w.cluster.spec) == SecretsServe(w, w.cluster.spec);
  }

  // The pass up to the children.
  lemma OpenedEnds(s: Sys, n: int, tries: nat)
    requires Quiet(s, n) && n > 10 && !s.w.cluster.paused
    ensures var p := Opened(s); var q := Built(s, tries); var v := s.w.(log := s.w.log + [PassBegan(s.w.cluster.spec)]);
            && PrefaceTold(v, p) && Quiet(p.s, n - 10) && q == RunBuilders(p.s, p.rmq, Builders(p.rmq.spec), tries)
            && Reconcile(s, tries) ==
               if p.flow != Go then Ended(p) else if q.flow != Go then Ended(q) else AfterChildren(q.s, q.rmq, tries)
  {
    QuietCall(s, n);
    var s1 := Note(Enter(s), PassBegan(s.w.cluster.spec));
    assert Quiet(s1, n - 1);
    PreliminariesEnd(s1, n - 1, s.w.cluster);
    hide Quiet, Preliminaries, RunBuilders, AfterChildren, Enter, PrefaceTold, Builders;
  }

  lemma AfterPreface(w: World, v: World, p: Step)
    requires v == w.(log := v.log) && PrefaceTold(v, p) && p.flow == Go
    ensures p.rmq == p.s.w.cluster && p.s.w.sts == w.sts && Assessed(p.rmq.status.conditions, w.sts, w.endpoints)
    ensures TooMany(p.s.w) == TooMany(w) && Unsizable(p.s.w) == Unsizable(w) && Refusal(p.s.w) == Refusal(w)
  {
    hide Assessed, SaysAsBefore, SecretsServe, Reachable, AnnotationsAfter;
  }

  // An undisturbed pass over any store, its StatefulSet's end, if it has to be
  // deleted for its claims to grow, being waited for in time: how it ends is
  // decided by the specification, the secrets, the StatefulSet there before
  // and, for the commands, by the store it leaves; and the status tells so.
  lemma UndisturbedPass(s: Sys, tries: nat)
    requires Inv(s.w) && tries > 0 && !s.w.cluster.paused && CREATED_AT !in s.w.cluster.annotations
    requires Quiet(s, CallsOfFirst(s.w.cluster.spec))
    requires !TooMany(s.w) && !Unsizable(s.w) ==> Expandable(s.w, s.turns)
    ensures EndsAs(s.w, Reconcile(s, tries))
  {
    var n, ep, p, q := CallsOfFirst(s.w.cluster.spec), s.w.endpoints, Opened(s), Built(s, tries);
    var v := s.w.(log := s.w.log + [PassBegan(s.w.cluster.spec)]);
    assert n - 10 > 42;
    hide *;
    OpenedEnds(s, n, tries);
    if p.flow != Go {
      EarlyEnds(s.w, v, p);
    } else if TooMany(s.w) || Unsizable(s.w) {
      AfterPreface(s.w, v, p);
      ChildrenDecline(p.s, n - 10, p.rmq, tries, ep);
      DeclinedEnds(s.w, v, p, q);
    } else {
      AfterPreface(s.w, v, p);
      StartableInRawTerms(v, p, s.w);
      FirstPassBuilds(s, tries);
      PastBuilders(s, tries);
      RestEnds(q.s, Count(q.rmq.spec.replicas) + 15, q.rmq, tries, s.w.sts, ep);
      RestEndsAs(s.w, v, p, q, Reconcile(s, tries));
    }
  }

  /* ---- failing and waiting, whatever happens at the calls ---- */

  // The status says this, unless its write failed or others wrote the resource
  // meanwhile.
  ghost predicate Told(s: Sys, rmq: RabbitmqCluster, v: World, sts: Option<Sts>, ep: Option<seq<nat>>, reason: string) {
    FateOf(s) != Refused && Enter(s).w.cluster.rv == rmq.rv ==>
      Assessed(v.cluster.status.conditions, sts, ep) && Says(v.cluster.status.conditions, ConditionFalse, reason)
  }

  // A child that could not be applied ends the pass with an error, told in the
  // status.
  lemma FailedChildIsTold(s: Sys, rmq: RabbitmqCluster, b: Builder, tries: nat, sts: Option<Sts>, ep: Option<seq<nat>>)
    requires Assessed(rmq.status.conditions, sts, ep) && !CreateOrUpdate(s, rmq, b, tries).1.Ok?
    ensures var p := ApplyAndAnnotate(s, rmq, b, tries);
            p.flow == Error && Told(CreateOrUpdate(s, rmq, b, tries).0, rmq, p.s.w, sts, ep, "Error")
  {
    var s1 := CreateOrUpdate(s, rmq, b, tries).0;
    SaidAfter(rmq.status.conditions, sts, ep, ConditionFalse, "Error", s1.w.now);
    hide CreateOrUpdate, AfterSetCondition, Assessed, Says, Enter;
  }

  // A pass waits with the commands exactly when the StatefulSet it reads is not
  // ready on one revision or the plugins it reads changed less than two seconds
  // ago.
  lemma CommandsHeldBack(s: Sys, rmq: RabbitmqCluster)
    ensures var a, b := Enter(s).w, Enter(Enter(s)).w;
            RunCommands(s, rmq).flow == Requeue <==>
              && FateOf(s) == Delivered && a.sts.Some?
              && (a.sts.value.ready == a.sts.value.replicas
                  && a.sts.value.currentRevision == a.sts.value.updateRevision
                  ==> FateOf(Enter(s)) == Delivered && Young(b))
  {
    var (s1, r) := ReadSts(s);
    var (s2, p) := ReadMap(s1, PluginsMap);
    if r.Ok? && p.Ok? {
      MarkedFlow(Cli(Note(s2, Looked(Look(rmq, r.value, p.value))), rmq, r.value, p.value, Go));
    }
    hide RunMarkedCommands, Enter;
  }

  lemma MarkedFlow(c: Cli)
    requires c.flow == Go
    ensures RunMarkedCommands(c).flow == Go || RunMarkedCommands(c).flow == Error
  {
    hide RunOnPods, UpdateMap, UpdateSts, UpdateCluster, Pending;
  }

  // The conditions as they come out of the two reads.
  function ReadConditions(s: Sys, rmq: RabbitmqCluster): seq<Condition> {
    var a, b := Enter(s).w, Enter(Enter(s)).w;
    AfterSetConditions(rmq.status.conditions,
      [StatefulSet(ViewedSts(a.sts)), Endpoints(b.endpoints)], b.now)
  }

  // It waits with a status that others kept it from writing, by writing the
  // resource themselves; any other failure is an error.
  lemma StatusConflictWaits(s: Sys, rmq: RabbitmqCluster)
    ensures var p := UpdateStatusConditions(s, rmq); var s2 := Enter(Enter(s));
            var computed := FateOf(s) == Delivered && FateOf(Enter(s)) == Delivered;
            var write := computed && ReadConditions(s, rmq) != rmq.status.conditions;
            var current := Enter(s2).w.cluster.rv == rmq.rv;
            && (p.flow == Requeue <==> write && FateOf(s2) != Refused && !current)
            && (p.flow == Go <==> computed && (write ==> FateOf(s2) == Delivered && current))
            && (p.flow == Go ==> p.rmq.status.conditions == ReadConditions(s, rmq))
            && p.flow != Halt
  {
    hide Enter, AfterSetConditions, ViewOf;
  }

  /* ---- all children ---- */

  // Each child has its builder, once, and the StatefulSet's comes last; the
  // default user's secret is built unless Vault has it.
  lemma EachChildOnce(spec: ClusterSpec)
    ensures forall b :: b in Builders(spec) <==> b != OtherBuilder(DefaultUserSecret) || OwnUser(spec)
    ensures forall i, j :: 0 <= i < j < |Builders(spec)| ==> Builders(spec)[i] != Builders(spec)[j]
    ensures Builders(spec)[|Builders(spec)| - 1] == StsBuilder
  {
    var bs := Builders(spec);
    var first, last := [OtherBuilder(HeadlessService), OtherBuilder(ClientService), OtherBuilder(ErlangCookie)],
      [MapBuilder(PluginsMap), MapBuilder(ServerMap), OtherBuilder(ServiceAccount), OtherBuilder(Role),
       OtherBuilder(RoleBinding), StsBuilder];
    var user := if OwnUser(spec) then [OtherBuilder(DefaultUserSecret)] else [];
    assert bs == first + user + last;
    forall b: Builder ensures b in first || b in last || b == OtherBuilder(DefaultUserSecret) {
      match b
      case OtherBuilder(kind) =>
        assert kind == DefaultUserSecret || kind in [HeadlessService, ClientService, ErlangCookie]
          || kind in [ServiceAccount, Role, RoleBinding];
      case MapBuilder(which) =>
        assert which == PluginsMap || which == ServerMap;
      case StsBuilder =>
    }
    hide *;
    forall b ensures b in bs <==> b in first || b in user || b in last {}
  }
}
