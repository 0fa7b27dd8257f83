// The four status conditions of a RabbitmqCluster
// (api/v1beta1/rabbitmqcluster_status.go and internal/status).
module Conditions {
  import opened Text
  import opened Rfc3339

  datatype ConditionType = AllReplicasReady | ClusterAvailable | NoWarnings | ReconcileSuccess
  datatype ConditionStatus = ConditionTrue | ConditionFalse | ConditionUnknown

  datatype Condition = Condition(kind: ConditionType, status: ConditionStatus, since: Time, reason: string,
    message: string)

  // The child resources the conditions are computed from; None is the nil
  // reference passed for an object that was not found.
  datatype StsView = StsView(replicas: Option<int>, ready: int, memoryLimit: Option<int>, memoryRequest: Option<int>)
  datatype Resource = StatefulSet(view: Option<StsView>) | Endpoints(subsets: Option<seq<nat>>)

  datatype Verdict = Verdict(status: ConditionStatus, reason: string, message: string)

  const NO_VERDICT := Verdict(ConditionUnknown, "", "")

  function ReplicasVerdict(rs: seq<Resource>, v: Verdict): Verdict {
    if rs == [] then v
    else match rs[0]
      case StatefulSet(None) => Verdict(ConditionUnknown, "MissingStatefulSet", "Could not find StatefulSet")
      case StatefulSet(Some(s)) =>
        var desired := if s.replicas.Some? then s.replicas.value else 1;
        if desired == s.ready then v.(status := ConditionTrue, reason := "AllPodsAreReady")
        else ReplicasVerdict(rs[1..], Verdict(ConditionFalse, "NotAllPodsReady",
          Itoa(s.ready) + "/" + Itoa(desired) + " Pods ready"))
      case Endpoints(_) => ReplicasVerdict(rs[1..], v)
  }

  predicate SomeAddress(subsets: seq<nat>) {
    exists k :: 0 <= k < |subsets| && subsets[k] > 0
  }

  function AvailableVerdict(rs: seq<Resource>, v: Verdict): Verdict {
    if rs == [] then v
    else match rs[0]
      case Endpoints(None) => Verdict(ConditionUnknown, "CouldNotRetrieveEndpoints",
        "Could not verify available service endpoints")
      case Endpoints(Some(subsets)) =>
        if SomeAddress(subsets) then v.(status := ConditionTrue, reason := "AtLeastOneEndpointAvailable")
        else AvailableVerdict(rs[1..], Verdict(ConditionFalse, "NoEndpointsAvailable",
          "The service has no endpoints available"))
      case StatefulSet(_) => AvailableVerdict(rs[1..], v)
  }

  function WarningsVerdict(rs: seq<Resource>, v: Verdict): Verdict {
    if rs == [] then v
    else match rs[0]
      case StatefulSet(None) => Verdict(ConditionUnknown, "MissingStatefulSet", "Could not find StatefulSet")
      case StatefulSet(Some(s)) =>
        if s.memoryLimit != s.memoryRequest
        then Verdict(ConditionFalse, "MemoryRequestAndLimitDifferent",
          "RabbitMQ container memory resource request and limit must be equal")
        else WarningsVerdict(rs[1..], v.(status := ConditionTrue, reason := "NoWarnings"))
      case Endpoints(_) => WarningsVerdict(rs[1..], v)
  }

  // A condition keeps its transition time as long as its status stays.
  function Stamped(kind: ConditionType, v: Verdict, was: Option<Condition>, now: Time): Condition {
    Condition(kind, v.status, if was.None? || was.value.status != v.status then now else was.value.since, v.reason,
      v.message)
  }

  function LastOf(cs: seq<Condition>, kind: ConditionType): (c: Option<Condition>)
    ensures c.Some? ==> c.value in cs && c.value.kind == kind
  {
    if cs == [] then None
    else if cs[|cs| - 1].kind == kind then Some(cs[|cs| - 1])
    else LastOf(cs[..|cs| - 1], kind)
  }

  function AfterSetConditions(cs: seq<Condition>, rs: seq<Resource>, now: Time): seq<Condition> {
    var reconciled := LastOf(cs, ReconcileSuccess);
    [Stamped(AllReplicasReady, ReplicasVerdict(rs, NO_VERDICT), LastOf(cs, AllReplicasReady), now),
     Stamped(ClusterAvailable, AvailableVerdict(rs, NO_VERDICT), LastOf(cs, ClusterAvailable), now),
     Stamped(NoWarnings, WarningsVerdict(rs, NO_VERDICT), LastOf(cs, NoWarnings), now),
     if reconciled.Some? then reconciled.value
     else Condition(ReconcileSuccess, ConditionUnknown, now, "Initialising", "")]
  }

  function Restated(c: Condition, status: ConditionStatus, reason: string, messages: seq<string>,
    now: Time): Condition
  {
    Condition(c.kind, status, if c.status != status then now else c.since, reason, Join(messages, ". "))
  }

  function FirstOf(cs: seq<Condition>, kind: ConditionType, from: nat): (k: nat)
    requires from <= |cs|
    ensures from <= k <= |cs| && (k < |cs| ==> cs[k].kind == kind)
    ensures forall j :: from <= j < k ==> cs[j].kind != kind
    decreases |cs| - from
  {
    if from == |cs| || cs[from].kind == kind then from else FirstOf(cs, kind, from + 1)
  }

  // Only the first condition of the type is touched.
  function AfterSetCondition(cs: seq<Condition>, kind: ConditionType, status: ConditionStatus, reason: string,
      messages: seq<string>, now: Time): seq<Condition>
  {
    var k := FirstOf(cs, kind, 0);
    if k == |cs| then cs else cs[k := Restated(cs[k], status, reason, messages, now)]
  }

  class RabbitmqClusterStatus {
    var conditions: seq<Condition>

    constructor (conditions: seq<Condition>)
      ensures this.conditions == conditions
    {
      this.conditions := conditions;
    }

    static method AllReplicasReadyCondition(rs: seq<Resource>, was: Option<Condition>, now: Time) returns (c: Condition)
      ensures c == Stamped(AllReplicasReady, ReplicasVerdict(rs, NO_VERDICT), was, now)
    {
      var v := NO_VERDICT;
      for i := 0 to |rs|
        invariant ReplicasVerdict(rs, NO_VERDICT) == ReplicasVerdict(rs[i..], v)
      {
        assert rs[i..][1..] == rs[i + 1..];
        match rs[i]
        case StatefulSet(None) =>
          return Stamped(AllReplicasReady,
            Verdict(ConditionUnknown, "MissingStatefulSet", "Could not find StatefulSet"), was, now);
        case StatefulSet(Some(s)) =>
          var desired := 1;
          if s.replicas.Some? { desired := s.replicas.value; }
          if desired == s.ready {
            return Stamped(AllReplicasReady, v.(status := ConditionTrue, reason := "AllPodsAreReady"), was, now);
          }
          v := Verdict(ConditionFalse, "NotAllPodsReady", Itoa(s.ready) + "/" + Itoa(desired) + " Pods ready");
        case Endpoints(_) =>
      }
      assert rs[|rs|..] == [];
      c := Stamped(AllReplicasReady, v, was, now);
    }

    static method ClusterAvailableCondition(rs: seq<Resource>, was: Option<Condition>, now: Time) returns (c: Condition)
      ensures c == Stamped(ClusterAvailable, AvailableVerdict(rs, NO_VERDICT), was, now)
    {
      var v := NO_VERDICT;
      for i := 0 to |rs|
        invariant AvailableVerdict(rs, NO_VERDICT) == AvailableVerdict(rs[i..], v)
      {
        assert rs[i..][1..] == rs[i + 1..];
        match rs[i]
        case Endpoints(None) =>
          return Stamped(ClusterAvailable,
            Verdict(ConditionUnknown, "CouldNotRetrieveEndpoints", "Could not verify available service endpoints"), was,
              now);
        case Endpoints(Some(subsets)) =>
          for j := 0 to |subsets|
            invariant forall k :: 0 <= k < j ==> subsets[k] == 0
          {
            if subsets[j] > 0 {
              return Stamped(ClusterAvailable, v.(status := ConditionTrue, reason := "AtLeastOneEndpointAvailable"),
                was, now);
            }
          }
          v := Verdict(ConditionFalse, "NoEndpointsAvailable", "The service has no endpoints available");
        case StatefulSet(_) =>
      }
      assert rs[|rs|..] == [];
      c := Stamped(ClusterAvailable, v, was, now);
    }

    static method NoWarningsCondition(rs: seq<Resource>, was: Option<Condition>, now: Time) returns (c: Condition)
      ensures c == Stamped(NoWarnings, WarningsVerdict(rs, NO_VERDICT), was, now)
    {
      var v := NO_VERDICT;
      for i := 0 to |rs|
        invariant WarningsVerdict(rs, NO_VERDICT) == WarningsVerdict(rs[i..], v)
      {
        assert rs[i..][1..] == rs[i + 1..];
        match rs[i]
        case StatefulSet(None) =>
          return Stamped(NoWarnings, Verdict(ConditionUnknown, "MissingStatefulSet", "Could not find StatefulSet"), was,
            now);
        case StatefulSet(Some(s)) =>
          if s.memoryLimit != s.memoryRequest {
            return Stamped(NoWarnings, Verdict(ConditionFalse, "MemoryRequestAndLimitDifferent",
              "RabbitMQ container memory resource request and limit must be equal"), was, now);
          }
          v := v.(status := ConditionTrue, reason := "NoWarnings");
        case Endpoints(_) =>
      }
      assert rs[|rs|..] == [];
      c := Stamped(NoWarnings, v, was, now);
    }

    method SetConditions(rs: seq<Resource>, now: Time)
      modifies this
      ensures conditions == AfterSetConditions(old(conditions), rs, now)
    {
      var allReady, available, warnings, reconciled := None, None, None, None;
      for i := 0 to |conditions|
        invariant allReady == LastOf(conditions[..i], AllReplicasReady)
        invariant available == LastOf(conditions[..i], ClusterAvailable)
        invariant warnings == LastOf(conditions[..i], NoWarnings)
        invariant reconciled == LastOf(conditions[..i], ReconcileSuccess)
      {
        var c := conditions[i];
        assert conditions[..i + 1][..i] == conditions[..i];
        match c.kind
        case AllReplicasReady => allReady := Some(c);
        case ClusterAvailable => available := Some(c);
        case NoWarnings => warnings := Some(c);
        case ReconcileSuccess => reconciled := Some(c);
      }
      assert conditions[..|conditions|] == conditions;
      var c0 := AllReplicasReadyCondition(rs, allReady, now);
      var c1 := ClusterAvailableCondition(rs, available, now);
      var c2 := NoWarningsCondition(rs, warnings, now);
      var c3;
      if reconciled.Some? {
        c3 := reconciled.value;
      } else {
        c3 := Condition(ReconcileSuccess, ConditionUnknown, now, "Initialising", "");
      }
      conditions := [c0, c1, c2, c3];
    }

    method SetCondition(kind: ConditionType, status: ConditionStatus, reason: string, messages: seq<string>, now: Time)
      modifies this
      ensures conditions == AfterSetCondition(old(conditions), kind, status, reason, messages, now)
    {
      for i := 0 to |conditions|
        invariant conditions == old(conditions)
        invariant forall j :: 0 <= j < i ==> conditions[j].kind != kind
      {
        if conditions[i].kind == kind {
          var c := conditions[i];
          if c.status != status { c := c.(since := now); }
          c := c.(status := status);
          c := c.(reason := reason, message := Join(messages, ". "));
          conditions := conditions[i := c];
          break;
        }
      }
    }
  }

  /* ---- the verdicts ---- */

  predicate Judged(c: Condition, status: ConditionStatus, reason: string, message: string) {
    c.status == status && c.reason == reason && c.message == message
  }

  function Wanted(s: StsView): int {
    match s.replicas
    case None => 1
    case Some(n) => n
  }

  // A single resource that does not bear on a verdict leaves it.
  lemma OthersDoNotBear(r: Resource, v: Verdict)
    ensures r.Endpoints? ==> ReplicasVerdict([r], v) == v && WarningsVerdict([r], v) == v
    ensures r.StatefulSet? ==> AvailableVerdict([r], v) == v
  {
    assert [r][1..] == [];
  }

  // Of the two resources the operator hands over, in whichever order, the
  // StatefulSet decides on the replicas: nothing is known without it, and it
  // is ready when as many replicas are as are wanted, one if none are named.
  lemma ReplicasAreJudged(cs: seq<Condition>, sts: Option<StsView>, ep: Option<seq<nat>>, rs: seq<Resource>, now: Time)
    requires rs == [StatefulSet(sts), Endpoints(ep)] || rs == [Endpoints(ep), StatefulSet(sts)]
    ensures var c := AfterSetConditions(cs, rs, now)[0];
            && c.kind == AllReplicasReady
            && (sts.None? <==> Judged(c, ConditionUnknown, "MissingStatefulSet", "Could not find StatefulSet"))
            && (sts.Some? && sts.value.ready == Wanted(sts.value) <==> c.status == ConditionTrue)
            && (c.status == ConditionTrue ==> c.reason == "AllPodsAreReady")
            && (sts.Some? && sts.value.ready != Wanted(sts.value) ==>
                Judged(c, ConditionFalse, "NotAllPodsReady",
                  Itoa(sts.value.ready) + "/" + Itoa(Wanted(sts.value)) + " Pods ready"))
  {
    var v := ReplicasVerdict([StatefulSet(sts)], NO_VERDICT);
    assert [StatefulSet(sts)][1..] == [] && rs[1..] == [rs[1]];
    OthersDoNotBear(Endpoints(ep), v);
    OthersDoNotBear(Endpoints(ep), NO_VERDICT);
    assert ReplicasVerdict(rs, NO_VERDICT) == v;
    var c := AfterSetConditions(cs, rs, now)[0];
    assert c == Stamped(AllReplicasReady, v, LastOf(cs, AllReplicasReady), now);
    if sts.Some? && sts.value.ready != Wanted(sts.value) {
      assert v == ReplicasVerdict([], Verdict(ConditionFalse, "NotAllPodsReady",
        Itoa(sts.value.ready) + "/" + Itoa(Wanted(sts.value)) + " Pods ready"));
    }
    hide LastOf;
  }

  // The endpoints decide on the service: some subset must have an address.
  lemma ServiceIsJudged(cs: seq<Condition>, sts: Option<StsView>, ep: Option<seq<nat>>, rs: seq<Resource>, now: Time)
    requires rs == [StatefulSet(sts), Endpoints(ep)] || rs == [Endpoints(ep), StatefulSet(sts)]
    ensures var c := AfterSetConditions(cs, rs, now)[1];
            && c.kind == ClusterAvailable
            && (ep.None? <==> c.status == ConditionUnknown)
            && (c.status == ConditionUnknown ==>
                Judged(c, ConditionUnknown, "CouldNotRetrieveEndpoints",
                  "Could not verify available service endpoints"))
            && (c.status == ConditionTrue <==> ep.Some? && exists k :: 0 <= k < |ep.value| && ep.value[k] > 0)
            && (c.status == ConditionTrue ==> c.reason == "AtLeastOneEndpointAvailable")
            && (c.status == ConditionFalse ==>
                Judged(c, ConditionFalse, "NoEndpointsAvailable", "The service has no endpoints available"))
  {
    hide ReplicasVerdict, AvailableVerdict, WarningsVerdict, LastOf;
    ServiceVerdict(sts, ep, rs);
  }

  lemma ServiceVerdict(sts: Option<StsView>, ep: Option<seq<nat>>, rs: seq<Resource>)
    requires rs == [StatefulSet(sts), Endpoints(ep)] || rs == [Endpoints(ep), StatefulSet(sts)]
    ensures AvailableVerdict(rs, NO_VERDICT) ==
      if ep.None? then Verdict(ConditionUnknown, "CouldNotRetrieveEndpoints",
        "Could not verify available service endpoints")
      else if SomeAddress(ep.value) then Verdict(ConditionTrue, "AtLeastOneEndpointAvailable", "")
      else Verdict(ConditionFalse, "NoEndpointsAvailable", "The service has no endpoints available")
  {
    var v := AvailableVerdict([Endpoints(ep)], NO_VERDICT);
    assert [Endpoints(ep)][1..] == [] && rs[1..] == [rs[1]];
    OthersDoNotBear(StatefulSet(sts), v);
    assert AvailableVerdict(rs, NO_VERDICT) == v;
    if ep.Some? && !SomeAddress(ep.value) {
      assert v == AvailableVerdict([], Verdict(ConditionFalse, "NoEndpointsAvailable",
        "The service has no endpoints available"));
    }
  }

  // The StatefulSet's memory settings decide on the warnings.
  lemma MemoryIsJudged(cs: seq<Condition>, sts: Option<StsView>, ep: Option<seq<nat>>, rs: seq<Resource>, now: Time)
    requires rs == [StatefulSet(sts), Endpoints(ep)] || rs == [Endpoints(ep), StatefulSet(sts)]
    ensures var c := AfterSetConditions(cs, rs, now)[2];
            && c.kind == NoWarnings
            && (sts.None? <==> c.status == ConditionUnknown)
            && (c.status == ConditionUnknown ==>
                Judged(c, ConditionUnknown, "MissingStatefulSet", "Could not find StatefulSet"))
            && (c.status == ConditionTrue <==> sts.Some? && sts.value.memoryLimit == sts.value.memoryRequest)
            && (c.status == ConditionTrue ==> c.reason == "NoWarnings")
            && (c.status == ConditionFalse ==>
                Judged(c, ConditionFalse, "MemoryRequestAndLimitDifferent",
                  "RabbitMQ container memory resource request and limit must be equal"))
  {
    hide ReplicasVerdict, AvailableVerdict, WarningsVerdict, LastOf;
    MemoryVerdict(sts, ep, rs);
  }

  lemma MemoryVerdict(sts: Option<StsView>, ep: Option<seq<nat>>, rs: seq<Resource>)
    requires rs == [StatefulSet(sts), Endpoints(ep)] || rs == [Endpoints(ep), StatefulSet(sts)]
    ensures WarningsVerdict(rs, NO_VERDICT) ==
      if sts.None? then Verdict(ConditionUnknown, "MissingStatefulSet", "Could not find StatefulSet")
      else if sts.value.memoryLimit == sts.value.memoryRequest then Verdict(ConditionTrue, "NoWarnings", "")
      else Verdict(ConditionFalse, "MemoryRequestAndLimitDifferent",
        "RabbitMQ container memory resource request and limit must be equal")
  {
    var v := WarningsVerdict([StatefulSet(sts)], NO_VERDICT);
    var good := NO_VERDICT.(status := ConditionTrue, reason := "NoWarnings");
    assert [StatefulSet(sts)][1..] == [] && rs[1..] == [rs[1]];
    assert WarningsVerdict([], good) == good;
    OthersDoNotBear(Endpoints(ep), v);
    OthersDoNotBear(Endpoints(ep), good);
    assert WarningsVerdict(rs, NO_VERDICT) == v;
  }

  // What the last pass said of itself stands until the next one speaks.
  lemma SuccessIsCarriedOver(cs: seq<Condition>, rs: seq<Resource>, now: Time)
    ensures var c := AfterSetConditions(cs, rs, now)[3];
            && c.kind == ReconcileSuccess
            && (c in cs || ((forall d :: d in cs ==> d.kind != ReconcileSuccess)
                            && Judged(c, ConditionUnknown, "Initialising", "") && c.since == now))
  {
    LastOfNone(cs, ReconcileSuccess);
  }

  lemma {:induction false} LastOfNone(cs: seq<Condition>, kind: ConditionType)
    ensures LastOf(cs, kind).None? <==> forall d :: d in cs ==> d.kind != kind
  {
    if cs != [] {
      LastOfNone(cs[..|cs| - 1], kind);
      assert cs == cs[..|cs| - 1] + [cs[|cs| - 1]];
    }
  }

  // Setting one condition: it has the new status, reason and messages, and the
  // old date if its status stays; every other condition is as it was, and a
  // type that is not there yet is not added.
  lemma ConditionIsSet(cs: seq<Condition>, kind: ConditionType, status: ConditionStatus, reason: string,
    messages: seq<string>, now: Time, j: nat)
    requires j < |cs|
    ensures var ds := AfterSetCondition(cs, kind, status, reason, messages, now);
            && |ds| == |cs| && ds[j].kind == cs[j].kind
            && if cs[j].kind == kind && forall i :: 0 <= i < j ==> cs[i].kind != kind
               then
                 && Judged(ds[j], status, reason, Join(messages, ". "))
                 && ds[j].since == if cs[j].status == status then cs[j].since else now
               else ds[j] == cs[j]
  {
    var k := FirstOf(cs, kind, 0);
    if k < j { assert cs[k].kind == kind; }
  }

  /* ---- histories of updates ---- */

  datatype Update =
    | SetAll(resources: seq<Resource>, now: Time)
    | SetOne(kind: ConditionType, status: ConditionStatus, reason: string, messages: seq<string>, now: Time)

  function Apply(cs: seq<Condition>, u: Update): seq<Condition> {
    match u
    case SetAll(rs, now) => AfterSetConditions(cs, rs, now)
    case SetOne(kind, status, reason, messages, now) => AfterSetCondition(cs, kind, status, reason, messages, now)
  }

  function Replay(start: seq<Condition>, us: seq<Update>): seq<Condition> {
    if us == [] then start else Apply(Replay(start, us[..|us| - 1]), us[|us| - 1])
  }

  function StatusOf(cs: seq<Condition>, kind: ConditionType): Option<ConditionStatus> {
    var c := LastOf(cs, kind);
    if c.Some? then Some(c.value.status) else None
  }

  // When the status of this type last changed, read off the statuses alone.
  function LastChange(start: seq<Condition>, us: seq<Update>, kind: ConditionType): Option<Time> {
    if us == [] then (var c := LastOf(start, kind); if c.Some? then Some(c.value.since) else None)
    else if StatusOf(Replay(start, us), kind) != StatusOf(Replay(start, us[..|us| - 1]), kind)
      then Some(us[|us| - 1].now)
    else LastChange(start, us[..|us| - 1], kind)
  }

  predicate FourInOrder(cs: seq<Condition>) {
    |cs| == 4 && cs[0].kind == AllReplicasReady && cs[1].kind == ClusterAvailable
    && cs[2].kind == NoWarnings && cs[3].kind == ReconcileSuccess
  }

  lemma LastOfFour(cs: seq<Condition>)
    requires FourInOrder(cs)
    ensures LastOf(cs, AllReplicasReady) == Some(cs[0]) && LastOf(cs, ClusterAvailable) == Some(cs[1])
    ensures LastOf(cs, NoWarnings) == Some(cs[2]) && LastOf(cs, ReconcileSuccess) == Some(cs[3])
  {
    var c3, c2 := cs[..3], cs[..2];
    assert c3[..2] == c2 && c2[..1] == cs[..1];
    assert LastOf(cs, NoWarnings) == LastOf(c3, NoWarnings);
    assert LastOf(cs, ClusterAvailable) == LastOf(c3, ClusterAvailable) == LastOf(c2, ClusterAvailable);
    assert LastOf(cs, AllReplicasReady) == LastOf(c3, AllReplicasReady) == LastOf(c2, AllReplicasReady) ==
      LastOf(cs[..1], AllReplicasReady);
  }

  // One update dates a condition anew exactly when it changes its status.
  lemma UpdateDatesChanges(cs: seq<Condition>, u: Update, k: nat)
    requires FourInOrder(cs) && k < 4
    ensures FourInOrder(Apply(cs, u))
    ensures var c := Apply(cs, u)[k]; c.since == if c.status != cs[k].status then u.now else cs[k].since
  {
    LastOfFour(cs);
  }

  lemma StatusOfFour(cs: seq<Condition>, k: nat)
    requires FourInOrder(cs) && k < 4
    ensures LastOf(cs, cs[k].kind) == Some(cs[k]) && StatusOf(cs, cs[k].kind) == Some(cs[k].status)
  {
    LastOfFour(cs);
  }

  lemma FirstUpdate(start: seq<Condition>, u: Update, k: nat)
    requires u.SetAll? && k < 4
    ensures var cs := Apply(start, u); FourInOrder(cs) && LastChange(start, [u], cs[k].kind) == Some(cs[k].since)
  {
    var cs := Apply(start, u);
    assert [u][..0] == [];
    assert Replay(start, [u]) == cs && Replay(start, []) == start;
    StatusOfFour(cs, k);
    assert LastChange(start, [], cs[k].kind) ==
      var c := LastOf(start, cs[k].kind); if c.Some? then Some(c.value.since) else None;
  }

  // After any updates the first of which is SetConditions there are the four
  // conditions in order, each dated by the last change of its status.
  lemma {:induction false} ConditionHistory(start: seq<Condition>, us: seq<Update>, k: nat)
    requires us != [] && us[0].SetAll? && k < 4
    ensures var cs := Replay(start, us); FourInOrder(cs) && LastChange(start, us, cs[k].kind) == Some(cs[k].since)
  {
    hide Apply;
    var before, u := us[..|us| - 1], us[|us| - 1];
    if before == [] {
      assert us == [u];
      FirstUpdate(start, u, k);
    } else {
      ConditionHistory(start, before, k);
      var ds := Replay(start, before);
      UpdateDatesChanges(ds, u, k);
      StatusOfFour(ds, k);
      StatusOfFour(Apply(ds, u), k);
    }
  }

  // Computing the conditions again from the same resources changes nothing,
  // at whatever time, so no status update is written.
  lemma RecomputingIsIdentity(cs: seq<Condition>, rs: seq<Resource>, t: Time, later: Time)
    ensures AfterSetConditions(AfterSetConditions(cs, rs, t), rs, later) == AfterSetConditions(cs, rs, t)
  {
    LastOfFour(AfterSetConditions(cs, rs, t));
  }
}
