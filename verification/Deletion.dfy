// Deleting a cluster (controllers/reconcile_finalizer.go) when every read may
// be stale and objects may be deleted and made again under the same name.
module Deletion {
  import opened Text

  datatype Cluster = Cluster(uid: nat, rv: nat, name: string, finalizer: bool)

  // `owner` is the uid of the controller reference.
  datatype Sts = Sts(uid: nat, owner: Option<nat>)

  datatype Pod = Pod(uid: nat, rv: nat, cluster: string, marked: bool)

  datatype Store = Store(nextId: nat, cluster: Option<Cluster>, sts: Option<Sts>, pods: map<string, Pod>)

  datatype Listed = Listed(name: string, pod: Pod)

  // The server's account of each deletion requested: on whose behalf, with
  // which precondition, after listing which pods, and what it found.
  datatype Event =
    | DeleteIssued(claimant: nat, uid: nat, listed: seq<Listed>, pods: map<string, Pod>, deleted: Option<Sts>)
    | FinalizerRemoved(claimant: nat, stored: Cluster)

  // `past` are all earlier states of the store, which a cache may still show.
  datatype World = World(now: Store, past: seq<Store>, log: seq<Event>)

  datatype EnvStep =
    | MakeCluster(name: string)
    | MakeSts(owner: Option<nat>)
    | DropSts
    | MakePod(name: string, cluster: string)
    | DropPod(name: string)
    | TouchPod(name: string)

  function Changed(s: Store, e: EnvStep): Store {
    match e
    case MakeCluster(name) =>
      if s.cluster.Some? then s
      else s.(cluster := Some(Cluster(s.nextId, s.nextId, name, true)), nextId := s.nextId + 1)
    case MakeSts(owner) => if s.sts.Some? then s else s.(sts := Some(Sts(s.nextId, owner)), nextId := s.nextId + 1)
    case DropSts => s.(sts := None)
    case MakePod(name, cluster) =>
      if name in s.pods then s
      else s.(pods := s.pods[name := Pod(s.nextId, s.nextId, cluster, false)], nextId := s.nextId + 1)
    case DropPod(name) => s.(pods := s.pods - {name})
    case TouchPod(name) =>
      if name !in s.pods then s else s.(pods := s.pods[name := s.pods[name].(rv := s.nextId)], nextId := s.nextId + 1)
  }

  function Became(w: World, now: Store): World {
    w.(now := now, past := w.past + [w.now])
  }

  function ActedAll(w: World, es: seq<EnvStep>): World
    decreases |es|
  {
    if es == [] then w else ActedAll(Became(w, Changed(w.now, es[0])), es[1..])
  }

  datatype Fate = Delivered | ReplyLost | Refused

  // At each call others act first; a read shows the state number `age` of the
  // store; a listing comes in some order of names.
  datatype Turn = Turn(env: seq<EnvStep>, fate: Fate, age: nat, order: seq<string>)

  datatype Sys = Sys(w: World, turns: seq<Turn>)

  datatype Reply<+T> = Ok(value: T) | NotFound | Conflict | Failed

  const NO_TURN := Turn([], Refused, 0, [])

  function TurnOf(s: Sys): Turn {
    if s.turns == [] then NO_TURN else s.turns[0]
  }

  function Enter(s: Sys): Sys {
    if s.turns == [] then s else Sys(ActedAll(s.w, s.turns[0].env), s.turns[1..])
  }

  function Shown(w: World, age: nat): Store {
    if age < |w.past| then w.past[age] else w.now
  }

  /* ---- the calls ---- */

  function ReadSts(s: Sys): (Sys, Reply<Sts>) {
    var e, t := Enter(s), TurnOf(s);
    var seen := Shown(e.w, t.age);
    (e, if t.fate != Delivered then Failed else if seen.sts.None? then NotFound else Ok(seen.sts.value))
  }

  // An order is a listing when it names each pod of the cluster once.
  predicate IsListing(pods: map<string, Pod>, cluster: string, order: seq<string>) {
    && (forall i :: 0 <= i < |order| ==> order[i] in pods && pods[order[i]].cluster == cluster)
    && (forall i, j :: 0 <= i < j < |order| ==> order[i] != order[j])
    && (forall n :: n in pods && pods[n].cluster == cluster ==> n in order)
  }

  function ListPods(s: Sys, cluster: string): (Sys, Reply<seq<Listed>>) {
    var e, t := Enter(s), TurnOf(s);
    var pods := Shown(e.w, t.age).pods;
    (e, if t.fate != Delivered || !IsListing(pods, cluster, t.order) then Failed
        else Ok(seq(|t.order|, i requires 0 <= i < |t.order| => Listed(t.order[i], pods[t.order[i]]))))
  }

  function Answer(f: Fate): Reply<()> {
    if f == Delivered then Ok(()) else Failed
  }

  function UpdatePod(s: Sys, name: string, pod: Pod): (Sys, Reply<()>) {
    var e, f := Enter(s), TurnOf(s).fate;
    var now := e.w.now;
    if f == Refused then (e, Failed)
    else if name !in now.pods then (e, NotFound)
    else if now.pods[name].rv != pod.rv then (e, Conflict)
    else
      var pods := now.pods[name := pod.(rv := now.nextId)];
      (e.(w := Became(e.w, now.(pods := pods, nextId := now.nextId + 1))), Answer(f))
  }

  // Deletion by name, with the uid as precondition.
  function DeleteSts(s: Sys, uid: nat, claimant: nat, listed: seq<Listed>): (Sys, Reply<()>) {
    var e, f := Enter(s), TurnOf(s).fate;
    var now := e.w.now;
    if f == Refused then (e, Failed)
    else
      var hit := if now.sts.Some? && now.sts.value.uid == uid then now.sts else None;
      var log := e.w.log + [DeleteIssued(claimant, uid, listed, now.pods, hit)];
      if now.sts.None? then (e.(w := e.w.(log := log)), NotFound)
      else if hit.None? then (e.(w := e.w.(log := log)), Conflict)
      else (e.(w := Became(e.w, now.(sts := None)).(log := log)), Answer(f))
  }

  // Without its finalizer a resource marked for deletion is gone.
  function RemoveFinalizer(s: Sys, rmq: Cluster): (Sys, Reply<()>) {
    var e, f := Enter(s), TurnOf(s).fate;
    var now := e.w.now;
    if f == Refused then (e, Failed)
    else if now.cluster.None? then (e, NotFound)
    else if now.cluster.value.rv != rmq.rv then (e, Conflict)
    else
      var log := e.w.log + [FinalizerRemoved(rmq.uid, now.cluster.value)];
      (e.(w := Became(e.w, now.(cluster := None, nextId := now.nextId + 1)).(log := log)), Answer(f))
  }

  /* ---- the operator ---- */

  // Succeeds only when the controller reference carries the cluster's uid.
  function StatefulSetUID(s: Sys, rmq: Cluster): (Sys, Reply<nat>) {
    var (s1, r) := ReadSts(s);
    (s1, if r.Ok? && r.value.owner == Some(rmq.uid) then Ok(r.value.uid) else Failed)
  }

  function LabelPods(s: Sys, pods: seq<Listed>): (Sys, Reply<()>)
    decreases |pods|
  {
    if pods == [] then (s, Ok(()))
    else
      var (s1, r) := UpdatePod(s, pods[0].name, pods[0].pod.(marked := true));
      if r.Ok? || r.NotFound? then LabelPods(s1, pods[1..]) else (s1, r)
  }

  function Attempt(s: Sys, rmq: Cluster): (Sys, Reply<()>) {
    var (s1, uid) := StatefulSetUID(s, rmq);
    if !uid.Ok? then (s1, Failed)
    else
      var (s2, pods) := ListPods(s1, rmq.name);
      if !pods.Ok? then (s2, Failed)
      else
        var (s3, l) := LabelPods(s2, pods.value);
        if !l.Ok? then (s3, l)
        else
          var (s4, d) := DeleteSts(s3, uid.value, rmq.uid, pods.value);
          (s4, if d.NotFound? then Ok(()) else d)
  }

  function Retried(s: Sys, rmq: Cluster, tries: nat): (Sys, Reply<()>)
    decreases tries
  {
    if tries == 0 then (s, Conflict)
    else
      var (s1, r) := Attempt(s, rmq);
      if r.Conflict? then Retried(s1, rmq, tries - 1) else (s1, r)
  }

  // An error of the attempts is only logged; the finalizer goes regardless.
  function PrepareForDeletion(s: Sys, rmq: Cluster, tries: nat): (Sys, bool) {
    if !rmq.finalizer then (s, true)
    else
      var s1 := Retried(s, rmq, tries).0;
      var (s2, r) := RemoveFinalizer(s1, rmq);
      (s2, r.Ok?)
  }

  class Finalizer {
    var sys: Sys
    const tries: nat

    constructor (sys: Sys, tries: nat)
      ensures this.sys == sys && this.tries == tries
    {
      this.sys, this.tries := sys, tries;
    }

    method GetStatefulSetUID(rmq: Cluster) returns (uid: Reply<nat>)
      modifies this
      ensures (sys, uid) == StatefulSetUID(old(sys), rmq)
    {
      var (s, r) := ReadSts(sys);
      sys := s;
      if !r.Ok? { return Failed; }
      if r.value.owner != Some(rmq.uid) { return Failed; }
      return Ok(r.value.uid);
    }

    method AddRabbitmqDeletionLabel(pods: seq<Listed>) returns (r: Reply<()>)
      modifies this
      ensures (sys, r) == LabelPods(old(sys), pods)
    {
      hide UpdatePod;
      for i := 0 to |pods|
        invariant LabelPods(old(sys), pods) == LabelPods(sys, pods[i..])
      {
        assert pods[i..][1..] == pods[i + 1..];
        var (s, u) := UpdatePod(sys, pods[i].name, pods[i].pod.(marked := true));
        sys := s;
        if !u.Ok? && !u.NotFound? { return u; }
      }
      assert pods[|pods|..] == [];
      return Ok(());
    }

    method DeleteOnce(rmq: Cluster) returns (r: Reply<()>)
      modifies this
      ensures (sys, r) == Attempt(old(sys), rmq)
    {
      hide StatefulSetUID, ListPods, LabelPods, DeleteSts;
      var uid := GetStatefulSetUID(rmq);
      if !uid.Ok? { return Failed; }
      var (s2, pods) := ListPods(sys, rmq.name);
      sys := s2;
      if !pods.Ok? { return Failed; }
      r := AddRabbitmqDeletionLabel(pods.value);
      if !r.Ok? { return; }
      var (s4, d) := DeleteSts(sys, uid.value, rmq.uid, pods.value);
      sys := s4;
      return if d.NotFound? then Ok(()) else d;
    }

    method Prepare(rmq: Cluster) returns (ok: bool)
      modifies this
      ensures (sys, ok) == PrepareForDeletion(old(sys), rmq, tries)
    {
      hide Attempt;
      if !rmq.finalizer { return true; }
      var k, done := 0, false;
      while k < tries && !done
        invariant k <= tries
        invariant Retried(old(sys), rmq, tries).0 == if done then sys else Retried(sys, rmq, tries - k).0
      {
        var r := DeleteOnce(rmq);
        done := !r.Conflict?;
        k := k + 1;
      }
      var (s, r) := RemoveFinalizer(sys, rmq);
      sys := s;
      return r.Ok?;
    }
  }

  /* ---- what stays of the past ---- */

  predicate Numbered(s: Store) {
    && (s.cluster.Some? ==> s.cluster.value.uid < s.nextId && s.cluster.value.rv < s.nextId)
    && (s.sts.Some? ==> s.sts.value.uid < s.nextId)
    && (forall n :: n in s.pods ==> s.pods[n].uid < s.nextId && s.pods[n].rv < s.nextId)
  }

  // A pod continues another when it is the same, marked if that was, or a newer
  // version of it; a pod made since has a new uid.
  predicate PodContinues(a: Store, n: string, p: Pod) {
    if n in a.pods && a.pods[n].uid == p.uid
    then (a.pods[n].marked ==> p.marked) && (p == a.pods[n] || p.rv >= a.nextId)
    else p.uid >= a.nextId && p.rv >= a.nextId
  }

  // What an earlier state of the store tells about a later one.
  predicate Continues(a: Store, b: Store) {
    && a.nextId <= b.nextId
    && (b.cluster.Some? ==>
        b.cluster == a.cluster || (b.cluster.value.rv >= a.nextId && b.cluster.value.uid >= a.nextId))
    && (b.sts.Some? ==> b.sts == a.sts || b.sts.value.uid >= a.nextId)
    && (forall n :: n in b.pods ==> PodContinues(a, n, b.pods[n]))
  }

  lemma ContinuesTransitive(a: Store, b: Store, c: Store)
    requires Numbered(a) && Continues(a, b) && Continues(b, c)
    ensures Continues(a, c)
  {
  }

  predicate Inv(w: World) {
    Numbered(w.now) && forall k :: 0 <= k < |w.past| ==> Numbered(w.past[k]) && Continues(w.past[k], w.now)
  }

  lemma BecameKeeps(w: World, now: Store)
    requires Inv(w) && Numbered(now) && Continues(w.now, now)
    ensures Inv(Became(w, now))
  {
    var v := Became(w, now);
    forall k | 0 <= k < |v.past| ensures Numbered(v.past[k]) && Continues(v.past[k], now) {
      if k < |w.past| {
        assert v.past[k] == w.past[k];
        ContinuesTransitive(w.past[k], w.now, now);
      }
    }
  }

  lemma ChangedContinues(s: Store, e: EnvStep)
    requires Numbered(s)
    ensures Numbered(Changed(s, e)) && Continues(s, Changed(s, e))
  {
  }

  // A later world, with the same or a longer log.
  predicate Follows(w: World, v: World) {
    Inv(v) && Continues(w.now, v.now)
  }

  lemma FollowsTransitive(w: World, v: World, u: World)
    requires Inv(w) && Follows(w, v) && Follows(v, u)
    ensures Follows(w, u)
  {
    ContinuesTransitive(w.now, v.now, u.now);
  }

  lemma {:induction false} ActedFollows(w: World, es: seq<EnvStep>)
    requires Inv(w)
    ensures Follows(w, ActedAll(w, es)) && ActedAll(w, es).log == w.log
    decreases |es|
  {
    if es != [] {
      var v := Became(w, Changed(w.now, es[0]));
      ChangedContinues(w.now, es[0]);
      BecameKeeps(w, Changed(w.now, es[0]));
      hide Changed, Continues, Numbered;
      ActedFollows(v, es[1..]);
      FollowsTransitive(w, v, ActedAll(w, es));
    }
  }

  lemma EnterFollows(s: Sys)
    requires Inv(s.w)
    ensures Follows(s.w, Enter(s).w) && Enter(s).w.log == s.w.log
  {
    ActedFollows(s.w, TurnOf(s).env);
  }

  /* ---- what a stale copy still tells ---- */

  predicate HeldPod(w: World, l: Listed) {
    && l.pod.uid < w.now.nextId && l.pod.rv < w.now.nextId
    && (l.name in w.now.pods && w.now.pods[l.name].rv == l.pod.rv ==> w.now.pods[l.name] == l.pod)
  }

  predicate HeldSts(w: World, sts: Sts) {
    sts.uid < w.now.nextId && (w.now.sts.Some? && w.now.sts.value.uid == sts.uid ==> w.now.sts.value == sts)
  }

  predicate HeldCluster(w: World, c: Cluster) {
    c.rv < w.now.nextId && (w.now.cluster.Some? && w.now.cluster.value.rv == c.rv ==> w.now.cluster.value == c)
  }

  lemma ShownIsPast(w: World, age: nat)
    requires Inv(w)
    ensures Numbered(Shown(w, age)) && Continues(Shown(w, age), w.now)
  {
  }

  lemma ShownIsHeld(w: World, age: nat, n: string)
    requires Inv(w)
    ensures var a := Shown(w, age);
            && (n in a.pods ==> HeldPod(w, Listed(n, a.pods[n])))
            && (a.sts.Some? ==> HeldSts(w, a.sts.value)) && (a.cluster.Some? ==> HeldCluster(w, a.cluster.value))
  {
    ShownIsPast(w, age);
  }

  lemma HeldPodOn(w: World, v: World, l: Listed)
    requires Follows(w, v) && HeldPod(w, l)
    ensures HeldPod(v, l)
  {
  }

  // Unless this very pod is gone it carries the label.
  predicate Labelled(pods: map<string, Pod>, l: Listed) {
    l.name in pods && pods[l.name].uid == l.pod.uid ==> pods[l.name].marked
  }

  lemma LabelledOn(w: World, v: World, l: Listed)
    requires Follows(w, v) && l.pod.uid < w.now.nextId && Labelled(w.now.pods, l)
    ensures Labelled(v.now.pods, l)
  {
    if l.name in v.now.pods { assert PodContinues(w.now, l.name, v.now.pods[l.name]); }
  }

  lemma UpdatePodLabels(s: Sys, l: Listed)
    requires Inv(s.w) && HeldPod(s.w, l)
    ensures var (v, r) := UpdatePod(s, l.name, l.pod.(marked := true));
            Follows(s.w, v.w) && v.w.log == s.w.log && (r.Ok? || r.NotFound? ==> Labelled(v.w.now.pods, l))
  {
    EnterFollows(s);
    var e := Enter(s);
    HeldPodOn(s.w, e.w, l);
    var (v, r) := UpdatePod(s, l.name, l.pod.(marked := true));
    if v != e {
      var now := e.w.now;
      assert v.w == Became(e.w, v.w.now) && Numbered(v.w.now) && Continues(now, v.w.now);
      BecameKeeps(e.w, v.w.now);
      FollowsTransitive(s.w, e.w, v.w);
    }
  }

  lemma {:induction false} LabelPodsLabels(s: Sys, pods: seq<Listed>, l: Listed)
    requires Inv(s.w) && forall p :: p in pods ==> HeldPod(s.w, p)
    ensures var (v, r) := LabelPods(s, pods);
            Follows(s.w, v.w) && v.w.log == s.w.log && (r.Ok? && l in pods ==> Labelled(v.w.now.pods, l))
    decreases |pods|
  {
    if pods != [] {
      var (s1, r) := UpdatePod(s, pods[0].name, pods[0].pod.(marked := true));
      UpdatePodLabels(s, pods[0]);
      if r.Ok? || r.NotFound? {
        forall p | p in pods[1..] ensures HeldPod(s1.w, p) {
          assert HeldPod(s.w, p);
          HeldPodOn(s.w, s1.w, p);
        }
        LabelPodsLabels(s1, pods[1..], l);
        var (v, o) := LabelPods(s1, pods[1..]);
        assert LabelPods(s, pods) == (v, o);
        hide UpdatePod, LabelPods, Continues, Inv;
        FollowsTransitive(s.w, s1.w, v.w);
        if o.Ok? && l == pods[0] { LabelledOn(s1.w, v.w, l); }
      }
    }
  }

  /* ---- the two promises ---- */

  predicate GoodEvent(e: Event) {
    match e
    case DeleteIssued(claimant, uid, listed, pods, deleted) =>
      && (deleted.Some? ==> deleted.value.owner == Some(claimant) && deleted.value.uid == uid)
      && (forall l :: l in listed ==> Labelled(pods, l))
    case FinalizerRemoved(claimant, stored) => stored.uid == claimant
  }

  predicate GoodLog(log: seq<Event>) {
    forall e :: e in log ==> GoodEvent(e)
  }

  // A world that follows, its log still good.
  predicate Safe(w: World, v: World) {
    Follows(w, v) && GoodLog(v.log)
  }

  lemma SafeTransitive(w: World, v: World, u: World)
    requires Inv(w) && Safe(w, v) && Safe(v, u)
    ensures Safe(w, u)
  {
    FollowsTransitive(w, v, u);
  }

  lemma DeleteStsIsSafe(s: Sys, sts: Sts, claimant: nat, listed: seq<Listed>)
    requires Inv(s.w) && GoodLog(s.w.log) && HeldSts(s.w, sts) && sts.owner == Some(claimant)
    requires forall l :: l in listed ==> HeldPod(s.w, l) && Labelled(s.w.now.pods, l)
    ensures Safe(s.w, DeleteSts(s, sts.uid, claimant, listed).0.w)
  {
    EnterFollows(s);
    var e, v := Enter(s), DeleteSts(s, sts.uid, claimant, listed).0;
    forall l | l in listed ensures Labelled(e.w.now.pods, l) {
      assert HeldPod(s.w, l);
      LabelledOn(s.w, e.w, l);
    }
    if v.w.now != e.w.now {
      var gone := e.w.now.(sts := None);
      assert v.w == Became(e.w, gone).(log := v.w.log);
      BecameKeeps(e.w, gone);
      FollowsTransitive(s.w, e.w, Became(e.w, gone));
    }
  }

  lemma RemoveFinalizerIsSafe(s: Sys, rmq: Cluster)
    requires Inv(s.w) && GoodLog(s.w.log) && HeldCluster(s.w, rmq)
    ensures Safe(s.w, RemoveFinalizer(s, rmq).0.w)
  {
    EnterFollows(s);
    var e, v := Enter(s), RemoveFinalizer(s, rmq).0;
    if v != e {
      var now := e.w.now.(cluster := None, nextId := e.w.now.nextId + 1);
      assert v.w == Became(e.w, now).(log := v.w.log);
      BecameKeeps(e.w, now);
      FollowsTransitive(s.w, e.w, Became(e.w, now));
    }
  }

  lemma ListPodsLists(s: Sys, cluster: string)
    requires Inv(s.w)
    ensures var (v, r) := ListPods(s, cluster);
            Follows(s.w, v.w) && v.w.log == s.w.log && (r.Ok? ==> forall l :: l in r.value ==> HeldPod(v.w, l))
  {
    EnterFollows(s);
    var (v, r) := ListPods(s, cluster);
    if r.Ok? {
      forall l | l in r.value ensures HeldPod(v.w, l) {
        ShownIsHeld(v.w, TurnOf(s).age, l.name);
      }
    }
  }

  lemma AttemptIsSafe(s: Sys, rmq: Cluster)
    requires Inv(s.w) && GoodLog(s.w.log)
    ensures Safe(s.w, Attempt(s, rmq).0.w)
  {
    var (s1, r) := ReadSts(s);
    EnterFollows(s);
    ShownIsHeld(s1.w, TurnOf(s).age, "");
    var (_, uid) := StatefulSetUID(s, rmq);
    if uid.Ok? {
      assert r.Ok? && HeldSts(s1.w, r.value) && uid.value == r.value.uid && r.value.owner == Some(rmq.uid);
      var (s2, pods) := ListPods(s1, rmq.name);
      ListPodsLists(s1, rmq.name);
      FollowsTransitive(s.w, s1.w, s2.w);
      if pods.Ok? {
        var (s3, l) := LabelPods(s2, pods.value);
        LabelPodsLabels(s2, pods.value, Listed("", Pod(0, 0, "", false)));
        FollowsTransitive(s.w, s2.w, s3.w);
        if l.Ok? {
          forall p | p in pods.value ensures HeldPod(s3.w, p) && Labelled(s3.w.now.pods, p) {
            HeldPodOn(s2.w, s3.w, p);
            LabelPodsLabels(s2, pods.value, p);
          }
          FollowsTransitive(s1.w, s2.w, s3.w);
          HeldStsOn(s1.w, s3.w, r.value);
          DeleteStsIsSafe(s3, r.value, rmq.uid, pods.value);
          var s4 := DeleteSts(s3, r.value.uid, rmq.uid, pods.value).0;
          assert Attempt(s, rmq).0 == s4;
          hide *;
          SafeTransitive(s.w, s3.w, s4.w);
        }
      }
    }
  }

  lemma HeldStsOn(w: World, v: World, sts: Sts)
    requires Follows(w, v) && HeldSts(w, sts)
    ensures HeldSts(v, sts)
  {
  }

  lemma HeldClusterOn(w: World, v: World, c: Cluster)
    requires Follows(w, v) && HeldCluster(w, c)
    ensures HeldCluster(v, c)
  {
  }

  lemma {:induction false} RetriedIsSafe(s: Sys, rmq: Cluster, tries: nat)
    requires Inv(s.w) && GoodLog(s.w.log)
    ensures Safe(s.w, Retried(s, rmq, tries).0.w)
    decreases tries
  {
    if tries > 0 {
      AttemptIsSafe(s, rmq);
      var (s1, r) := Attempt(s, rmq);
      if r.Conflict? {
        RetriedIsSafe(s1, rmq, tries - 1);
        SafeTransitive(s.w, s1.w, Retried(s1, rmq, tries - 1).0.w);
      }
    }
  }

  lemma PrepareIsSafe(s: Sys, rmq: Cluster, tries: nat)
    requires Inv(s.w) && GoodLog(s.w.log) && HeldCluster(s.w, rmq)
    ensures Safe(s.w, PrepareForDeletion(s, rmq, tries).0.w)
  {
    if rmq.finalizer {
      var s1 := Retried(s, rmq, tries).0;
      RetriedIsSafe(s, rmq, tries);
      HeldClusterOn(s.w, s1.w, rmq);
      RemoveFinalizerIsSafe(s1, rmq);
      SafeTransitive(s.w, s1.w, RemoveFinalizer(s1, rmq).0.w);
    }
  }

  /* ---- runs ---- */

  // Others act, and deletions begin, each for the resource as some earlier or
  // the present state of the store shows it.
  datatype Action = Others(env: seq<EnvStep>) | Begin(age: nat, turns: seq<Turn>, tries: nat)

  function Next(w: World, a: Action): World {
    match a
    case Others(env) => ActedAll(w, env)
    case Begin(age, turns, tries) =>
      var rmq := Shown(w, age).cluster;
      if rmq.None? then w else PrepareForDeletion(Sys(w, turns), rmq.value, tries).0.w
  }

  function Run(w: World, run: seq<Action>): World
    decreases |run|
  {
    if run == [] then w else Run(Next(w, run[0]), run[1..])
  }

  lemma {:induction false} RunIsSafe(w: World, run: seq<Action>)
    requires Inv(w) && GoodLog(w.log)
    ensures Safe(w, Run(w, run))
    decreases |run|
  {
    if run != [] {
      var v := Next(w, run[0]);
      match run[0] {
        case Others(env) => ActedFollows(w, env);
        case Begin(age, turns, tries) =>
          ShownIsHeld(w, age, "");
          var rmq := Shown(w, age).cluster;
          if rmq.Some? { PrepareIsSafe(Sys(w, turns), rmq.value, tries); }
      }
      assert Safe(w, v);
      hide *;
      RunIsSafe(v, run[1..]);
      SafeTransitive(w, v, Run(v, run[1..]));
    }
  }

  // Over every run: a StatefulSet that was deleted was owned by the very
  // incarnation of the cluster on whose behalf it was deleted, and when the
  // deletion was issued every pod listed before that still existed had its
  // label; and a finalizer is removed only from the incarnation that was read.
  lemma DeletionIsFenced(start: Store, run: seq<Action>, k: nat)
    requires Numbered(start) && k < |Run(World(start, [], []), run).log|
    ensures match Run(World(start, [], []), run).log[k]
            case DeleteIssued(claimant, uid, listed, pods, deleted) =>
              && (deleted.Some? ==> deleted.value.owner == Some(claimant) && deleted.value.uid == uid)
              && (forall l :: l in listed && l.name in pods && pods[l.name].uid == l.pod.uid ==> pods[l.name].marked)
            case FinalizerRemoved(claimant, stored) => stored.uid == claimant
  {
    var w := World(start, [], []);
    RunIsSafe(w, run);
    var e := Run(w, run).log[k];
    assert GoodEvent(e);
    if e.DeleteIssued? {
      forall l | l in e.listed && l.name in e.pods && e.pods[l.name].uid == l.pod.uid ensures e.pods[l.name].marked {
        assert Labelled(e.pods, l);
      }
    }
  }

  /* ---- what the safety costs, and what it does not ---- */

  // Nothing comes between, every call is answered, reads are fresh.
  predicate Quiet(s: Sys) {
    forall k :: 0 <= k < |s.turns| ==>
      s.turns[k].env == [] && s.turns[k].fate == Delivered && s.turns[k].age >= |s.w.past| + |s.turns|
  }

  predicate CurrentPods(s: Sys, pods: seq<Listed>) {
    && (forall i :: 0 <= i < |pods| ==> pods[i].name in s.w.now.pods && s.w.now.pods[pods[i].name] == pods[i].pod)
    && (forall i, j :: 0 <= i < j < |pods| ==> pods[i].name != pods[j].name)
  }

  lemma {:induction false} LabelPodsQuietly(s: Sys, pods: seq<Listed>, n: string)
    requires Quiet(s) && CurrentPods(s, pods) && |s.turns| >= |pods|
    ensures var (v, r) := LabelPods(s, pods);
            && r.Ok? && Quiet(v) && v.turns == s.turns[|pods|..]
            && v.w.now.sts == s.w.now.sts && v.w.now.cluster == s.w.now.cluster
            && ((exists i :: 0 <= i < |pods| && pods[i].name == n) || (n in s.w.now.pods && s.w.now.pods[n].marked)
                ==> n in v.w.now.pods && v.w.now.pods[n].marked)
    decreases |pods|
  {
    if pods != [] {
      var (s1, r) := UpdatePod(s, pods[0].name, pods[0].pod.(marked := true));
      assert r.Ok? && s1.turns == s.turns[1..] && |s1.w.past| == |s.w.past| + 1;
      assert Quiet(s1);
      forall i | 0 <= i < |pods[1..]|
        ensures pods[1..][i].name in s1.w.now.pods && s1.w.now.pods[pods[1..][i].name] == pods[1..][i].pod
      {
        assert pods[1..][i] == pods[i + 1] && pods[0].name != pods[i + 1].name;
      }
      assert CurrentPods(s1, pods[1..]);
      if i :| 0 <= i < |pods| && pods[i].name == n {
        if i > 0 { assert pods[1..][i - 1].name == n; }
      }
      LabelPodsQuietly(s1, pods[1..], n);
    }
  }

  // Undisturbed, one call labels every pod of the cluster, deletes its
  // StatefulSet and lets the resource go.
  lemma DeletionCompletes(s: Sys, rmq: Cluster, tries: nat, n: string)
    requires Quiet(s) && tries > 0 && rmq.finalizer && s.w.now.cluster == Some(rmq)
    requires s.w.now.sts.Some? && s.w.now.sts.value.owner == Some(rmq.uid)
    requires |s.turns| > 1 && IsListing(s.w.now.pods, rmq.name, s.turns[1].order) && |s.turns| >= 4 + |s.turns[1].order|
    ensures var (v, ok) := PrepareForDeletion(s, rmq, tries);
            && ok && v.w.now.sts.None? && v.w.now.cluster.None?
            && (n in s.w.now.pods && s.w.now.pods[n].cluster == rmq.name ==>
                n in v.w.now.pods && v.w.now.pods[n].marked)
  {
    var s1 := Enter(s);
    assert s1 == Sys(s.w, s.turns[1..]);
    assert StatefulSetUID(s, rmq) == (s1, Ok(s.w.now.sts.value.uid));
    var (s2, pods) := ListPods(s1, rmq.name);
    assert s2 == Sys(s.w, s.turns[2..]) && pods.Ok? && |pods.value| == |s.turns[1].order|;
    assert CurrentPods(s2, pods.value) && Quiet(s2);
    LabelPodsQuietly(s2, pods.value, n);
    var (s3, l) := LabelPods(s2, pods.value);
    if n in s.w.now.pods && s.w.now.pods[n].cluster == rmq.name {
      var i :| 0 <= i < |s.turns[1].order| && s.turns[1].order[i] == n;
      assert pods.value[i].name == n;
    }
    var (s4, d) := DeleteSts(s3, s.w.now.sts.value.uid, rmq.uid, pods.value);
    assert d.Ok? && s4.turns == s3.turns[1..];
    assert Attempt(s, rmq) == (s4, Ok(()));
    assert Retried(s, rmq, tries) == (s4, Ok(()));
    assert s4.turns[0].fate == Delivered && s4.turns[0].env == [];
  }

  // A StatefulSet of another owner, or none, ends the attempt at its first read.
  lemma NothingToDelete(s: Sys, rmq: Cluster, tries: nat)
    requires Quiet(s) && tries > 0 && rmq.finalizer && s.w.now.cluster == Some(rmq) && |s.turns| > 1
    requires s.w.now.sts.Some? ==> s.w.now.sts.value.owner != Some(rmq.uid)
    ensures var (v, ok) := PrepareForDeletion(s, rmq, tries);
            ok && v.w.now.cluster.None? && v.w.now.sts == s.w.now.sts && v.w.now.pods == s.w.now.pods
  {
    var s1 := Enter(s);
    assert s1 == Sys(s.w, s.turns[1..]);
    assert Attempt(s, rmq) == (s1, Failed);
    assert Retried(s, rmq, tries) == (s1, Failed);
    assert Enter(s1).w == s.w;
  }

  predicate Owned(s: Store, rmq: Cluster) {
    s.sts.Some? && s.sts.value.owner == Some(rmq.uid)
  }

  // Undisturbed, the resource goes in any case; its StatefulSet is gone with it
  // if and only if there was none or it was owned by this very incarnation,
  // and one of another owner is left alone with all pods.
  lemma ResourceGoesRegardless(s: Sys, rmq: Cluster, tries: nat)
    requires Quiet(s) && tries > 0 && rmq.finalizer && s.w.now.cluster == Some(rmq) && |s.turns| > 1
    requires Owned(s.w.now, rmq) ==>
      IsListing(s.w.now.pods, rmq.name, s.turns[1].order) && |s.turns| >= 4 + |s.turns[1].order|
    ensures var (v, ok) := PrepareForDeletion(s, rmq, tries);
            && ok && v.w.now.cluster.None?
            && (v.w.now.sts.None? <==> s.w.now.sts.None? || Owned(s.w.now, rmq))
            && (!Owned(s.w.now, rmq) ==> v.w.now.sts == s.w.now.sts && v.w.now.pods == s.w.now.pods)
  {
    hide PrepareForDeletion, IsListing, Quiet;
    if Owned(s.w.now, rmq) { DeletionCompletes(s, rmq, tries, ""); } else { NothingToDelete(s, rmq, tries); }
  }

  // Whatever happens at the calls: unless the attempts ended in an error, which
  // is only logged, there was no StatefulSet left when the finalizer's turn came.
  lemma {:induction false} OnlyErrorsLeaveIt(s: Sys, rmq: Cluster, tries: nat)
    ensures var (v, r) := Retried(s, rmq, tries); r.Ok? ==> v.w.now.sts.None?
    decreases tries
  {
    hide Attempt;
    if tries > 0 {
      var (s1, r) := Attempt(s, rmq);
      AttemptLeavesNone(s, rmq);
      if r.Conflict? { OnlyErrorsLeaveIt(s1, rmq, tries - 1); }
    }
  }

  lemma AttemptLeavesNone(s: Sys, rmq: Cluster)
    ensures var (v, r) := Attempt(s, rmq); r.Ok? ==> v.w.now.sts.None?
  {
    hide StatefulSetUID, ListPods, LabelPods, Enter;
  }
}
