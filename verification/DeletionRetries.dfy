// Deleting a cluster whose pods change while they are labelled: which attempts
// end in a conflict, and when retrying gets there.
module DeletionRetries {
  import opened Text
  import opened Deletion

  function TouchedNames(env: seq<EnvStep>): set<string> {
    set k | 0 <= k < |env| && env[k].TouchPod? :: env[k].name
  }

  function DroppedNames(env: seq<EnvStep>): set<string> {
    set k | 0 <= k < |env| && env[k].DropPod? :: env[k].name
  }

  // How many of these pods are passed, labelled or gone, before one is met that
  // was touched since the listing; each is one call.
  function Reach(turns: seq<Turn>, names: seq<string>, touched: set<string>, dropped: set<string>): (j: nat)
    ensures j <= |names| && j <= |turns|
    decreases |names|
  {
    if names == [] || turns == [] then 0
    else
      var t, d := touched + TouchedNames(turns[0].env), dropped + DroppedNames(turns[0].env);
      if names[0] in t && names[0] !in d then 0 else 1 + Reach(turns[1..], names[1..], t, d)
  }

  // One of the attempts meets no pod that is there and was touched between its
  // listing and its label. An attempt is two reads, a call for each pod it gets
  // to and, if it gets past all of them, the deletion.
  predicate Succeeds(turns: seq<Turn>, tries: nat)
    decreases tries
  {
    && tries > 0 && |turns| >= 2
    && var j := Reach(turns[2..], turns[1].order, {}, {});
       |turns| >= 3 + j && (j == |turns[1].order| || Succeeds(turns[3 + j..], tries - 1))
  }

  /* ---- a store whose pods change and go ---- */

  predicate PodSteps(env: seq<EnvStep>) {
    forall k :: 0 <= k < |env| ==> env[k].TouchPod? || env[k].DropPod?
  }

  function Steps(turns: seq<Turn>): nat {
    if turns == [] then 0 else 1 + |turns[0].env| + Steps(turns[1..])
  }

  function Members(s: Store, cluster: string): set<string> {
    set n | n in s.pods && s.pods[n].cluster == cluster
  }

  // Each of these names once.
  predicate Lists(order: seq<string>, names: set<string>) {
    && (forall i :: 0 <= i < |order| ==> order[i] in names) && (forall n :: n in names ==> n in order)
    && (forall i, j :: 0 <= i < j < |order| ==> order[i] != order[j])
  }

  // Calls are answered, others only touch or remove pods, and listings list the
  // pods that are left.
  predicate Attended(turns: seq<Turn>, members: set<string>)
    decreases |turns|
  {
    turns == [] ||
      var left := members - DroppedNames(turns[0].env);
      && turns[0].fate == Delivered && PodSteps(turns[0].env) && Lists(turns[0].order, left)
      && Attended(turns[1..], left)
  }

  // Moreover reads are fresh.
  predicate Fresh(s: Sys) {
    forall k :: 0 <= k < |s.turns| ==> s.turns[k].age >= |s.w.past| + Steps(s.turns)
  }

  predicate Ahead(s: Sys, cluster: string) {
    Numbered(s.w.now) && Fresh(s) && Attended(s.turns, Members(s.w.now, cluster))
  }

  // Pods of other clusters get no label, and none loses it.
  predicate PodsOnly(a: Store, b: Store, cluster: string) {
    && b.pods.Keys <= a.pods.Keys && a.sts == b.sts && a.cluster == b.cluster && a.nextId <= b.nextId
    && forall n :: n in b.pods ==>
         && b.pods[n].cluster == a.pods[n].cluster && b.pods[n].uid == a.pods[n].uid
         && (a.pods[n].marked ==> b.pods[n].marked)
         && (b.pods[n].marked ==> a.pods[n].marked || b.pods[n].cluster == cluster)
  }

  lemma PodsOnlyTransitive(a: Store, b: Store, c: Store, cluster: string)
    requires PodsOnly(a, b, cluster) && PodsOnly(b, c, cluster)
    ensures PodsOnly(a, c, cluster)
  {
  }

  // What others leave of the pods.
  predicate Disturbed(a: Store, b: Store, touched: set<string>, dropped: set<string>) {
    forall n :: n in a.pods ==>
      && (n in b.pods <==> n !in dropped)
      && (n in b.pods ==> if n in touched then b.pods[n].rv >= a.nextId else b.pods[n] == a.pods[n])
  }

  lemma Split(env: seq<EnvStep>)
    requires env != []
    ensures TouchedNames(env) == TouchedNames([env[0]]) + TouchedNames(env[1..])
    ensures DroppedNames(env) == DroppedNames([env[0]]) + DroppedNames(env[1..])
  {
    assert env == [env[0]] + env[1..];
    Union([env[0]], env[1..]);
  }

  lemma Union(a: seq<EnvStep>, b: seq<EnvStep>)
    ensures TouchedNames(a + b) == TouchedNames(a) + TouchedNames(b)
    ensures DroppedNames(a + b) == DroppedNames(a) + DroppedNames(b)
  {
    var c := a + b;
    forall k | 0 <= k < |a| ensures c[k] == a[k] {}
    forall k | 0 <= k < |b| ensures c[|a| + k] == b[k] {}
    forall k | 0 <= k < |c| ensures c[k] == if k < |a| then a[k] else b[k - |a|] {}
  }

  lemma OneStep(s: Store, e: EnvStep, cluster: string)
    requires Numbered(s) && PodSteps([e])
    ensures var v := Changed(s, e);
            Numbered(v) && PodsOnly(s, v, cluster) && Disturbed(s, v, TouchedNames([e]), DroppedNames([e]))
  {
    assert [e][0] == e;
  }

  lemma DisturbedTransitive(a: Store, b: Store, c: Store, t: set<string>, d: set<string>, t1: set<string>,
    d1: set<string>)
    requires a.nextId <= b.nextId && Disturbed(a, b, t, d) && Disturbed(b, c, t1, d1) && c.pods.Keys <= b.pods.Keys
    ensures Disturbed(a, c, t + t1, d + d1)
  {
  }

  lemma {:induction false} OthersTouch(w: World, env: seq<EnvStep>, cluster: string)
    requires Numbered(w.now) && PodSteps(env)
    ensures var v := ActedAll(w, env);
            && Numbered(v.now) && PodsOnly(w.now, v.now, cluster) && |v.past| == |w.past| + |env| && v.log == w.log
            && Disturbed(w.now, v.now, TouchedNames(env), DroppedNames(env))
    decreases |env|
  {
    if env != [] {
      var v := Became(w, Changed(w.now, env[0]));
      OneStep(w.now, env[0], cluster);
      OthersTouch(v, env[1..], cluster);
      Split(env);
      var u := ActedAll(v, env[1..]);
      assert ActedAll(w, env) == u;
      PodsOnlyTransitive(w.now, v.now, u.now, cluster);
      DisturbedTransitive(w.now, v.now, u.now, TouchedNames([env[0]]), DroppedNames([env[0]]), TouchedNames(env[1..]),
        DroppedNames(env[1..]));
      hide Numbered, PodsOnly, Disturbed, TouchedNames, DroppedNames, ActedAll, Changed;
    }
  }

  // One call: others have touched and removed some pods, and it is answered.
  lemma EnterTouches(s: Sys, cluster: string)
    requires Ahead(s, cluster) && s.turns != []
    ensures var e, env := Enter(s), s.turns[0].env;
            && Ahead(e, cluster) && PodsOnly(s.w.now, e.w.now, cluster) && e.turns == s.turns[1..]
            && e.w.log == s.w.log && TurnOf(s).fate == Delivered && Shown(e.w, TurnOf(s).age) == e.w.now
            && |e.w.past| + Steps(e.turns) + 1 <= |s.w.past| + Steps(s.turns)
            && Lists(TurnOf(s).order, Members(e.w.now, cluster))
            && Disturbed(s.w.now, e.w.now, TouchedNames(env), DroppedNames(env))
  {
    var e, env := Enter(s), s.turns[0].env;
    OthersTouch(s.w, env, cluster);
    assert Members(e.w.now, cluster) == Members(s.w.now, cluster) - DroppedNames(env);
    hide Lists, PodsOnly, Disturbed, TouchedNames, DroppedNames, ActedAll, Numbered, Members;
  }

  /* ---- labelling ---- */

  // The copies are current but for pods touched since, and those removed since
  // are gone.
  predicate Copies(s: Sys, cluster: string, pods: seq<Listed>, touched: set<string>, dropped: set<string>) {
    && (forall i :: 0 <= i < |pods| ==> Copy(s.w.now, cluster, pods[i], touched, dropped))
    && (forall i, j :: 0 <= i < j < |pods| ==> pods[i].name != pods[j].name)
  }

  predicate Copy(now: Store, cluster: string, l: Listed, touched: set<string>, dropped: set<string>) {
    && l.pod.cluster == cluster && l.pod.rv < now.nextId && (l.name in now.pods <==> l.name !in dropped)
    && (l.name in now.pods ==>
        && now.pods[l.name].uid == l.pod.uid && now.pods[l.name].cluster == cluster
        && (if l.name in touched then now.pods[l.name].rv != l.pod.rv else now.pods[l.name] == l.pod))
  }

  lemma CopyAfter(a: Store, b: Store, cluster: string, l: Listed, t: set<string>, d: set<string>, t1: set<string>,
    d1: set<string>)
    requires Copy(a, cluster, l, t, d) && PodsOnly(a, b, cluster) && Disturbed(a, b, t1, d1)
    ensures Copy(b, cluster, l, t + t1, d + d1)
  {
  }

  lemma CopiesAfter(s: Sys, v: Sys, cluster: string, pods: seq<Listed>, t: set<string>, d: set<string>, t1: set<string>,
    d1: set<string>)
    requires Copies(s, cluster, pods, t, d) && PodsOnly(s.w.now, v.w.now, cluster)
    requires Disturbed(s.w.now, v.w.now, t1, d1)
    ensures Copies(v, cluster, pods, t + t1, d + d1)
  {
    forall i | 0 <= i < |pods| ensures Copy(v.w.now, cluster, pods[i], t + t1, d + d1) {
      CopyAfter(s.w.now, v.w.now, cluster, pods[i], t, d, t1, d1);
    }
  }

  function NamesOf(pods: seq<Listed>): (r: seq<string>)
    ensures |r| == |pods| && forall i :: 0 <= i < |r| ==> r[i] == pods[i].name
  {
    seq(|pods|, i requires 0 <= i < |pods| => pods[i].name)
  }

  predicate IsMarked(s: Store, n: string) {
    n in s.pods ==> s.pods[n].marked
  }

  // A label that is written.
  lemma LabelWritten(e: Sys, cluster: string, pods: seq<Listed>, t: set<string>, d: set<string>)
    requires Ahead(e, cluster) && pods != [] && Copies(e, cluster, pods, t, d)
    requires pods[0].name in e.w.now.pods && pods[0].name !in t
    ensures var now := e.w.now; var pod := pods[0].pod.(marked := true, rv := now.nextId);
            var next := now.(pods := now.pods[pods[0].name := pod], nextId := now.nextId + 1);
            && Numbered(next) && PodsOnly(now, next, cluster) && Members(next, cluster) == Members(now, cluster)
            && Copies(e.(w := Became(e.w, next)), cluster, pods[1..], t, d)
  {
    var now := e.w.now;
    var pod := pods[0].pod.(marked := true, rv := now.nextId);
    var next := now.(pods := now.pods[pods[0].name := pod], nextId := now.nextId + 1);
    forall i | 0 <= i < |pods[1..]| ensures Copy(next, cluster, pods[1..][i], t, d) {
      assert pods[1..][i] == pods[i + 1] && Copy(now, cluster, pods[i + 1], t, d);
    }
    assert Copy(now, cluster, pods[0], t, d);
  }

  // One call for a pod: a conflict if it is there and was touched.
  lemma LabelOnce(s: Sys, cluster: string, pods: seq<Listed>, touched: set<string>, dropped: set<string>)
    requires Ahead(s, cluster) && s.turns != [] && pods != [] && Copies(s, cluster, pods, touched, dropped)
    ensures var (v, r) := UpdatePod(s, pods[0].name, pods[0].pod.(marked := true)); var env := s.turns[0].env;
            var t, d := touched + TouchedNames(env), dropped + DroppedNames(env);
            && v.turns == s.turns[1..] && Ahead(v, cluster) && PodsOnly(s.w.now, v.w.now, cluster)
            && if pods[0].name in t && pods[0].name !in d then r.Conflict?
               else (r.Ok? || r.NotFound?) && IsMarked(v.w.now, pods[0].name) && Copies(v, cluster, pods[1..], t, d)
  {
    var e, env := Enter(s), s.turns[0].env;
    var (v, r) := UpdatePod(s, pods[0].name, pods[0].pod.(marked := true));
    var t, d := touched + TouchedNames(env), dropped + DroppedNames(env);
    EnterTouches(s, cluster);
    CopiesAfter(s, e, cluster, pods, touched, dropped, TouchedNames(env), DroppedNames(env));
    assert Copy(e.w.now, cluster, pods[0], t, d);
    assert Copies(e, cluster, pods[1..], t, d);
    hide Attended, TouchedNames, DroppedNames, Numbered, Copies, Disturbed, Members, PodsOnly, Enter;
    if pods[0].name in e.w.now.pods && pods[0].name !in t {
      LabelWritten(e, cluster, pods, t, d);
      PodsOnlyTransitive(s.w.now, e.w.now, v.w.now, cluster);
    }
  }

  lemma MarkStays(a: Store, b: Store, cluster: string, n: string)
    requires PodsOnly(a, b, cluster) && IsMarked(a, n)
    ensures IsMarked(b, n)
  {
  }

  lemma {:induction false} LabelsExact(s: Sys, cluster: string, pods: seq<Listed>, t: set<string>, d: set<string>,
    n: string)
    requires Ahead(s, cluster) && Copies(s, cluster, pods, t, d)
    ensures var (v, r) := LabelPods(s, pods); var j := Reach(s.turns, NamesOf(pods), t, d);
            && Ahead(v, cluster) && PodsOnly(s.w.now, v.w.now, cluster)
            && if j == |pods| then
                 r.Ok? && v.turns == s.turns[j..] && (n in NamesOf(pods) ==> IsMarked(v.w.now, n))
               else if j < |s.turns| then r.Conflict? && v.turns == s.turns[j + 1..]
               else r.Failed? && v.turns == []
    decreases |pods|
  {
    if pods == [] {
      assert s.turns[0..] == s.turns;
    } else if s.turns != [] {
      var (s1, r) := UpdatePod(s, pods[0].name, pods[0].pod.(marked := true));
      LabelOnce(s, cluster, pods, t, d);
      assert NamesOf(pods)[1..] == NamesOf(pods[1..]);
      if r.Ok? || r.NotFound? {
        var t1, d1 := t + TouchedNames(s.turns[0].env), d + DroppedNames(s.turns[0].env);
        LabelsExact(s1, cluster, pods[1..], t1, d1, n);
        var v := LabelPods(s1, pods[1..]).0;
        PodsOnlyTransitive(s.w.now, s1.w.now, v.w.now, cluster);
        MarkStays(s1.w.now, v.w.now, cluster, pods[0].name);
      }
    }
    hide Ahead, UpdatePod, TouchedNames, DroppedNames, Copies, PodsOnly, IsMarked;
  }

  /* ---- one attempt ---- */

  predicate AllMarked(s: Store, cluster: string) {
    forall n :: n in Members(s, cluster) ==> s.pods[n].marked
  }

  // Nothing but the StatefulSet and the pods differ.
  predicate SamePods(a: Store, b: Store, cluster: string) {
    PodsOnly(a, b.(sts := a.sts), cluster)
  }

  lemma SamePodsTransitive(a: Store, b: Store, c: Store, cluster: string)
    requires SamePods(a, b, cluster) && SamePods(b, c, cluster)
    ensures SamePods(a, c, cluster)
  {
    PodsOnlyTransitive(a, b.(sts := a.sts), c.(sts := a.sts), cluster);
  }

  lemma ListsIsListing(s: Store, cluster: string, order: seq<string>)
    requires Lists(order, Members(s, cluster))
    ensures IsListing(s.pods, cluster, order)
  {
    forall i | 0 <= i < |order| ensures order[i] in s.pods && s.pods[order[i]].cluster == cluster {
      assert order[i] in Members(s, cluster);
    }
    forall n | n in s.pods && s.pods[n].cluster == cluster ensures n in order {
      assert n in Members(s, cluster);
    }
  }

  // The listing shows the pods as they are.
  lemma ListingCopies(s: Sys, cluster: string)
    requires Ahead(s, cluster) && s.turns != []
    ensures var (v, r) := ListPods(s, cluster);
            && Ahead(v, cluster) && PodsOnly(s.w.now, v.w.now, cluster) && v.turns == s.turns[1..] && r.Ok?
            && NamesOf(r.value) == s.turns[0].order && Copies(v, cluster, r.value, {}, {})
            && forall n :: n in Members(v.w.now, cluster) ==> n in NamesOf(r.value)
  {
    EnterTouches(s, cluster);
    ListsIsListing(Enter(s).w.now, cluster, s.turns[0].order);
    var (v, r) := ListPods(s, cluster);
    var order := s.turns[0].order;
    forall i | 0 <= i < |order| ensures Copy(v.w.now, cluster, r.value[i], {}, {}) {
      assert r.value[i] == Listed(order[i], v.w.now.pods[order[i]]);
    }
    hide Attended, Disturbed, PodsOnly, Fresh, Copy, ActedAll;
  }

  lemma DeletionGoes(s: Sys, rmq: Cluster, sts: Sts, listed: seq<Listed>)
    requires Ahead(s, rmq.name) && s.turns != [] && s.w.now.sts == Some(sts)
    ensures var (v, d) := DeleteSts(s, sts.uid, rmq.uid, listed);
            && d.Ok? && v.w.now.sts.None? && v.turns == s.turns[1..] && Ahead(v, rmq.name)
            && SamePods(s.w.now, v.w.now, rmq.name)
  {
    EnterTouches(s, rmq.name);
    var e, v := Enter(s), DeleteSts(s, sts.uid, rmq.uid, listed).0;
    assert v.w == Became(e.w, e.w.now.(sts := None)).(log := v.w.log);
    assert Members(v.w.now, rmq.name) == Members(e.w.now, rmq.name);
    hide Attended, Disturbed, ActedAll;
  }

  // What one attempt comes to after its listing, given how far it gets.
  ghost predicate AttemptEnds(s: Sys, rmq: Cluster, j: nat, n: nat, v: Sys, r: Reply<()>) {
    && Ahead(v, rmq.name) && SamePods(s.w.now, v.w.now, rmq.name)
    && if |s.turns| <= j then r.Failed? && v.w.now.sts == s.w.now.sts
       else
         && v.turns == s.turns[j + 1..]
         && if j < n then r.Conflict? && v.w.now.sts == s.w.now.sts
            else r.Ok? && v.w.now.sts.None? && AllMarked(v.w.now, rmq.name)
  }

  lemma MarkedAll(s: Sys, pods: seq<Listed>, v: Sys, cluster: string)
    requires PodsOnly(s.w.now, v.w.now, cluster)
    requires forall n :: n in Members(s.w.now, cluster) ==> n in NamesOf(pods)
    requires forall n :: n in NamesOf(pods) ==> IsMarked(v.w.now, n)
    ensures AllMarked(v.w.now, cluster)
  {
    forall n | n in Members(v.w.now, cluster) ensures v.w.now.pods[n].marked {
      assert n in Members(s.w.now, cluster) && IsMarked(v.w.now, n);
    }
  }

  function LabelAndDelete(s: Sys, rmq: Cluster, uid: nat, pods: seq<Listed>): (Sys, Reply<()>) {
    var (s1, l) := LabelPods(s, pods);
    if !l.Ok? then (s1, l)
    else
      var (s2, d) := DeleteSts(s1, uid, rmq.uid, pods);
      (s2, if d.NotFound? then Ok(()) else d)
  }

  lemma AfterListing(s: Sys, rmq: Cluster, sts: Sts, pods: seq<Listed>)
    requires Ahead(s, rmq.name) && s.w.now.sts == Some(sts) && Copies(s, rmq.name, pods, {}, {})
    requires forall n :: n in Members(s.w.now, rmq.name) ==> n in NamesOf(pods)
    ensures var (v, r) := LabelAndDelete(s, rmq, sts.uid, pods);
            AttemptEnds(s, rmq, Reach(s.turns, NamesOf(pods), {}, {}), |pods|, v, r)
  {
    var name := rmq.name;
    var (s1, l) := LabelPods(s, pods);
    forall n ensures n in NamesOf(pods) && l.Ok? ==> IsMarked(s1.w.now, n) { LabelsExact(s, name, pods, {}, {}, n); }
    LabelsExact(s, name, pods, {}, {}, "");
    assert PodsOnly(s.w.now, s1.w.now, name) && s1.w.now.sts == Some(sts);
    assert SamePods(s.w.now, s1.w.now, name) by { assert s1.w.now.(sts := s.w.now.sts) == s1.w.now; }
    hide Ahead, Copies, Members, LabelPods, Reach, PodsOnly, IsMarked, SamePods, AllMarked;
    if l.Ok? {
      MarkedAll(s, pods, s1, name);
      if s1.turns != [] {
        DeletionGoes(s1, rmq, sts, pods);
        var s2 := DeleteSts(s1, sts.uid, rmq.uid, pods).0;
        SamePodsTransitive(s.w.now, s1.w.now, s2.w.now, name);
        AllMarkedStays(s1.w.now, s2.w.now, name);
      }
    }
  }

  lemma AllMarkedStays(a: Store, b: Store, cluster: string)
    requires SamePods(a, b, cluster) && AllMarked(a, cluster)
    ensures AllMarked(b, cluster)
  {
    forall n | n in Members(b, cluster) ensures b.pods[n].marked {
      assert n in Members(a, cluster);
    }
  }

  lemma AttemptInSteps(s: Sys, rmq: Cluster, sts: Sts)
    requires |s.turns| >= 2 && StatefulSetUID(s, rmq) == (Enter(s), Ok(sts.uid))
    requires ListPods(Enter(s), rmq.name).1.Ok?
    ensures var (s2, pods) := ListPods(Enter(s), rmq.name);
            Attempt(s, rmq) == LabelAndDelete(s2, rmq, sts.uid, pods.value)
  {
    hide StatefulSetUID, ListPods, LabelPods, DeleteSts, Enter;
  }

  // How far an attempt gets.
  function Passed(turns: seq<Turn>): nat
    requires |turns| >= 2
  {
    Reach(turns[2..], turns[1].order, {}, {})
  }

  lemma AttemptExact(s: Sys, rmq: Cluster)
    requires Ahead(s, rmq.name) && Owned(s.w.now, rmq) && |s.turns| >= 2
    ensures var (v, r) := Attempt(s, rmq); var s2 := ListPods(Enter(s), rmq.name).0;
            && s2.turns == s.turns[2..] && SamePods(s.w.now, s2.w.now, rmq.name) && s2.w.now.sts == s.w.now.sts
            && AttemptEnds(s2, rmq, Passed(s.turns), |s.turns[1].order|, v, r)
  {
    var name, sts, s1 := rmq.name, s.w.now.sts.value, Enter(s);
    EnterTouches(s, name);
    assert StatefulSetUID(s, rmq) == (s1, Ok(sts.uid)) by { hide Ahead, Enter, Members, Disturbed; }
    var (s2, pods) := ListPods(s1, name);
    ListingCopies(s1, name);
    assert s2.w.now.sts == s.w.now.sts;
    PodsOnlyTransitive(s.w.now, s1.w.now, s2.w.now, name);
    assert SamePods(s.w.now, s2.w.now, name) by { assert s2.w.now.(sts := s.w.now.sts) == s2.w.now; }
    hide Ahead, Copies, Members, ListPods, Reach, Enter, PodsOnly, SamePods, AttemptEnds, StatefulSetUID, Attempt;
    AttemptInSteps(s, rmq, sts);
    AfterListing(s2, rmq, sts, pods.value);
    assert s2.turns == s.turns[2..];
  }

  lemma FewTurnsFail(s: Sys, rmq: Cluster)
    requires Ahead(s, rmq.name) && Owned(s.w.now, rmq) && |s.turns| < 2
    ensures var (v, r) := Attempt(s, rmq);
            && r.Failed? && v.turns == [] && v.w.now.sts == s.w.now.sts && Ahead(v, rmq.name)
            && SamePods(s.w.now, v.w.now, rmq.name)
  {
    assert SamePods(s.w.now, s.w.now, rmq.name) by { assert s.w.now.(sts := s.w.now.sts) == s.w.now; }
    if s.turns != [] {
      var s1 := Enter(s);
      EnterTouches(s, rmq.name);
      assert s1.w.now.(sts := s.w.now.sts) == s1.w.now;
      assert Enter(s1) == s1;
    }
    hide Ahead, Members, Disturbed, PodsOnly, LabelPods, ActedAll;
  }

  /* ---- all attempts ---- */

  lemma {:induction false} RetriedExact(s: Sys, rmq: Cluster, tries: nat)
    requires Ahead(s, rmq.name) && Owned(s.w.now, rmq)
    ensures var v := Retried(s, rmq, tries).0; var done := Succeeds(s.turns, tries);
            && Ahead(v, rmq.name) && SamePods(s.w.now, v.w.now, rmq.name) && (v.w.now.sts.None? <==> done)
            && (done ==> AllMarked(v.w.now, rmq.name)) && (!done ==> v.w.now.sts == s.w.now.sts)
    decreases tries
  {
    assert SamePods(s.w.now, s.w.now, rmq.name) by { assert s.w.now.(sts := s.w.now.sts) == s.w.now; }
    hide Ahead, Attempt, SamePods, ListPods, AllMarked, Enter, Reach;
    if tries > 0 {
      var (s1, r) := Attempt(s, rmq);
      if |s.turns| < 2 {
        FewTurnsFail(s, rmq);
      } else {
        AttemptExact(s, rmq);
        var s2 := ListPods(Enter(s), rmq.name).0;
        SamePodsTransitive(s.w.now, s2.w.now, s1.w.now, rmq.name);
        if r.Conflict? {
          assert s1.turns == s.turns[3 + Passed(s.turns)..];
          RetriedExact(s1, rmq, tries - 1);
          SamePodsTransitive(s.w.now, s1.w.now, Retried(s1, rmq, tries - 1).0.w.now, rmq.name);
        }
      }
    }
  }

  // Deleting an owned cluster while pods are touched and removed, with every
  // call answered and reads fresh: its StatefulSet is deleted if and only if
  // one of the attempts meets no touched pod. Then all its pods that are left
  // have the label. The finalizer goes either way, and no pod of another
  // cluster gets the label. A resource without the finalizer is left alone.
  lemma RetryingGetsThere(s: Sys, rmq: Cluster, tries: nat)
    requires Ahead(s, rmq.name) && Owned(s.w.now, rmq) && s.w.now.cluster == Some(rmq)
    ensures var (v, ok) := PrepareForDeletion(s, rmq, tries); var done := Succeeds(s.turns, tries);
            if rmq.finalizer then
              && (v.w.now.sts.None? <==> done) && (done ==> AllMarked(v.w.now, rmq.name))
              && (forall n :: n in v.w.now.pods && v.w.now.pods[n].marked && v.w.now.pods[n].cluster != rmq.name ==>
                  n in s.w.now.pods && s.w.now.pods[n].marked)
              && (v.turns != [] ==> ok && v.w.now.cluster.None?)
            else ok && v == s
  {
    if rmq.finalizer {
      var s1 := Retried(s, rmq, tries).0;
      RetriedExact(s, rmq, tries);
      var (v, r) := RemoveFinalizer(s1, rmq);
      if s1.turns != [] {
        EnterTouches(s1, rmq.name);
        var e := Enter(s1);
        assert SamePods(s1.w.now, e.w.now, rmq.name) by { assert e.w.now.(sts := s1.w.now.sts) == e.w.now; }
        SamePodsTransitive(s.w.now, s1.w.now, e.w.now, rmq.name);
        if Succeeds(s.turns, tries) { AllMarkedStays(s1.w.now, e.w.now, rmq.name); }
      }
      hide Ahead, Retried, Succeeds, ActedAll, Disturbed;
    }
  }
}
