// What building the children keeps and achieves.
module Children {
  import opened Text
  import opened Rfc3339
  import opened Conditions
  import opened Spec
  import opened ConfigMaps
  import opened ApiServer
  import opened Controllers
  import opened Invariants
  import opened Calls
  import opened Passes
  import Expansion
  import Metadata
  import Scaling

  // A child is as this specification wants it.
  predicate Settled(w: World, spec: ClusterSpec, b: Builder) {
    match b
    case OtherBuilder(kind) => kind in w.others && w.others[kind] == spec
    case MapBuilder(which) => MapOf(w, which).Some?
      && UpdatedData(which, MapOf(w, which).value.data, spec) == MapOf(w, which).value.data
    case StsBuilder => w.sts.Some? ==> StsSettled(w.sts.value, spec)
  }

  // The replicas, the template and the size of the volumes asked for.
  predicate StsSettled(sts: Sts, spec: ClusterSpec) {
    sts.replicas == spec.replicas && sts.template == spec && Scaling.CapacityOf(sts) == spec.storage
  }

  lemma SteadyKeepsSettled(w: World, v: World, spec: ClusterSpec, b: Builder)
    requires Steady(w, v) && Settled(w, spec, b)
    ensures Settled(v, spec, b)
  {
  }

  // Building a child keeps everything, and disturbs no other child.
  ghost predicate BuildKeeps(w: World, v: World, b: Builder) {
    match b
    case OtherBuilder(kind) => OtherStep(w, v, kind) && SameObserved(w, v)
    case MapBuilder(which) => MapStep(w, v, which)
    case StsBuilder => Kept(w, v) && Calm(w, v)
  }

  lemma BuildKeepsSettled(w: World, v: World, b: Builder, spec: ClusterSpec, other: Builder)
    requires BuildKeeps(w, v, b) && Settled(w, spec, other) && other != b
    ensures Settled(v, spec, other)
  {
  }

  lemma BuildKeepsTransitive(w: World, v: World, u: World, b: Builder)
    requires Inv(w) && BuildKeeps(w, v, b) && BuildKeeps(v, u, b)
    ensures BuildKeeps(w, u, b)
  {
    hide Inv, Kept, Calm, MapStep, OtherStep, SameObserved;
    match b
    case OtherBuilder(kind) =>
      OtherStepTransitive(w, v, u, kind);
      ObservedTransitive(w, v, u);
    case MapBuilder(which) =>
      MapStepTransitive(w, v, u, which);
    case StsBuilder =>
      KeptTransitive(w, v, u);
      CalmTransitive(w, v, u);
  }

  lemma ObservedTransitive(w: World, v: World, u: World)
    requires SameObserved(w, v) && SameObserved(v, u)
    ensures SameObserved(w, u)
  {
  }

  lemma SteadyIsBuilding(w: World, v: World, b: Builder)
    requires Steady(w, v)
    ensures BuildKeeps(w, v, b)
  {
  }

  /* ---- children generated from the specification ---- */

  lemma ApplyOtherKeeps(s: Sys, kind: Kind, spec: ClusterSpec)
    requires Inv(s.w)
    ensures var (v, r) := ApplyOther(s, kind, spec); var b := OtherBuilder(kind);
            && BuildKeeps(s.w, v.w, b) && (r.Ok? ==> Settled(v.w, spec, b))
            && (Settled(s.w, spec, b) ==> Undisturbed(s.w, v.w))
  {
    var (s1, r) := ReadOther(s, kind);
    EnterSteady(s);
    var b := OtherBuilder(kind);
    SteadyIsBuilding(s.w, s1.w, b);
    WriteOtherKeeps(s1, kind, spec);
    var s2 := WriteOther(s1, kind, spec).0;
    assert BuildKeeps(s1.w, s2.w, b);
    BuildKeepsTransitive(s.w, s1.w, s2.w, b);
  }

  /* ---- the ConfigMaps ---- */

  lemma UpdatedDataSettles(which: Which, data: Data, spec: ClusterSpec)
    ensures UpdatedData(which, UpdatedData(which, data, spec), spec) == UpdatedData(which, data, spec)
  {
    UpdatesAreIdempotent(data, spec);
  }

  lemma NewAnnotations(rmq: RabbitmqCluster)
    requires Proper(rmq)
    ensures SERVER_CONF_UPDATED_AT !in Metadata.Merged(Metadata.IsNotKubernetesAnnotation, map[], [rmq.annotations])
  {
    MergedOne(Metadata.IsNotKubernetesAnnotation, map[], rmq.annotations);
  }

  lemma MergedOne(filter: string -> bool, base: Annotations, m: Annotations)
    ensures Metadata.Merged(filter, base, [m]) == base + Metadata.Filtered(filter, m)
  {
    assert [m][1..] == [];
    assert Metadata.Merged(filter, base, [m]) == Metadata.Merged(filter, base + Metadata.Filtered(filter, m), []);
  }

  // A step of applying this ConfigMap; done: and it is settled.
  ghost predicate MapApplied(s: Sys, v: Sys, which: Which, spec: ClusterSpec, done: bool) {
    BuildKeeps(s.w, v.w, MapBuilder(which)) && (done ==> Settled(v.w, spec, MapBuilder(which)))
  }

  lemma MapAppliedAfter(s: Sys, t: Sys, v: Sys, which: Which, spec: ClusterSpec, done: bool)
    requires Inv(s.w) && MapApplied(s, t, which, spec, false) && MapApplied(t, v, which, spec, done)
    ensures MapApplied(s, v, which, spec, done)
  {
    BuildKeepsTransitive(s.w, t.w, v.w, MapBuilder(which));
    hide BuildKeeps, Settled;
  }

  lemma MapCreated(s: Sys, which: Which, rmq: RabbitmqCluster)
    requires Inv(s.w) && Holds(s.w, rmq)
    ensures var (v, r) := CreateMap(s, which, UpdatedData(which, BuiltData(which), rmq.spec),
              Metadata.Merged(Metadata.IsNotKubernetesAnnotation, map[], [rmq.annotations]));
            MapApplied(s, v, which, rmq.spec, r.Ok?)
  {
    var data := UpdatedData(which, BuiltData(which), rmq.spec);
    NewAnnotations(rmq);
    UpdatedDataSettles(which, BuiltData(which), rmq.spec);
    CreateMapKeeps(s, which, data, Metadata.Merged(Metadata.IsNotKubernetesAnnotation, map[], [rmq.annotations]));
    hide UpdatedData, BuiltData, CreateMap, Inv, MapStep;
  }

  lemma MapUpdated(s: Sys, which: Which, rmq: RabbitmqCluster, m: StoredMap)
    requires Inv(s.w) && Holds(s.w, rmq) && HoldsMap(s.w, which, m)
    ensures var (v, r) := UpdateMap(s, which, m.(data := UpdatedData(which, m.data, rmq.spec)), Apply);
            MapApplied(s, v, which, rmq.spec, r.Ok?) && MapApplied(s, v, which, rmq.spec, false) && Inv(v.w)
              && Holds(v.w, rmq)
  {
    var data := UpdatedData(which, m.data, rmq.spec);
    UpdatedDataSettles(which, m.data, rmq.spec);
    UpdateDataKeeps(s, which, m, data);
    HoldsOn(s.w, UpdateMap(s, which, m.(data := data), Apply).0.w, rmq);
    hide UpdatedData, UpdateMap, Inv, Holds;
  }

  lemma ReadForApply(s: Sys, which: Which, rmq: RabbitmqCluster)
    requires Inv(s.w) && Holds(s.w, rmq)
    ensures var (s1, r) := ReadMap(s, which);
            && Inv(s1.w) && Holds(s1.w, rmq) && MapApplied(s, s1, which, rmq.spec, false)
            && (r.Ok? ==> HoldsMap(s1.w, which, r.value))
            && (r.Ok? && UpdatedData(which, r.value.data, rmq.spec) == r.value.data ==>
                 MapApplied(s, s1, which, rmq.spec, true))
  {
    ReadKeeps(s, rmq);
    SteadyIsBuilding(s.w, Enter(s).w, MapBuilder(which));
    hide UpdatedData, BuildKeeps;
  }

  lemma MapNotYet(s: Sys, which: Which, spec: ClusterSpec)
    requires Inv(s.w)
    ensures MapApplied(s, s, which, spec, false)
  {
  }

  lemma {:induction false} ApplyMapKeeps(s: Sys, which: Which, rmq: RabbitmqCluster, tries: nat)
    requires Inv(s.w) && Holds(s.w, rmq)
    ensures var (v, r) := ApplyMap(s, which, rmq, tries); MapApplied(s, v, which, rmq.spec, r.Ok?)
    decreases tries
  {
    hide Inv, Holds, MapApplied, HoldsMap, ReadMap, CreateMap, UpdateMap, UpdatedData, BuiltData, Metadata.Merged;
    MapNotYet(s, which, rmq.spec);
    if tries > 0 {
      var (s1, r) := ReadMap(s, which);
      ReadForApply(s, which, rmq);
      if r.NotFound? {
        MapCreated(s1, which, rmq);
        var (s2, c) := CreateMap(s1, which, UpdatedData(which, BuiltData(which), rmq.spec),
          Metadata.Merged(Metadata.IsNotKubernetesAnnotation, map[], [rmq.annotations]));
        MapAppliedAfter(s, s1, s2, which, rmq.spec, c.Ok?);
      } else if r.Ok? && UpdatedData(which, r.value.data, rmq.spec) != r.value.data {
        MapUpdated(s1, which, rmq, r.value);
        var (s2, u) := UpdateMap(s1, which, r.value.(data := UpdatedData(which, r.value.data, rmq.spec)), Apply);
        MapAppliedAfter(s, s1, s2, which, rmq.spec, u.Ok?);
        if u.Conflict? {
          ApplyMapKeeps(s2, which, rmq, tries - 1);
          var (s3, f) := ApplyMap(s2, which, rmq, tries - 1);
          MapAppliedAfter(s, s2, s3, which, rmq.spec, f.Ok?);
        }
      }
    }
  }

  // A ConfigMap that is as it should be is not written.
  lemma SettledMapIsLeft(s: Sys, which: Which, rmq: RabbitmqCluster, tries: nat)
    requires Inv(s.w) && Settled(s.w, rmq.spec, MapBuilder(which))
    ensures var (v, r) := ApplyMap(s, which, rmq, tries); (v == s || v == Enter(s)) && (r.Ok? ==> r.value == Unchanged)
  {
    EnterSteady(s);
    hide UpdatedData;
  }

  /* ---- markers ---- */

  ghost predicate MarkStep(s: Sys, v: Sys, which: Which) {
    MapStep(s.w, v.w, which) && SameData(MapOf(s.w, which), MapOf(v.w, which))
  }

  lemma MarkStepTransitive(s: Sys, t: Sys, v: Sys, which: Which)
    requires Inv(s.w) && MarkStep(s, t, which) && MarkStep(t, v, which)
    ensures MarkStep(s, v, which)
  {
    MapStepTransitive(s.w, t.w, v.w, which);
  }

  // A time that may be used as a marker now.
  ghost predicate Markable(w: World, t: Time) {
    Inv(w) && AllBefore(w.log, t) && Seconds(t) <= Seconds(w.now)
  }

  lemma ReadForMark(s: Sys, which: Which, t: Time)
    requires Markable(s.w, t)
    ensures var (s1, r) := ReadMap(s, which);
            MarkStep(s, s1, which) && Markable(s1.w, t) && (r.Ok? ==> HoldsMap(s1.w, which, r.value))
  {
    EnterSteady(s);
  }

  lemma {:induction false} AnnotateMapKeeps(s: Sys, which: Which, t: Time, tries: nat)
    requires Markable(s.w, t)
    ensures MarkStep(s, AnnotateMap(s, which, t, tries).0, which)
    decreases tries
  {
    hide Markable, MarkStep, HoldsMap, ReadMap, UpdateMap, Inv;
    InvOfMarkable(s, which, t);
    if tries > 0 {
      var (s1, r) := ReadMap(s, which);
      ReadForMark(s, which, t);
      if r.NotFound? {
        AnnotateMapKeeps(s1, which, t, tries - 1);
        MarkStepTransitive(s, s1, AnnotateMap(s1, which, t, tries - 1).0, which);
      } else if r.Ok? {
        MarkOnce(s1, which, r.value, t);
        var (s2, u) := UpdateMap(s1, which, r.value.(annotations := r.value.annotations[MarkerKey(which) := Stamp(t)]),
          Mark);
        MarkStepTransitive(s, s1, s2, which);
        if u.Conflict? || u.NotFound? {
          AnnotateMapKeeps(s2, which, t, tries - 1);
          MarkStepTransitive(s, s2, AnnotateMap(s2, which, t, tries - 1).0, which);
        }
      }
    }
  }

  lemma InvOfMarkable(s: Sys, which: Which, t: Time)
    requires Markable(s.w, t)
    ensures Inv(s.w) && MarkStep(s, s, which)
  {
  }

  lemma MarkOnce(s: Sys, which: Which, m: StoredMap, t: Time)
    requires Markable(s.w, t) && HoldsMap(s.w, which, m)
    ensures var (v, r) := UpdateMap(s, which, m.(annotations := m.annotations[MarkerKey(which) := Stamp(t)]), Mark);
            MarkStep(s, v, which) && (r.Conflict? || r.NotFound? ==> Markable(v.w, t))
  {
    var obj := m.(annotations := m.annotations[MarkerKey(which) := Stamp(t)]);
    UpdateMarkKeeps(s, which, m, obj, t);
    hide UpdateMap, SameData, AllBefore, HoldsMap, Seconds;
  }

  /* ---- the StatefulSet ---- */

  lemma UpdatedStsFits(cur: Sts, rmq: RabbitmqCluster)
    requires Proper(rmq)
    ensures cur.replicas <= rmq.spec.replicas ==> Fits(cur, UpdatedSts(cur, rmq))
    ensures SameMarks(cur, UpdatedSts(cur, rmq))
  {
    MergedOne(Metadata.IsNotKubernetesAnnotation, cur.annotations, rmq.annotations);
    MergedOne(Metadata.AnyAnnotation, cur.podAnnotations, rmq.spec.podAnnotations);
  }

  // The stored restart survives an update of the StatefulSet exactly when the
  // specification does not bring another value for that annotation.
  lemma RestartSurvivesUpdate(cur: Sts, rmq: RabbitmqCluster)
    ensures Lookup(UpdatedSts(cur, rmq).podAnnotations, LAST_RESTART_AT) == Lookup(cur.podAnnotations, LAST_RESTART_AT)
      <==>
        || LAST_RESTART_AT !in rmq.spec.podAnnotations
        || Lookup(rmq.spec.podAnnotations, LAST_RESTART_AT) == Lookup(cur.podAnnotations, LAST_RESTART_AT)
  {
    MergedOne(Metadata.AnyAnnotation, cur.podAnnotations, rmq.spec.podAnnotations);
  }

  // What setting the creation marker keeps.
  ghost predicate Annotated(w: World, v: World) {
    Kept(w, v) && Calm(w, v) && Formed(w, v)
  }

  lemma AnnotatedTransitive(w: World, v: World, u: World)
    requires Inv(w) && Annotated(w, v) && Annotated(v, u)
    ensures Annotated(w, u)
  {
    KeptTransitive(w, v, u);
  }

  lemma SteadyIsAnnotated(w: World, v: World)
    requires Steady(w, v)
    ensures Annotated(w, v)
  {
  }

  lemma {:induction false} AnnotateStsKeeps(s: Sys, t: Time, tries: nat)
    requires Inv(s.w)
    ensures Annotated(s.w, AnnotateSts(s, t, tries).0.w)
    decreases tries
  {
    hide Steady, UpdateSts, ReadSts, Inv, Annotated;
    SteadyReflexive(s.w);
    SteadyIsAnnotated(s.w, s.w);
    if tries > 0 {
      var (s1, r) := ReadSts(s);
      ReadStsSteady(s);
      SteadyIsAnnotated(s.w, s1.w);
      if r.NotFound? {
        AnnotateStsKeeps(s1, t, tries - 1);
        AnnotatedTransitive(s.w, s1.w, AnnotateSts(s1, t, tries - 1).0.w);
      } else if r.Ok? {
        CreationMarked(s1, r.value, t);
        var (s2, u) := UpdateSts(s1, r.value.(annotations := r.value.annotations[CREATED_AT := Stamp(t)]), Mark);
        AnnotatedTransitive(s.w, s1.w, s2.w);
        if u.Conflict? || u.NotFound? {
          AnnotateStsKeeps(s2, t, tries - 1);
          AnnotatedTransitive(s.w, s2.w, AnnotateSts(s2, t, tries - 1).0.w);
        }
      }
    }
  }

  lemma ReadStsSteady(s: Sys)
    requires Inv(s.w)
    ensures var (s1, r) := ReadSts(s); Steady(s.w, s1.w) && Inv(s1.w) && (r.Ok? ==> s1.w.sts == Some(r.value))
  {
    EnterSteady(s);
  }

  lemma CreationMarked(s: Sys, sts: Sts, t: Time)
    requires Inv(s.w) && s.w.sts == Some(sts)
    ensures var v := UpdateSts(s, sts.(annotations := sts.annotations[CREATED_AT := Stamp(t)]), Mark).0;
            Annotated(s.w, v.w) && Inv(v.w)
  {
    var obj := sts.(annotations := sts.annotations[CREATED_AT := Stamp(t)]);
    UpdateStsKeeps(s, sts, obj, Mark);
    hide UpdateSts, Inv;
  }

  // No StatefulSet that is there has more replicas than are wanted, or volumes
  // that cannot come to the size wanted.
  predicate Growable(w: World, spec: ClusterSpec) {
    w.sts.Some? ==>
      && w.sts.value.replicas <= spec.replicas
      && Scaling.Guard(Ok(w.sts.value), DesiredCapacity(spec)) == Scaling.Done
  }

  lemma UpdatedStsSettles(sts: Sts, rmq: RabbitmqCluster)
    requires Scaling.Guard(Ok(sts), DesiredCapacity(rmq.spec)) == Scaling.Done
    ensures StsSettled(UpdatedSts(sts, rmq), rmq.spec)
    ensures Scaling.Guard(Ok(UpdatedSts(sts, rmq)), DesiredCapacity(rmq.spec)) == Scaling.Done
  {
  }

  lemma BuiltStsIsExpanded(rmq: RabbitmqCluster)
    requires Proper(rmq)
    ensures var sts := UpdatedSts(BuiltSts(rmq), rmq);
            && Scaling.CapacityOf(sts) == DesiredCapacity(rmq.spec) && StsSettled(sts, rmq.spec)
            && LAST_RESTART_AT !in sts.podAnnotations
  {
    MergedOne(Metadata.AnyAnnotation, map[], rmq.spec.podAnnotations);
  }

  lemma ExpandedOn(w: World, v: World, replicas: int, desired: int)
    requires Expanded(w, replicas, desired) && Grows(w, v) && v.log == w.log
    ensures Expanded(v, replicas, desired)
  {
  }

  // What the update of the StatefulSet relies on.
  ghost predicate Prepared(w: World, rmq: RabbitmqCluster) {
    Inv(w) && Holds(w, rmq) && Growable(w, rmq.spec) && Expanded(w, rmq.spec.replicas, DesiredCapacity(rmq.spec))
  }

  ghost predicate StsStep(w: World, v: World, rmq: RabbitmqCluster, done: bool) {
    && BuildKeeps(w, v, StsBuilder)
    && (done || Settled(w, rmq.spec, StsBuilder) ==> Settled(v, rmq.spec, StsBuilder))
  }

  lemma StsStepAfter(w: World, v: World, u: World, rmq: RabbitmqCluster, done: bool)
    requires Inv(w) && StsStep(w, v, rmq, false) && StsStep(v, u, rmq, done)
    ensures StsStep(w, u, rmq, done)
  {
    BuildKeepsTransitive(w, v, u, StsBuilder);
  }

  lemma ReadPrepared(s: Sys, rmq: RabbitmqCluster)
    requires Prepared(s.w, rmq)
    ensures var (v, r) := ReadSts(s);
            && Prepared(v.w, rmq) && StsStep(s.w, v.w, rmq, r.Ok? && UpdatedSts(r.value, rmq) == r.value)
            && StsStep(s.w, v.w, rmq, false)
            && (r.Ok? ==> v.w.sts == Some(r.value))
  {
    ReadKeeps(s, rmq);
    var (v, r) := ReadSts(s);
    SteadyIsBuilding(s.w, v.w, StsBuilder);
    ExpandedOn(s.w, v.w, rmq.spec.replicas, DesiredCapacity(rmq.spec));
    if r.Ok? && UpdatedSts(r.value, rmq) == r.value {
      UpdatedStsSettles(r.value, rmq);
    }
    hide Inv, Holds, Expanded, UpdatedSts, Grows, Calm;
  }

  lemma {:induction false} ApplyStsKeeps(s: Sys, rmq: RabbitmqCluster, tries: nat)
    requires Prepared(s.w, rmq)
    ensures var (v, r) := ApplySts(s, rmq, tries); StsStep(s.w, v.w, rmq, r.Ok?)
    decreases tries
  {
    hide Prepared, StsStep, ReadSts, CreateSts, UpdateSts, UpdatedSts, BuiltSts, Inv, Settled;
    PreparedStays(s.w, rmq);
    if tries > 0 {
      var (s1, r) := ReadSts(s);
      ReadPrepared(s, rmq);
      if r.NotFound? {
        StsCreatedKeeps(s1, rmq);
        var (s2, c) := CreateSts(s1, UpdatedSts(BuiltSts(rmq), rmq));
        StsStepAfter(s.w, s1.w, s2.w, rmq, c.Ok?);
      } else if r.Ok? && UpdatedSts(r.value, rmq) != r.value {
        StsUpdatedKeeps(s1, rmq, r.value);
        var (s2, u) := UpdateSts(s1, UpdatedSts(r.value, rmq), Apply);
        StsStepAfter(s.w, s1.w, s2.w, rmq, u.Ok?);
        if u.Conflict? {
          ApplyStsKeeps(s2, rmq, tries - 1);
          var (s3, f) := ApplySts(s2, rmq, tries - 1);
          StsStepAfter(s.w, s2.w, s3.w, rmq, f.Ok?);
        }
      }
    }
  }

  lemma PreparedStays(w: World, rmq: RabbitmqCluster)
    requires Prepared(w, rmq)
    ensures Inv(w) && StsStep(w, w, rmq, false)
  {
  }

  lemma StsCreatedKeeps(s: Sys, rmq: RabbitmqCluster)
    requires Prepared(s.w, rmq)
    ensures var (v, r) := CreateSts(s, UpdatedSts(BuiltSts(rmq), rmq)); StsStep(s.w, v.w, rmq, r.Ok?)
  {
    BuiltStsIsExpanded(rmq);
    CreateStsKeeps(s, UpdatedSts(BuiltSts(rmq), rmq));
    hide CreateSts, UpdatedSts, BuiltSts, Inv, Holds, Expanded, Grows, Calm;
  }

  lemma StsUpdatedKeeps(s: Sys, rmq: RabbitmqCluster, sts: Sts)
    requires Prepared(s.w, rmq) && s.w.sts == Some(sts)
    ensures var (v, r) := UpdateSts(s, UpdatedSts(sts, rmq), Apply);
            StsStep(s.w, v.w, rmq, r.Ok?) && StsStep(s.w, v.w, rmq, false) && Prepared(v.w, rmq)
  {
    UpdatedStsFits(sts, rmq);
    var obj := UpdatedSts(sts, rmq);
    UpdateStsKeeps(s, sts, obj, Apply);
    var v := UpdateSts(s, obj, Apply).0;
    HoldsOn(s.w, v.w, rmq);
    ExpandedOn(s.w, v.w, rmq.spec.replicas, DesiredCapacity(rmq.spec));
    UpdatedStsSettles(sts, rmq);
    hide UpdateSts, Inv, Holds, Expanded, UpdatedSts, Grows, Calm;
  }

  /* ---- before the StatefulSet ---- */

  lemma ReconcilePVCPrepares(s: Sys, rmq: RabbitmqCluster)
    requires Inv(s.w) && Holds(s.w, rmq) && (s.w.sts.Some? ==> s.w.sts.value.replicas <= rmq.spec.replicas)
    ensures var p := ReconcilePVC(s, rmq);
            StepKeeps(s, rmq, p.s, p.rmq) && (p.flow == Go ==> p.rmq == rmq && Prepared(p.s.w, rmq))
  {
    var desired := DesiredCapacity(rmq.spec);
    Expansion.ScaleKeeps(s, rmq, desired);
    Expansion.DonePassesGuard(s, rmq, desired);
    var (s1, scaled) := Scaling.Scale(s, rmq, desired);
    HoldsOn(s.w, s1.w, rmq);
    assert Inv(s1.w) && (scaled == Scaling.Done ==> Growable(s1.w, rmq.spec));
    hide Inv, Holds, Steady, Scaling.Scale, DesiredCapacity, Expanded, Growable, SetCondition;
    if scaled != Scaling.Done {
      SetConditionKeeps(s1, rmq, ReconcileSuccess, ConditionFalse, "FailedReconcilePVC");
      var failed := SetReconcileSuccess(s1, rmq, ConditionFalse, "FailedReconcilePVC");
      StepKeepsTransitive(s, rmq, s1, rmq, failed.s, failed.rmq);
    }
  }

  // A pass gets past these steps only with nothing to scale down, and after
  // every claim found was expanded.
  lemma PrepareStsPrepares(s: Sys, rmq: RabbitmqCluster)
    requires Inv(s.w) && Holds(s.w, rmq)
    ensures var p := PrepareSts(s, rmq);
            StepKeeps(s, rmq, p.s, p.rmq) && (p.flow == Go ==> p.rmq == rmq && Prepared(p.s.w, rmq))
  {
    var (s1, r) := ReadSts(s);
    ReadKeeps(s, rmq);
    hide StepKeeps, SetCondition, Prepared, Inv, Holds, Scaling.Scale, DesiredCapacity, Enter;
    if r.Ok? && r.value.replicas > rmq.spec.replicas {
      InvAfter(s, rmq, s1, rmq);
      SetConditionKeeps(s1, rmq, ReconcileSuccess, ConditionFalse, "UnsupportedOperation");
      var refused := SetReconcileSuccess(s1, rmq, ConditionFalse, "UnsupportedOperation");
      StepKeepsTransitive(s, rmq, s1, rmq, refused.s, refused.rmq);
    } else if !r.Failed? {
      InvAfter(s, rmq, s1, rmq);
      ReconcilePVCPrepares(s1, rmq);
      var p := ReconcilePVC(s1, rmq);
      assert PrepareSts(s, rmq) == p;
      StepKeepsTransitive(s, rmq, s1, rmq, p.s, p.rmq);
    }
  }

  // A pass ends at this step for good exactly when the StatefulSet read has
  // more replicas than are wanted, and then only a status may be written.
  lemma ScaleDownIsRefused(s: Sys, rmq: RabbitmqCluster)
    requires Inv(s.w) && Holds(s.w, rmq)
    ensures var p := PrepareSts(s, rmq); var sts := Enter(s).w.sts;
            && (p.flow == Halt <==> FateOf(s) == Delivered && sts.Some? && sts.value.replicas > rmq.spec.replicas)
            && (p.flow == Halt ==> Steady(s.w, p.s.w) && p.s.w.log == s.w.log)
  {
    var (s1, r) := ReadSts(s);
    ReadKeeps(s, rmq);
    SetConditionKeeps(s1, rmq, ReconcileSuccess, ConditionFalse, "UnsupportedOperation");
    var p := SetReconcileSuccess(s1, rmq, ConditionFalse, "UnsupportedOperation");
    StepKeepsTransitive(s, rmq, s1, rmq, p.s, p.rmq);
    hide SetCondition, Scaling.Scale, DesiredCapacity;
  }

  /* ---- one child ---- */

  ghost predicate BuiltStep(s: Sys, rmq: RabbitmqCluster, b: Builder, t: Sys, held: RabbitmqCluster, done: bool) {
    && BuildKeeps(s.w, t.w, b) && Inv(t.w) && Holds(t.w, held) && SameSpec(held, rmq)
    && (done ==> Settled(t.w, rmq.spec, b))
    && (Settled(s.w, rmq.spec, b) ==> Settled(t.w, rmq.spec, b) && Undisturbed(s.w, t.w))
  }

  lemma BuildKeepsHolds(w: World, v: World, b: Builder, rmq: RabbitmqCluster)
    requires BuildKeeps(w, v, b) && Holds(w, rmq)
    ensures Inv(v) && Holds(v, rmq)
  {
  }

  lemma CreateOrUpdateBuilds(s: Sys, rmq: RabbitmqCluster, b: Builder, tries: nat)
    requires Inv(s.w) && Holds(s.w, rmq) && (b.StsBuilder? ==> Prepared(s.w, rmq))
    ensures var (v, r) := CreateOrUpdate(s, rmq, b, tries);
            BuiltStep(s, rmq, b, v, rmq, r.Ok?)
              && (b.MapBuilder? && Settled(s.w, rmq.spec, b) && r.Ok? ==> r.value == Unchanged)
  {
    hide ApplyOther, ApplyMap, ApplySts, Inv, Holds, Prepared, UpdatedData;
    var (v, r) := CreateOrUpdate(s, rmq, b, tries);
    match b
    case OtherBuilder(kind) =>
      ApplyOtherKeeps(s, kind, rmq.spec);
      BuildKeepsHolds(s.w, v.w, b, rmq);
      if Settled(s.w, rmq.spec, b) { OtherStaysSettled(s.w, v.w, rmq.spec, kind); }
    case MapBuilder(which) =>
      ApplyMapKeeps(s, which, rmq, tries);
      BuildKeepsHolds(s.w, v.w, b, rmq);
      if Settled(s.w, rmq.spec, b) {
        SettledMapIsLeft(s, which, rmq, tries);
        EnterSteady(s);
        SteadyReflexive(s.w);
        SteadyKeepsSettled(s.w, v.w, rmq.spec, b);
      }
    case StsBuilder =>
      ApplyStsKeeps(s, rmq, tries);
      BuildKeepsHolds(s.w, v.w, b, rmq);
  }

  lemma OtherStaysSettled(w: World, v: World, spec: ClusterSpec, kind: Kind)
    requires Settled(w, spec, OtherBuilder(kind)) && Undisturbed(w, v)
    ensures Settled(v, spec, OtherBuilder(kind))
  {
  }

  lemma AnnotateIfNeededKeeps(s: Sys, rmq: RabbitmqCluster, b: Builder, op: Operation, tries: nat)
    requires Inv(s.w) && Holds(s.w, rmq)
    ensures var v := AnnotateIfNeeded(s, b, op, tries).0;
            && BuildKeeps(s.w, v.w, b) && Inv(v.w) && Holds(v.w, rmq)
            && (Settled(s.w, rmq.spec, b) ==> Settled(v.w, rmq.spec, b))
            && (!b.MapBuilder? || op == Unchanged ==> Calm(s.w, v.w))
  {
    var v := AnnotateIfNeeded(s, b, op, tries).0;
    SteadyReflexive(s.w);
    SteadyIsBuilding(s.w, s.w, b);
    if b.StsBuilder? && op == Created {
      AnnotateStsKeeps(s, s.w.now, tries);
      assert BuildKeeps(s.w, v.w, b);
      HoldsOn(s.w, v.w, rmq);
      hide AnnotateSts;
    } else if b.MapBuilder? && op == Updated {
      assert Markable(s.w, s.w.now);
      AnnotateMapKeeps(s, b.which, s.w.now, tries);
      MarkStepKeepsSettled(s, v, rmq.spec, b.which);
      BuildKeepsHolds(s.w, v.w, b, rmq);
    }
  }

  lemma MarkStepKeepsSettled(s: Sys, v: Sys, spec: ClusterSpec, which: Which)
    requires MarkStep(s, v, which)
    ensures Settled(s.w, spec, MapBuilder(which)) ==> Settled(v.w, spec, MapBuilder(which))
    ensures BuildKeeps(s.w, v.w, MapBuilder(which))
  {
  }

  lemma ApplyAndAnnotateBuilds(s: Sys, rmq: RabbitmqCluster, b: Builder, tries: nat)
    requires Inv(s.w) && Holds(s.w, rmq) && (b.StsBuilder? ==> Prepared(s.w, rmq))
    ensures var p := ApplyAndAnnotate(s, rmq, b, tries); BuiltStep(s, rmq, b, p.s, p.rmq, p.flow == Go)
  {
    CreateOrUpdateBuilds(s, rmq, b, tries);
    var (s1, r) := CreateOrUpdate(s, rmq, b, tries);
    var p := ApplyAndAnnotate(s, rmq, b, tries);
    if !r.Ok? {
      AfterBuild(s, rmq, b, s1, r.Ok?);
      SetConditionKeeps(s1, rmq, ReconcileSuccess, ConditionFalse, "Error");
      BuiltThenSteady(s, rmq, b, s1, rmq, p.s, p.rmq, false);
    } else {
      AfterBuild(s, rmq, b, s1, r.Ok?);
      AnnotateIfNeededKeeps(s1, rmq, b, r.value, tries);
      BuiltThenBuilt(s, rmq, b, s1, p.s, !b.MapBuilder? || r.value == Unchanged);
    }
  }

  lemma AfterBuild(s: Sys, rmq: RabbitmqCluster, b: Builder, t: Sys, done: bool)
    requires BuiltStep(s, rmq, b, t, rmq, done)
    ensures Inv(t.w) && Holds(t.w, rmq)
  {
  }

  lemma BuiltThenSteady(s: Sys, rmq: RabbitmqCluster, b: Builder, t: Sys, held: RabbitmqCluster, u: Sys,
    last: RabbitmqCluster, done: bool)
    requires Inv(s.w) && BuiltStep(s, rmq, b, t, held, done) && StepKeeps(t, held, u, last)
    ensures BuiltStep(s, rmq, b, u, last, done)
  {
    SteadyIsBuilding(t.w, u.w, b);
    BuildKeepsTransitive(s.w, t.w, u.w, b);
    if Settled(t.w, rmq.spec, b) { SteadyKeepsSettled(t.w, u.w, rmq.spec, b); }
    hide BuildKeeps, Settled, Holds;
  }

  lemma BuiltThenBuilt(s: Sys, rmq: RabbitmqCluster, b: Builder, t: Sys, u: Sys, quiet: bool)
    requires Inv(s.w) && BuiltStep(s, rmq, b, t, rmq, true) && BuildKeeps(t.w, u.w, b) && Inv(u.w) && Holds(u.w, rmq)
    requires Settled(t.w, rmq.spec, b) ==> Settled(u.w, rmq.spec, b)
    requires if quiet then Calm(t.w, u.w) else !Settled(s.w, rmq.spec, b)
    ensures BuiltStep(s, rmq, b, u, rmq, true)
  {
    BuildKeepsTransitive(s.w, t.w, u.w, b);
    hide BuildKeeps, Settled, Holds, Inv;
  }

  lemma RunBuilderBuilds(s: Sys, rmq: RabbitmqCluster, b: Builder, tries: nat)
    requires Inv(s.w) && Holds(s.w, rmq)
    ensures var p := RunBuilder(s, rmq, b, tries); BuiltStep(s, rmq, b, p.s, p.rmq, p.flow == Go)
  {
    hide ApplyAndAnnotate, PrepareSts, BuiltStep, Prepared, Inv, Holds, StepKeeps;
    if b.StsBuilder? {
      var p := PrepareSts(s, rmq);
      PrepareStsPrepares(s, rmq);
      SteadyThenBuilt(s, rmq, b, p.s, p.rmq, p.s, p.rmq, false, true);
      if p.flow == Go {
        InvAfter(s, rmq, p.s, p.rmq);
        ApplyAndAnnotateBuilds(p.s, rmq, b, tries);
        var q := ApplyAndAnnotate(p.s, rmq, b, tries);
        SteadyThenBuilt(s, rmq, b, p.s, rmq, q.s, q.rmq, q.flow == Go, false);
      }
    } else {
      ApplyAndAnnotateBuilds(s, rmq, b, tries);
    }
  }

  lemma SteadyThenBuilt(s: Sys, rmq: RabbitmqCluster, b: Builder, t: Sys, held: RabbitmqCluster, u: Sys,
    last: RabbitmqCluster, done: bool, same: bool)
    requires Inv(s.w) && StepKeeps(s, rmq, t, held)
    requires if same then u == t && last == held && !done else BuiltStep(t, held, b, u, last, done)
    ensures BuiltStep(s, rmq, b, u, last, done)
  {
    SteadyIsBuilding(s.w, t.w, b);
    if Settled(s.w, rmq.spec, b) { SteadyKeepsSettled(s.w, t.w, rmq.spec, b); }
    if !same { BuildKeepsTransitive(s.w, t.w, u.w, b); }
    hide BuildKeeps, Settled, Holds, Inv;
  }

  /* ---- all children ---- */

  ghost predicate AllSettled(w: World, spec: ClusterSpec, bs: seq<Builder>) {
    forall b :: b in bs ==> Settled(w, spec, b)
  }

  ghost predicate ChildrenStep(s: Sys, rmq: RabbitmqCluster, t: Sys, held: RabbitmqCluster) {
    && Kept(s.w, t.w) && SameObserved(s.w, t.w) && Holds(t.w, held) && SameSpec(held, rmq)
    && (forall b :: Settled(s.w, rmq.spec, b) ==> Settled(t.w, rmq.spec, b))
    && (forall which :: Settled(s.w, rmq.spec, MapBuilder(which)) ==> MapQuiet(s.w, t.w, which))
  }

  lemma BuiltIsChildrenStep(s: Sys, rmq: RabbitmqCluster, b: Builder, t: Sys, held: RabbitmqCluster, done: bool)
    requires BuiltStep(s, rmq, b, t, held, done)
    ensures ChildrenStep(s, rmq, t, held) && Inv(t.w) && Holds(t.w, held)
  {
    forall other | Settled(s.w, rmq.spec, other) ensures Settled(t.w, rmq.spec, other) {
      if other != b { BuildKeepsSettled(s.w, t.w, b, rmq.spec, other); }
    }
    forall which | Settled(s.w, rmq.spec, MapBuilder(which)) ensures MapQuiet(s.w, t.w, which) {
      if b != MapBuilder(which) { OtherMapsQuiet(s.w, t.w, b, which); }
    }
    assert Kept(s.w, t.w) && SameObserved(s.w, t.w) by { hide Settled; }
  }

  lemma OtherMapsQuiet(w: World, v: World, b: Builder, which: Which)
    requires BuildKeeps(w, v, b) && b != MapBuilder(which)
    ensures MapQuiet(w, v, which)
  {
  }

  lemma ChildrenStepTransitive(s: Sys, rmq: RabbitmqCluster, t: Sys, held: RabbitmqCluster, u: Sys,
    last: RabbitmqCluster)
    requires Inv(s.w) && ChildrenStep(s, rmq, t, held) && ChildrenStep(t, held, u, last)
    ensures ChildrenStep(s, rmq, u, last)
  {
    KeptTransitive(s.w, t.w, u.w);
  }

  lemma {:induction false} RunBuildersBuild(s: Sys, rmq: RabbitmqCluster, bs: seq<Builder>, tries: nat)
    requires Inv(s.w) && Holds(s.w, rmq)
    ensures var p := RunBuilders(s, rmq, bs, tries);
            && ChildrenStep(s, rmq, p.s, p.rmq)
            && (p.flow == Go ==> AllSettled(p.s.w, rmq.spec, bs))
            && (AllSettled(s.w, rmq.spec, bs) ==> Undisturbed(s.w, p.s.w))
    decreases |bs|
  {
    if bs == [] {
      SteadyReflexive(s.w);
    } else {
      var p, q := RunBuilder(s, rmq, bs[0], tries), RunBuilders(s, rmq, bs, tries);
      RunBuilderBuilds(s, rmq, bs[0], tries);
      BuiltIsChildrenStep(s, rmq, bs[0], p.s, p.rmq, p.flow == Go);
      if p.flow == Go {
        RunBuildersBuild(p.s, p.rmq, bs[1..], tries);
        assert q == RunBuilders(p.s, p.rmq, bs[1..], tries);
        assert SameSpec(p.rmq, rmq) && Settled(p.s.w, rmq.spec, bs[0]);
        hide Inv, Kept, BuiltStep, Settled, Holds, RunBuilder, RunBuilders;
        ChildrenStepTransitive(s, rmq, p.s, p.rmq, q.s, q.rmq);
        if AllSettled(s.w, rmq.spec, bs) {
          assert AllSettled(p.s.w, rmq.spec, bs[1..]);
          BuiltQuietly(s, rmq, bs[0], p.s, p.rmq, true);
          UndisturbedTransitive(s.w, p.s.w, q.s.w);
        }
      } else if AllSettled(s.w, rmq.spec, bs) {
        BuiltQuietly(s, rmq, bs[0], p.s, p.rmq, false);
      }
    }
  }

  lemma BuiltQuietly(s: Sys, rmq: RabbitmqCluster, b: Builder, t: Sys, held: RabbitmqCluster, done: bool)
    requires BuiltStep(s, rmq, b, t, held, done) && Settled(s.w, rmq.spec, b)
    ensures Undisturbed(s.w, t.w)
  {
  }

  lemma UndisturbedTransitive(w: World, v: World, u: World)
    requires Undisturbed(w, v) && Undisturbed(v, u)
    ensures Undisturbed(w, u)
  {
  }
}
