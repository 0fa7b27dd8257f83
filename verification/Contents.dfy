// What a reader finds in the two ConfigMaps of a cluster.
module Contents {
  import opened Text
  import opened Conditions
  import opened Spec
  import opened ConfigMaps
  import opened ApiServer
  import opened Controllers
  import opened Invariants
  import opened Calls
  import opened Passes
  import opened Children
  import opened Settling
  import Metadata
  import Plugins

  // The list of enabled plugins stands in the data.
  predicate ListsPlugins(data: Data, plugins: seq<string>) {
    "enabled_plugins" in data && data["enabled_plugins"] == "[" + Join(Plugins.Desired(plugins), ",") + "]."
  }

  // The text stands under the key, or neither is there.
  predicate Reads(data: Data, key: string, text: string) {
    if text == "" then key !in data else key in data && data[key] == text
  }

  predicate ReadsConf(data: Data, conf: ServerConf) {
    && "operatorDefaults.conf" in data && data["operatorDefaults.conf"] == conf.operatorDefaults
    && "userDefinedConfiguration.conf" in data && data["userDefinedConfiguration.conf"] == conf.userDefined
    && Reads(data, "advanced.config", conf.advanced) && Reads(data, "rabbitmq-env.conf", conf.env)
  }

  // A ConfigMap is settled exactly when it says what the specification wants:
  // the one the plugins, the required ones included, ...
  lemma PluginsMapSays(w: World, spec: ClusterSpec)
    ensures Settled(w, spec, MapBuilder(PluginsMap)) <==>
      w.plugins.Some? && ListsPlugins(w.plugins.value.data, spec.plugins)
  {
    if w.plugins.Some? {
      var data := w.plugins.value.data;
      PluginsDataHolds(data, spec.plugins);
      if ListsPlugins(data, spec.plugins) { assert PluginsData(data, spec.plugins) == data; }
    }
    hide Plugins.Desired, Join;
  }

  // ... the other the four texts of the configuration.
  lemma ServerMapSays(w: World, spec: ClusterSpec)
    ensures Settled(w, spec, MapBuilder(ServerMap)) <==> w.server.Some? && ReadsConf(w.server.value.data, spec.conf)
  {
    if w.server.Some? {
      var data := w.server.value.data;
      ServerDataHolds(data, spec.conf);
      KeysDiffer();
      if ReadsConf(data, spec.conf) { assert ServerData(data, spec.conf) == data; }
    }
  }

  // So an edit of the plugins unsettles it exactly when it changes the list of
  // enabled plugins, ...
  lemma PluginEditShows(w: World, spec: ClusterSpec, edited: ClusterSpec)
    requires Settled(w, spec, MapBuilder(PluginsMap))
    requires forall p :: p in spec.plugins || p in edited.plugins ==> Plugins.PluginName(p)
    ensures Settled(w, edited, MapBuilder(PluginsMap)) <==>
      Plugins.Desired(spec.plugins) == Plugins.Desired(edited.plugins)
  {
    PluginsMapSays(w, spec);
    PluginsMapSays(w, edited);
    Plugins.TextChangesWithList(spec.plugins, edited.plugins);
    hide Plugins.Desired, Join;
  }

  // ... and every edit of the configuration does.
  lemma ConfEditShows(w: World, spec: ClusterSpec, edited: ClusterSpec)
    requires Settled(w, spec, MapBuilder(ServerMap))
    ensures Settled(w, edited, MapBuilder(ServerMap)) <==> spec.conf == edited.conf
  {
    ServerMapSays(w, spec);
    ServerMapSays(w, edited);
  }

  // In a store to which the resource was applied both say what it wants.
  lemma AppliedContents(w: World)
    requires Applied(w)
    ensures w.plugins.Some? && ListsPlugins(w.plugins.value.data, w.cluster.spec.plugins)
    ensures w.server.Some? && ReadsConf(w.server.value.data, w.cluster.spec.conf)
  {
    var spec := w.cluster.spec;
    assert MapBuilder(PluginsMap) in Builders(spec) && MapBuilder(ServerMap) in Builders(spec);
    assert Settled(w, spec, MapBuilder(PluginsMap)) && Settled(w, spec, MapBuilder(ServerMap));
    hide Applied, Settled, Builders, ListsPlugins, ReadsConf;
    PluginsMapSays(w, spec);
    ServerMapSays(w, spec);
  }

  /* ---- a new ConfigMap ---- */

  // Its keys are the operator's, ...
  predicate OwnKeys(which: Which, data: Data) {
    data.Keys <= if which == PluginsMap then {"enabled_plugins"} else SERVER_KEYS
  }

  // ... and its annotations those of the resource that are not Kubernetes's.
  ghost predicate Inherited(annotations: Annotations, from: Annotations) {
    forall k :: Lookup(annotations, k) ==
      if Metadata.IsNotKubernetesAnnotation(k) then Lookup(from, k) else None
  }

  ghost predicate New(w: World, which: Which, rmq: RabbitmqCluster) {
    && MapOf(w, which).Some? && OwnKeys(which, MapOf(w, which).value.data)
    && Inherited(MapOf(w, which).value.annotations, rmq.annotations)
  }

  lemma BuiltDataIsOwn(which: Which, spec: ClusterSpec)
    ensures OwnKeys(which, UpdatedData(which, BuiltData(which), spec))
  {
    hide Plugins.StoredText;
  }

  lemma AnnotationsAreInherited(from: Annotations)
    ensures Inherited(Metadata.Merged(Metadata.IsNotKubernetesAnnotation, map[], [from]), from)
  {
    MergedOne(Metadata.IsNotKubernetesAnnotation, map[], from);
    hide Metadata.IsNotKubernetesAnnotation;
  }

  function NewAnnotationsOf(rmq: RabbitmqCluster): Annotations {
    Metadata.Merged(Metadata.IsNotKubernetesAnnotation, map[], [rmq.annotations])
  }

  function NewData(which: Which, rmq: RabbitmqCluster): Data {
    UpdatedData(which, BuiltData(which), rmq.spec)
  }

  // The store after a conflicting update.
  function Updating(s: Sys, which: Which, rmq: RabbitmqCluster): Sys {
    var (s1, r) := ReadMap(s, which);
    if !r.Ok? then s1
    else UpdateMap(s1, which, r.value.(data := UpdatedData(which, r.value.data, rmq.spec)), Apply).0
  }

  // It is created at once or by a later attempt.
  lemma CreatedSomewhere(s: Sys, which: Which, rmq: RabbitmqCluster, tries: nat)
    requires tries > 0
    ensures var (v, r) := ApplyMap(s, which, rmq, tries);
            var (u, c) := CreateMap(Enter(s), which, NewData(which, rmq), NewAnnotationsOf(rmq));
            r == Ok(Created) ==>
              (c.Ok? && v == u) || (v, r) == ApplyMap(Updating(s, which, rmq), which, rmq, tries - 1)
  {
    hide Enter, CreateMap, UpdateMap, MapOf, UpdatedData, BuiltData, Metadata.Merged;
  }

  lemma CreationIsNew(s: Sys, which: Which, rmq: RabbitmqCluster)
    ensures var (v, c) := CreateMap(s, which, NewData(which, rmq), NewAnnotationsOf(rmq));
            c.Ok? ==> New(v.w, which, rmq)
  {
    BuiltDataIsOwn(which, rmq.spec);
    AnnotationsAreInherited(rmq.annotations);
    hide Enter, MapEvents, UpdatedData, BuiltData, Metadata.Merged, OwnKeys, Inherited;
  }

  // Whatever happens at the calls: a ConfigMap that was created holds nothing
  // else.
  lemma {:induction false} CreatedMap(s: Sys, which: Which, rmq: RabbitmqCluster, tries: nat)
    ensures var (v, r) := ApplyMap(s, which, rmq, tries); r == Ok(Created) ==> New(v.w, which, rmq)
    decreases tries
  {
    assert tries == 0 ==> ApplyMap(s, which, rmq, tries).1 == Conflict;
    hide *;
    if tries > 0 {
      CreatedSomewhere(s, which, rmq, tries);
      CreationIsNew(Enter(s), which, rmq);
      CreatedMap(Updating(s, which, rmq), which, rmq, tries - 1);
    }
  }

  lemma MapCreation(s: Sys, which: Which, rmq: RabbitmqCluster, data: Data, annotations: Annotations)
    requires Inv(s.w) && Holds(s.w, rmq) && SERVER_CONF_UPDATED_AT !in annotations && MarkerKey(which) !in annotations
    ensures var v := CreateMap(s, which, data, annotations).0;
            v.w.log == s.w.log && Inv(v.w) && Holds(v.w, rmq)
  {
    EnterBriefly(s);
    assert Enter(s).w.log + [] + [] == s.w.log;
    CreateMapKeeps(s, which, data, annotations);
    hide Inv, LeftAlone, Steady, Grows, Holds;
    HoldsOn(s.w, CreateMap(s, which, data, annotations).0.w, rmq);
  }

  lemma AppliedWhenAbsent(s: Sys, which: Which, rmq: RabbitmqCluster, tries: nat)
    requires tries > 0 && MapOf(Enter(s).w, which).None?
    ensures var (v, r) := ApplyMap(s, which, rmq, tries);
            var u := CreateMap(Enter(s), which, NewData(which, rmq), NewAnnotationsOf(rmq)).0;
            (v == Enter(s) || v == u) && r != Ok(Updated)
  {
    hide CreateMap, UpdateMap, Enter, MapOf, UpdatedData, BuiltData, Metadata.Merged;
  }

  lemma FirstApplication(s: Sys, which: Which, rmq: RabbitmqCluster, tries: nat)
    requires Inv(s.w) && Holds(s.w, rmq) && MapOf(s.w, which).None? && MarkerKey(which) !in rmq.annotations
    ensures var (v, r) := ApplyMap(s, which, rmq, tries);
            v.w.log == s.w.log && Inv(v.w) && Holds(v.w, rmq) && r != Ok(Updated)
  {
    if tries > 0 {
      var s1 := Enter(s);
      EnterBriefly(s);
      HoldsOn(s.w, s1.w, rmq);
      assert MapOf(s1.w, which).None?;
      NewAnnotations(rmq);
      assert SERVER_CONF_UPDATED_AT !in NewAnnotationsOf(rmq);
      assert MarkerKey(which) !in NewAnnotationsOf(rmq) by {
        MergedOne(Metadata.IsNotKubernetesAnnotation, map[], rmq.annotations);
      }
      hide *;
      AppliedWhenAbsent(s, which, rmq, tries);
      MapCreation(s1, which, rmq, NewData(which, rmq), NewAnnotationsOf(rmq));
    }
  }

  // It is not marked as changed: that it was not there before calls for no
  // restart and no command.
  lemma NewMapIsUnmarked(s: Sys, which: Which, rmq: RabbitmqCluster, tries: nat)
    requires Inv(s.w) && Holds(s.w, rmq) && MapOf(s.w, which).None? && MarkerKey(which) !in rmq.annotations
    ensures RunBuilder(s, rmq, MapBuilder(which), tries).s.w.log == s.w.log
  {
    FirstApplication(s, which, rmq, tries);
    SetConditionKeeps(ApplyMap(s, which, rmq, tries).0, rmq, ReconcileSuccess, ConditionFalse, "Error");
    hide Inv, Holds, ApplyMap, SetCondition, AnnotateMap;
  }
}
