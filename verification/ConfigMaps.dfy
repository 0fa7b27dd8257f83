// The data of the two ConfigMaps a cluster owns
// (internal/resource/configmap.go and rabbitmq_plugins.go).
module ConfigMaps {
  import opened Spec
  import opened Text
  import Plugins

  type Data = map<string, string>

  function WithProperty(data: Data, key: string, value: string): Data {
    if value == "" then data - {key} else data[key := value]
  }

  function ServerData(data: Data, conf: ServerConf): Data {
    WithProperty(
      WithProperty(
        data["operatorDefaults.conf" := conf.operatorDefaults]["userDefinedConfiguration.conf" := conf.userDefined],
        "advanced.config", conf.advanced),
      "rabbitmq-env.conf", conf.env)
  }

  function PluginsData(data: Data, additional: seq<string>): Data {
    data["enabled_plugins" := Plugins.StoredText(additional)]
  }

  class ConfigMap {
    var data: Data

    constructor (data: Data)
      ensures this.data == data
    {
      this.data := data;
    }

    method UpdateProperty(key: string, value: string)
      modifies this
      ensures data == WithProperty(old(data), key, value)
    {
      if value == "" {
        data := data - {key};
      } else {
        data := data[key := value];
      }
    }

    method UpdateServerConf(conf: ServerConf)
      modifies this
      ensures data == ServerData(old(data), conf)
    {
      data := data["operatorDefaults.conf" := conf.operatorDefaults];
      data := data["userDefinedConfiguration.conf" := conf.userDefined];
      UpdateProperty("advanced.config", conf.advanced);
      UpdateProperty("rabbitmq-env.conf", conf.env);
    }

    method UpdatePlugins(additional: seq<string>)
      modifies this
      ensures data == PluginsData(old(data), additional)
    {
      var enabled := Plugins.DesiredPlugins(additional);
      data := data["enabled_plugins" := "[" + Join(enabled, ",") + "]."];
    }
  }

  // What a reader of the stored map finds, whatever stood there before.
  lemma ServerDataHolds(data: Data, conf: ServerConf)
    ensures var d := ServerData(data, conf);
            && "operatorDefaults.conf" in d && d["operatorDefaults.conf"] == conf.operatorDefaults
            && "userDefinedConfiguration.conf" in d && d["userDefinedConfiguration.conf"] == conf.userDefined
            && ("advanced.config" in d <==> conf.advanced != "")
            && ("advanced.config" in d ==> d["advanced.config"] == conf.advanced)
            && ("rabbitmq-env.conf" in d <==> conf.env != "")
            && ("rabbitmq-env.conf" in d ==> d["rabbitmq-env.conf"] == conf.env)
            && forall k :: k !in SERVER_KEYS ==> (k in d <==> k in data) && (k in d ==> d[k] == data[k])
  {
    KeysDiffer();
  }

  // The keys of the server ConfigMap that are the operator's.
  const SERVER_KEYS :=
    {"operatorDefaults.conf", "userDefinedConfiguration.conf", "advanced.config", "rabbitmq-env.conf"}

  // The same for the plugins: the list is there, and nothing else is touched.
  lemma PluginsDataHolds(data: Data, additional: seq<string>)
    ensures var d := PluginsData(data, additional);
            && "enabled_plugins" in d
            && d["enabled_plugins"] == "[" + Join(Plugins.Desired(additional), ",") + "]."
            && forall k :: k != "enabled_plugins" ==> (k in d <==> k in data) && (k in d ==> d[k] == data[k])
  {
  }

  lemma KeysDiffer()
    ensures |"operatorDefaults.conf"| == 21 && |"userDefinedConfiguration.conf"| == 29
    ensures |"advanced.config"| == 15 && |"rabbitmq-env.conf"| == 17
  {
  }

  // Updating what an update produced changes nothing.
  lemma UpdatesAreIdempotent(data: Data, spec: ClusterSpec)
    ensures ServerData(ServerData(data, spec.conf), spec.conf) == ServerData(data, spec.conf)
    ensures PluginsData(PluginsData(data, spec.plugins), spec.plugins) == PluginsData(data, spec.plugins)
  {
    KeysDiffer();
  }
}
