// The custom resource (api/v1beta1/rabbitmqcluster_types.go).
module Spec {
  import opened Text
  import opened Rfc3339
  import opened Conditions

  // An annotation's value: the text of a time, or some other text.
  datatype Value = Stamp(t: Time) | Words(s: string)

  type Annotations = map<string, Value>

  datatype Tls = Tls(secretName: string, caSecretName: string, disableNonTLSListeners: bool)

  datatype Vault = Vault(defaultUserPath: string, pkiIssuerPath: string)

  // What spec.rabbitmq and the cluster name render to, as texts.
  datatype ServerConf = ServerConf(operatorDefaults: string, userDefined: string, advanced: string, env: string)

  datatype ClusterSpec = ClusterSpec(
    replicas: int,
    storage: int,
    plugins: seq<string>,
    conf: ServerConf,
    tls: Tls,
    vault: Option<Vault>,
    podAnnotations: Annotations, // those appendVaultAnnotations produces
    memoryLimit: Option<int>,
    memoryRequest: Option<int>,
    skipPostDeploySteps: bool
  ) {
    predicate SecretTLSEnabled() { tls.secretName != "" }

    predicate VaultTLSEnabled() { vault.Some? && vault.value.pkiIssuerPath != "" }

    predicate TLSEnabled() { SecretTLSEnabled() || VaultTLSEnabled() }

    predicate MutualTLSEnabled() { (SecretTLSEnabled() && tls.caSecretName != "") || VaultTLSEnabled() }

    predicate SingleTLSSecret() { MutualTLSEnabled() && tls.caSecretName == tls.secretName }

    predicate DisableNonTLSListeners() { tls.disableNonTLSListeners }

    predicate VaultDefaultUserSecretEnabled() { vault.Some? && vault.value.defaultUserPath != "" }

    predicate AdditionalPluginEnabled(p: string) { p in plugins }

    predicate Mqtt() { AdditionalPluginEnabled("rabbitmq_mqtt") }

    predicate WebMqtt() { AdditionalPluginEnabled("rabbitmq_web_mqtt") }

    predicate Stomp() { AdditionalPluginEnabled("rabbitmq_stomp") }

    predicate WebStomp() { AdditionalPluginEnabled("rabbitmq_web_stomp") }

    predicate StreamNeeded() {
      AdditionalPluginEnabled("rabbitmq_stream") || AdditionalPluginEnabled("rabbitmq_multi_dc_replication")
    }
  }

  datatype ClusterStatus = ClusterStatus(conditions: seq<Condition>, userSecret: Option<bool>, observedGeneration: int)

  // status.userSecret stands for status.defaultUser and status.binding, which
  // depend only on whether a default user secret is referenced.
  datatype RabbitmqCluster = RabbitmqCluster(
    name: string,
    rv: nat,
    generation: int,
    spec: ClusterSpec,
    annotations: Annotations,
    finalizer: bool,
    paused: bool,
    status: ClusterStatus
  )

  function PVCName(name: string, i: nat): string {
    "persistence-" + (name + ("-server-" + Itoa(i)))
  }

  // The claims of different replicas are different objects.
  lemma PVCNameInjective(name: string, i: nat, j: nat)
    ensures PVCName(name, i) == PVCName(name, j) <==> i == j
  {
    if PVCName(name, i) == PVCName(name, j) {
      var k := |"persistence-"| + |name| + |"-server-"|;
      assert PVCName(name, i)[k..] == Itoa(i) && PVCName(name, j)[k..] == Itoa(j);
      ItoaInjective(i, j);
    }
  }
}
