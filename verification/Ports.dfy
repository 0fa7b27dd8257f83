// The ports of the client Service and of the RabbitMQ container
// (internal/resource/service.go and statefulset.go).
module Ports {
  import opened Spec

  datatype PortName =
    | Epmd | Amqp | Management | Prometheus | Mqtt | WebMqtt | Stomp | WebStomp | Stream
    | Amqps | ManagementTls | PrometheusTls | Mqtts | Stomps | Streams | WebMqttTls | WebStompTls
    | Other(name: string)

  datatype ServicePort = ServicePort(name: PortName, port: int, targetPort: int, appProtocol: string, nodePort: int)
  datatype ContainerPort = ContainerPort(name: PortName, containerPort: int)

  type PortMap = map<PortName, ServicePort>

  // The number RabbitMQ listens on for each of its protocols.
  function Number(n: PortName): int {
    match n
    case Epmd => 4369 case Amqp => 5672 case Management => 15672 case Prometheus => 15692
    case Mqtt => 1883 case WebMqtt => 15675 case Stomp => 61613 case WebStomp => 15674 case Stream => 5552
    case Amqps => 5671 case ManagementTls => 15671 case PrometheusTls => 15691
    case Mqtts => 8883 case Stomps => 61614 case Streams => 5551 case WebMqttTls => 15676 case WebStompTls => 15673
    case Other(_) => 0
  }

  function AppProtocol(n: PortName): string {
    match n
    case Amqp => "amqp" case Management => "http" case Mqtt => "mqtt" case WebMqtt => "http"
    case Stomp => "stomp.github.io/stomp" case WebStomp => "http" case Stream => "rabbitmq.com/stream"
    case Amqps => "amqps" case ManagementTls => "https" case Stomps => "stomp.github.io/stomp-tls"
    case Mqtts => "mqtts" case Streams => "rabbitmq.com/stream-tls" case PrometheusTls => "prometheus.io/metric-tls"
    case Prometheus => "prometheus.io/metrics" case WebStompTls => "https" case WebMqttTls => "https"
    case Epmd => "" case Other(_) => ""
  }

  // The listeners without TLS, and those TLS brings, for the enabled plugins.
  predicate PlainListener(spec: ClusterSpec, n: PortName) {
    match n
    case Amqp => true
    case Management => true
    case Mqtt => spec.Mqtt()
    case WebMqtt => spec.WebMqtt()
    case Stomp => spec.Stomp()
    case WebStomp => spec.WebStomp()
    case Stream => spec.StreamNeeded()
    case _ => false
  }

  predicate TlsListener(spec: ClusterSpec, n: PortName) {
    match n
    case Amqps => true
    case ManagementTls => true
    case PrometheusTls => true
    case Mqtts => spec.Mqtt()
    case Stomps => spec.Stomp()
    case Streams => spec.StreamNeeded()
    case WebMqttTls => spec.MutualTLSEnabled() && spec.WebMqtt()
    case WebStompTls => spec.MutualTLSEnabled() && spec.WebStomp()
    case _ => false
  }

  // Which ports the Service exposes.
  predicate Served(spec: ClusterSpec, n: PortName) {
    || (!spec.DisableNonTLSListeners() && PlainListener(spec, n))
    || (spec.TLSEnabled() && TlsListener(spec, n))
    || (!spec.TLSEnabled() && n == Prometheus)
  }

  function Fresh(n: PortName): ServicePort {
    ServicePort(n, Number(n), Number(n), AppProtocol(n), 0)
  }

  // The desired ports: exactly those served, as the table has them.
  ghost predicate Desires(m: PortMap, spec: ClusterSpec) {
    AllFresh(m) && forall n :: n in m <==> Served(spec, n)
  }

  const NAMES: set<PortName> := {
    Amqp, Management, Prometheus, Mqtt, WebMqtt, Stomp, WebStomp, Stream,
    Amqps, ManagementTls, PrometheusTls, Mqtts, Stomps, Streams, WebMqttTls, WebStompTls}

  function DesiredPorts(spec: ClusterSpec): PortMap {
    map n | n in NAMES && Served(spec, n) :: Fresh(n)
  }

  lemma OnlyServedAreDesired(m: PortMap, spec: ClusterSpec)
    requires Desires(m, spec)
    ensures m == DesiredPorts(spec)
  {
    assert forall n :: Served(spec, n) ==> n in NAMES;
    assert m.Keys == DesiredPorts(spec).Keys;
  }

  // if wanted { servicePortsMap[p.Name] = p }
  function SetIf(m: PortMap, wanted: bool, p: ServicePort): (r: PortMap)
    requires p == Fresh(p.name)
    ensures forall n :: n in r <==> n in m || (wanted && n == p.name)
    ensures AllFresh(m) ==> AllFresh(r)
  {
    if wanted then m[p.name := p] else m
  }

  ghost predicate AllFresh(m: PortMap) {
    forall n :: n in m ==> m[n] == Fresh(n)
  }

  method GenerateServicePortsMap(spec: ClusterSpec) returns (m: PortMap)
    ensures Desires(m, spec) && m == DesiredPorts(spec)
  {
    m := CollectPorts(spec);
    OnlyServedAreDesired(m, spec);
  }

  method CollectPorts(spec: ClusterSpec) returns (m: PortMap)
    ensures Desires(m, spec)
  {
    hide AllFresh, PlainListener;
    m := EmptyPorts();
    if !spec.DisableNonTLSListeners() { m := WithPlainPorts(spec, m); }
    if spec.TLSEnabled() {
      m := WithTLSPorts(spec, m);
    } else {
      m := SetIf(m, true, ServicePort(Prometheus, 15692, 15692, "prometheus.io/metrics", 0));
    }
    m := WithMutualTLSPorts(spec, m);
  }

  method WithPlainPorts(spec: ClusterSpec, ports: PortMap) returns (m: PortMap)
    ensures forall n :: n in m <==> n in ports || PlainListener(spec, n)
    ensures AllFresh(ports) ==> AllFresh(m)
  {
    hide AllFresh, SetIf, ClusterSpec.Mqtt, ClusterSpec.WebMqtt, ClusterSpec.Stomp, ClusterSpec.WebStomp,
      ClusterSpec.StreamNeeded;
    m := SetIf(ports, true, ServicePort(Amqp, 5672, 5672, "amqp", 0));
    m := SetIf(m, true, ServicePort(Management, 15672, 15672, "http", 0));
    m := SetIf(m, spec.Mqtt(), ServicePort(Mqtt, 1883, 1883, "mqtt", 0));
    m := SetIf(m, spec.WebMqtt(), ServicePort(WebMqtt, 15675, 15675, "http", 0));
    m := SetIf(m, spec.Stomp(), ServicePort(Stomp, 61613, 61613, "stomp.github.io/stomp", 0));
    m := SetIf(m, spec.WebStomp(), ServicePort(WebStomp, 15674, 15674, "http", 0));
    m := SetIf(m, spec.StreamNeeded(), ServicePort(Stream, 5552, 5552, "rabbitmq.com/stream", 0));
  }

  method WithTLSPorts(spec: ClusterSpec, ports: PortMap) returns (m: PortMap)
    ensures forall n :: n in m <==> n in ports || (TlsListener(spec, n) && n != WebStompTls && n != WebMqttTls)
    ensures AllFresh(ports) ==> AllFresh(m)
  {
    m := WithBasicTLSPorts(ports);
    hide AllFresh, SetIf, ClusterSpec.Mqtt, ClusterSpec.WebMqtt, ClusterSpec.Stomp, ClusterSpec.WebStomp,
      ClusterSpec.StreamNeeded;
    m := SetIf(m, spec.Stomp(), ServicePort(Stomps, 61614, 61614, "stomp.github.io/stomp-tls", 0));
    m := SetIf(m, spec.Mqtt(), ServicePort(Mqtts, 8883, 8883, "mqtts", 0));
    m := SetIf(m, spec.StreamNeeded(), ServicePort(Streams, 5551, 5551, "rabbitmq.com/stream-tls", 0));
  }

  method WithBasicTLSPorts(ports: PortMap) returns (m: PortMap)
    ensures forall n :: n in m <==> n in ports || n == Amqps || n == ManagementTls || n == PrometheusTls
    ensures AllFresh(ports) ==> AllFresh(m)
  {
    hide AllFresh, SetIf;
    m := SetIf(ports, true, ServicePort(Amqps, 5671, 5671, "amqps", 0));
    m := SetIf(m, true, ServicePort(ManagementTls, 15671, 15671, "https", 0));
    m := SetIf(m, true, ServicePort(PrometheusTls, 15691, 15691, "prometheus.io/metric-tls", 0));
  }

  method WithMutualTLSPorts(spec: ClusterSpec, ports: PortMap) returns (m: PortMap)
    ensures forall n :: n in m <==> n in ports || (TlsListener(spec, n) && (n == WebStompTls || n == WebMqttTls))
    ensures AllFresh(ports) ==> AllFresh(m)
  {
    m := ports;
    if spec.MutualTLSEnabled() {
      m := SetIf(m, spec.WebStomp(), ServicePort(WebStompTls, 15673, 15673, "https", 0));
      m := SetIf(m, spec.WebMqtt(), ServicePort(WebMqttTls, 15676, 15676, "https", 0));
    }
  }

  function EmptyPorts(): (m: PortMap)
    ensures m == map[] && AllFresh(m)
  {
    map[]
  }

  /* ---- container ports ---- */

  // The configuration check of reconcileTLS.
  predicate Accepted(spec: ClusterSpec) {
    spec.DisableNonTLSListeners() ==> spec.TLSEnabled()
  }

  // The Service's ports, the Erlang port mapper, and plain prometheus beside
  // its TLS form as long as plain listeners are open.
  predicate Expected(spec: ClusterSpec, n: PortName) {
    Served(spec, n) || n == Epmd || (n == Prometheus && spec.TLSEnabled() && !spec.DisableNonTLSListeners())
  }

  ghost predicate HasPort(ports: seq<ContainerPort>, n: PortName) {
    exists i :: 0 <= i < |ports| && ports[i].name == n
  }

  // No name twice, and each with its number.
  ghost predicate WellListed(ports: seq<ContainerPort>) {
    && (forall i :: 0 <= i < |ports| ==> ports[i].containerPort == Number(ports[i].name))
    && (forall i, j :: 0 <= i < j < |ports| ==> ports[i].name != ports[j].name)
  }

  // if wanted { ports = append(ports, p) }
  function AppendIf(ports: seq<ContainerPort>, wanted: bool, p: ContainerPort): (r: seq<ContainerPort>)
    requires p.containerPort == Number(p.name)
    ensures forall n :: HasPort(r, n) <==> HasPort(ports, n) || (wanted && n == p.name)
    ensures WellListed(ports) && (wanted ==> !HasPort(ports, p.name)) ==> WellListed(r)
  {
    var r := if wanted then ports + [p] else ports;
    assert forall i :: 0 <= i < |ports| ==> r[i] == ports[i];
    assert wanted ==> r[|ports|] == p;
    r
  }

  function NoPorts(): (r: seq<ContainerPort>)
    ensures r == [] && WellListed(r) && forall n :: !HasPort(r, n)
  {
    []
  }

  function ReadinessProbePort(spec: ClusterSpec): PortName {
    if spec.DisableNonTLSListeners() then Amqps else Amqp
  }

  // Whatever reconcileTLS lets pass gets exactly the expected ports; the
  // probed port is declared in any case.
  method UpdateContainerPorts(spec: ClusterSpec) returns (ports: seq<ContainerPort>)
    ensures WellListed(ports)
    ensures Accepted(spec) ==> forall n :: HasPort(ports, n) <==> Expected(spec, n)
    ensures !Accepted(spec) ==> HasPort(ports, Amqps) && !Expected(spec, Amqps)
    ensures HasPort(ports, ReadinessProbePort(spec))
  {
    if spec.DisableNonTLSListeners() {
      ports := UpdateContainerPortsOnlyTLSListeners(spec);
      return;
    }
    ports := PlainListeners(spec);
    if spec.TLSEnabled() { ports := WithTLSListeners(spec, ports); }
  }

  method UpdateContainerPortsOnlyTLSListeners(spec: ClusterSpec) returns (ports: seq<ContainerPort>)
    requires spec.DisableNonTLSListeners()
    ensures WellListed(ports)
    ensures Accepted(spec) ==> forall n :: HasPort(ports, n) <==> Expected(spec, n)
    ensures HasPort(ports, Amqps)
  {
    ports := NoPorts();
    ports := AppendIf(ports, true, ContainerPort(Epmd, 4369));
    ports := WithTLSListeners(spec, ports);
  }

  method PlainListeners(spec: ClusterSpec) returns (ports: seq<ContainerPort>)
    ensures WellListed(ports)
    ensures forall n :: HasPort(ports, n) <==> PlainListener(spec, n) || n == Epmd || n == Prometheus
  {
    hide WellListed, HasPort, AppendIf, ClusterSpec.Mqtt, ClusterSpec.WebMqtt, ClusterSpec.Stomp, ClusterSpec.WebStomp,
      ClusterSpec.StreamNeeded;
    ports := NoPorts();
    ports := AppendIf(ports, true, ContainerPort(Epmd, 4369));
    ports := AppendIf(ports, true, ContainerPort(Amqp, 5672));
    ports := AppendIf(ports, true, ContainerPort(Management, 15672));
    ports := AppendIf(ports, true, ContainerPort(Prometheus, 15692));
    ports := AppendIf(ports, spec.Mqtt(), ContainerPort(Mqtt, 1883));
    ports := AppendIf(ports, spec.WebMqtt(), ContainerPort(WebMqtt, 15675));
    ports := AppendIf(ports, spec.Stomp(), ContainerPort(Stomp, 61613));
    ports := AppendIf(ports, spec.WebStomp(), ContainerPort(WebStomp, 15674));
    ports := AppendIf(ports, spec.StreamNeeded(), ContainerPort(Stream, 5552));
  }

  // What updateContainerPorts and updateContainerPortsOnlyTLSListeners share.
  method WithTLSListeners(spec: ClusterSpec, listed: seq<ContainerPort>) returns (ports: seq<ContainerPort>)
    requires WellListed(listed) && forall n :: HasPort(listed, n) ==> !TlsListener(spec, n)
    ensures WellListed(ports)
    ensures forall n :: HasPort(ports, n) <==> HasPort(listed, n) || TlsListener(spec, n)
  {
    hide WellListed, HasPort, AppendIf, ClusterSpec.Mqtt, ClusterSpec.WebMqtt, ClusterSpec.Stomp, ClusterSpec.WebStomp,
      ClusterSpec.StreamNeeded;
    ports := WithBasicTLSListeners(listed);
    ports := AppendIf(ports, spec.Mqtt(), ContainerPort(Mqtts, 8883));
    ports := AppendIf(ports, spec.Stomp(), ContainerPort(Stomps, 61614));
    ports := AppendIf(ports, spec.StreamNeeded(), ContainerPort(Streams, 5551));
    var mutual := spec.MutualTLSEnabled();
    ports := AppendIf(ports, mutual && spec.WebMqtt(), ContainerPort(WebMqttTls, 15676));
    ports := AppendIf(ports, mutual && spec.WebStomp(), ContainerPort(WebStompTls, 15673));
  }

  method WithBasicTLSListeners(listed: seq<ContainerPort>) returns (ports: seq<ContainerPort>)
    requires WellListed(listed)
    requires !HasPort(listed, Amqps) && !HasPort(listed, ManagementTls) && !HasPort(listed, PrometheusTls)
    ensures WellListed(ports)
    ensures forall n ::
      HasPort(ports, n) <==> HasPort(listed, n) || n == Amqps || n == ManagementTls || n == PrometheusTls
  {
    hide WellListed, HasPort, AppendIf;
    ports := AppendIf(listed, true, ContainerPort(Amqps, 5671));
    ports := AppendIf(ports, true, ContainerPort(ManagementTls, 15671));
    ports := AppendIf(ports, true, ContainerPort(PrometheusTls, 15691));
  }

  /* ---- keeping the ports of an existing Service ---- */

  // The existing ports that stay: the first of each desired name, with its NodePort.
  function Survivors(existing: seq<ServicePort>, m: PortMap): seq<ServicePort> {
    if existing == [] then []
    else if existing[0].name in m then
      var kept := m[existing[0].name].(nodePort := existing[0].nodePort);
      [kept] + Survivors(existing[1..], m - {existing[0].name})
    else Survivors(existing[1..], m)
  }

  // The desired names that no existing port carries.
  function Missing(existing: seq<ServicePort>, m: PortMap): PortMap {
    m - (set p | p in existing :: p.name)
  }

  // Every entry of the map, once, in some order.
  ghost predicate Lists(ports: seq<ServicePort>, m: PortMap) {
    && (forall p :: p in ports ==> p.name in m && m[p.name] == p)
    && (forall n :: n in m ==> m[n] in ports)
    && (forall i, j :: 0 <= i < j < |ports| ==> ports[i].name != ports[j].name)
  }

  // The outcome for some order of ranging over the map.
  ghost predicate Updated(existing: seq<ServicePort>, m: PortMap, ports: seq<ServicePort>) {
    var kept := Survivors(existing, m);
    kept <= ports && Lists(ports[|kept|..], Missing(existing, m))
  }

  lemma MissingStep(existing: seq<ServicePort>, m: PortMap, i: nat)
    requires i < |existing|
    ensures Missing(existing[..i + 1], m) == Missing(existing[..i], m) - {existing[i].name}
    ensures existing[i..][1..] == existing[i + 1..]
  {
    assert existing[..i + 1] == existing[..i] + [existing[i]];
  }

  lemma ListsAppend(ports: seq<ServicePort>, m: PortMap, todo: set<PortName>, n: PortName)
    requires todo <= m.Keys && n in todo && m[n].name == n && Lists(ports, m - todo)
    ensures Lists(ports + [m[n]], m - (todo - {n}))
  {
    var r, d := ports + [m[n]], m - (todo - {n});
    assert r[|ports|] == m[n];
    forall k | k in d ensures d[k] in r {
      if k != n { assert k in m - todo && m[k] in ports; }
    }
  }

  lemma NamedAfterThemselves(spec: ClusterSpec)
    ensures forall n :: n in DesiredPorts(spec) ==> DesiredPorts(spec)[n].name == n
  {
  }

  method UpdatePorts(existing: seq<ServicePort>, spec: ClusterSpec) returns (ports: seq<ServicePort>)
    ensures Updated(existing, DesiredPorts(spec), ports)
  {
    hide Desires, DesiredPorts, Lists;
    var m := GenerateServicePortsMap(spec);
    ghost var desired := m;
    ports := [];
    for i := 0 to |existing|
      invariant m == Missing(existing[..i], desired)
      invariant Survivors(existing, desired) == ports + Survivors(existing[i..], m)
    {
      MissingStep(existing, desired, i);
      var p := existing[i];
      if p.name in m {
        var value := m[p.name];
        value := value.(nodePort := p.nodePort);
        ports := ports + [value];
        m := m - {p.name};
      }
    }
    assert existing[..|existing|] == existing && existing[|existing|..] == [];
    NamedAfterThemselves(spec);
    ports := AppendEach(ports, m);
  }

  // Ranging over the map, in any order.
  method AppendEach(kept: seq<ServicePort>, missing: PortMap) returns (ports: seq<ServicePort>)
    requires forall n :: n in missing ==> missing[n].name == n
    ensures kept <= ports && Lists(ports[|kept|..], missing)
  {
    ports := kept;
    var m := missing;
    ghost var added := [];
    assert Lists(added, missing - m.Keys);
    hide Lists;
    while m != map[]
      invariant ports == kept + added
      invariant m.Keys <= missing.Keys && forall n :: n in m ==> m[n] == missing[n]
      invariant Lists(added, missing - m.Keys)
      decreases m.Keys
    {
      var n :| n in m;
      ListsAppend(added, missing, m.Keys, n);
      ports := ports + [m[n]];
      added := added + [m[n]];
      m := m - {n};
    }
    assert missing - m.Keys == missing && ports[|kept|..] == added;
  }

  function FirstNamed(ports: seq<ServicePort>, n: PortName): (k: nat)
    ensures k <= |ports| && (k < |ports| ==> ports[k].name == n)
    ensures forall j :: 0 <= j < k ==> ports[j].name != n
  {
    if ports == [] || ports[0].name == n then 0 else 1 + FirstNamed(ports[1..], n)
  }

  // A desired port with the NodePort its name had where it first occurred.
  predicate KeptFrom(existing: seq<ServicePort>, m: PortMap, p: ServicePort) {
    var k := FirstNamed(existing, p.name);
    k < |existing| && p.name in m && p == m[p.name].(nodePort := existing[k].nodePort)
  }

  // Survivors read declaratively, in three lemmas: each is a desired name with
  // the NodePort of its first occurrence ...
  lemma {:induction false} SurvivorKept(existing: seq<ServicePort>, m: PortMap, i: nat)
    requires (forall n :: n in m ==> m[n].name == n) && i < |Survivors(existing, m)|
    ensures KeptFrom(existing, m, Survivors(existing, m)[i])
  {
    var n, rest := existing[0].name, existing[1..];
    if n in m {
      if i > 0 { SurvivorKept(rest, m - {n}, i - 1); }
    } else {
      SurvivorKept(rest, m, i);
    }
  }

  lemma {:induction false} SurvivorNamed(existing: seq<ServicePort>, m: PortMap, i: nat)
    requires (forall n :: n in m ==> m[n].name == n) && i < |Survivors(existing, m)|
    ensures Survivors(existing, m)[i].name in m
  {
    var n, rest := existing[0].name, existing[1..];
    if n in m {
      if i > 0 { SurvivorNamed(rest, m - {n}, i - 1); }
    } else {
      SurvivorNamed(rest, m, i);
    }
  }

  // The first occurrence of a name that the head does not carry.
  lemma FirstNamedLater(ports: seq<ServicePort>, n: PortName)
    requires ports != [] && ports[0].name != n
    ensures FirstNamed(ports, n) == 1 + FirstNamed(ports[1..], n)
  {
  }

  // What survives of the ports behind the head.
  function LeftOf(existing: seq<ServicePort>, m: PortMap): PortMap
    requires existing != []
  {
    if existing[0].name in m then m - {existing[0].name} else m
  }

  lemma LeftIsPart(existing: seq<ServicePort>, m: PortMap)
    requires existing != [] && forall n :: n in m ==> m[n].name == n
    ensures existing[0].name !in LeftOf(existing, m)
    ensures forall n :: n in LeftOf(existing, m) ==> LeftOf(existing, m)[n].name == n
  {
  }

  // The first survivor may be the head; the others are those of the rest.
  lemma SurvivorsUnfold(existing: seq<ServicePort>, m: PortMap)
    requires existing != []
    ensures var rest := Survivors(existing[1..], LeftOf(existing, m)); var n := existing[0].name;
            Survivors(existing, m) == if n in m then [m[n].(nodePort := existing[0].nodePort)] + rest else rest
  {
  }

  lemma SurvivorBehind(existing: seq<ServicePort>, m: PortMap, l: nat)
    requires existing != [] && l < |Survivors(existing, m)|
    ensures var rest := Survivors(existing[1..], LeftOf(existing, m)); var k := if existing[0].name in m then 1 else 0;
            l >= k ==> l - k < |rest| && Survivors(existing, m)[l] == rest[l - k]
  {
    hide Survivors;
    SurvivorsUnfold(existing, m);
  }

  // Where the name of a survivor first occurred.
  function PlaceOf(existing: seq<ServicePort>, m: PortMap, l: nat): nat
    requires l < |Survivors(existing, m)|
  {
    FirstNamed(existing, Survivors(existing, m)[l].name)
  }

  lemma LaterNameDiffers(existing: seq<ServicePort>, m: PortMap, l: nat)
    requires existing != [] && (forall n :: n in m ==> m[n].name == n)
    requires l < |Survivors(existing[1..], LeftOf(existing, m))|
    ensures Survivors(existing[1..], LeftOf(existing, m))[l].name != existing[0].name
  {
    hide LeftOf, Survivors;
    LeftIsPart(existing, m);
    SurvivorNamed(existing[1..], LeftOf(existing, m), l);
  }

  lemma PlaceBehind(existing: seq<ServicePort>, m: PortMap, l: nat)
    requires (forall n :: n in m ==> m[n].name == n) && existing != [] && l < |Survivors(existing, m)|
    ensures var left, k := LeftOf(existing, m), if existing[0].name in m then 1 else 0;
            if l < k then PlaceOf(existing, m, l) == 0
            else
              && l - k < |Survivors(existing[1..], left)|
              && PlaceOf(existing, m, l) == 1 + PlaceOf(existing[1..], left, l - k)
  {
    hide FirstNamed, Survivors, LeftOf;
    var k := if existing[0].name in m then 1 else 0;
    if l < k {
      FirstIsFirst(existing, m);
    } else {
      SurvivorBehind(existing, m, l);
      LaterNameDiffers(existing, m, l - k);
      FirstNamedLater(existing, Survivors(existing, m)[l].name);
    }
  }

  // ... in the order of these occurrences ...
  lemma {:induction false} SurvivorsInOrder(existing: seq<ServicePort>, m: PortMap, i: nat, j: nat)
    requires (forall n :: n in m ==> m[n].name == n) && i < j < |Survivors(existing, m)|
    ensures PlaceOf(existing, m, i) < PlaceOf(existing, m, j)
  {
    assert existing != [];
    hide Survivors, PlaceOf, LeftOf;
    LeftIsPart(existing, m);
    PlaceBehind(existing, m, i);
    PlaceBehind(existing, m, j);
    var k := if existing[0].name in m then 1 else 0;
    if i >= k { SurvivorsInOrder(existing[1..], LeftOf(existing, m), i - k, j - k); }
  }

  lemma FirstIsFirst(existing: seq<ServicePort>, m: PortMap)
    requires existing != [] && existing[0].name in m && m[existing[0].name].name == existing[0].name
    ensures Survivors(existing, m) != [] && FirstNamed(existing, Survivors(existing, m)[0].name) == 0
  {
  }

  // ... and none of them is missing.
  lemma {:induction false} SurvivorsComplete(existing: seq<ServicePort>, m: PortMap, p: ServicePort) returns (i: nat)
    requires (forall n :: n in m ==> m[n].name == n) && p in existing && p.name in m
    ensures i < |Survivors(existing, m)| && Survivors(existing, m)[i].name == p.name
  {
    var n, rest := existing[0].name, existing[1..];
    if n == p.name {
      i := 0;
    } else if n in m {
      i := SurvivorsComplete(rest, m - {n}, p);
      i := i + 1;
    } else {
      i := SurvivorsComplete(rest, m, p);
    }
  }

  predicate DistinctNames(ports: seq<ServicePort>) {
    forall i, j :: 0 <= i < j < |ports| ==> ports[i].name != ports[j].name
  }

  lemma SurvivorsAreDesired(existing: seq<ServicePort>, m: PortMap)
    requires forall n :: n in m ==> m[n].name == n
    ensures var kept := Survivors(existing, m);
            && DistinctNames(kept)
            && (forall i :: 0 <= i < |kept| ==>
                kept[i].name in m && kept[i] == m[kept[i].name].(nodePort := kept[i].nodePort))
            && (forall i :: 0 <= i < |kept| ==> kept[i].name !in Missing(existing, m))
            && (forall n :: n in m ==> n in Missing(existing, m) || exists i :: 0 <= i < |kept| && kept[i].name == n)
  {
    hide Survivors;
    var kept := Survivors(existing, m);
    forall i, j | 0 <= i < j < |kept| ensures kept[i].name != kept[j].name {
      SurvivorsInOrder(existing, m, i, j);
    }
    forall i | 0 <= i < |kept|
      ensures kept[i].name in m && kept[i].name !in Missing(existing, m)
      ensures kept[i] == m[kept[i].name].(nodePort := kept[i].nodePort)
    {
      SurvivorKept(existing, m, i);
      assert existing[FirstNamed(existing, kept[i].name)] in existing;
    }
    forall n | n in m && n !in Missing(existing, m) ensures exists i :: 0 <= i < |kept| && kept[i].name == n {
      var p :| p in existing && p.name == n;
      var i := SurvivorsComplete(existing, m, p);
    }
  }

  lemma UpdatedHasAll(existing: seq<ServicePort>, m: PortMap, ports: seq<ServicePort>, n: PortName) returns (i: nat)
    requires (forall n :: n in m ==> m[n].name == n) && Updated(existing, m, ports) && n in m
    ensures i < |ports| && ports[i].name == n
  {
    hide Survivors, Missing;
    var kept, missing := Survivors(existing, m), Missing(existing, m);
    SurvivorsAreDesired(existing, m);
    MissingIsPart(existing, m);
    assert ports == kept + ports[|kept|..];
    if n in missing {
      assert missing[n] in ports[|kept|..];
      i :| |kept| <= i < |ports| && ports[i] == missing[n];
    } else {
      i :| 0 <= i < |kept| && kept[i].name == n;
    }
  }

  // Each port that comes out is kept, or was missing.
  lemma UpdatedAt(existing: seq<ServicePort>, m: PortMap, ports: seq<ServicePort>, i: nat)
    requires (forall n :: n in m ==> m[n].name == n) && Updated(existing, m, ports) && i < |ports|
    ensures ports[i].name in m && ports[i] == m[ports[i].name].(nodePort := ports[i].nodePort)
    ensures var kept := Survivors(existing, m);
            |kept| <= |ports| && if i < |kept| then ports[i] == kept[i] else ports[i].name in Missing(existing, m)
  {
    hide Survivors, Missing;
    var kept := Survivors(existing, m);
    SurvivorsAreDesired(existing, m);
    MissingIsPart(existing, m);
    assert ports == kept + ports[|kept|..];
    if i >= |kept| { assert ports[|kept|..][i - |kept|] in ports[|kept|..]; }
  }

  lemma UpdatedDistinct(existing: seq<ServicePort>, m: PortMap, ports: seq<ServicePort>, i: nat, j: nat)
    requires (forall n :: n in m ==> m[n].name == n) && Updated(existing, m, ports) && i < j < |ports|
    ensures ports[i].name != ports[j].name
  {
    hide Survivors, Missing;
    var kept := Survivors(existing, m);
    SurvivorsAreDesired(existing, m);
    UpdatedAt(existing, m, ports, i);
    UpdatedAt(existing, m, ports, j);
    if i >= |kept| {
      var added := ports[|kept|..];
      assert added[i - |kept|] == ports[i] && added[j - |kept|] == ports[j];
    }
  }

  // Every desired name comes out exactly once, as the table has it but for the NodePort.
  lemma UpdatedNamesOnce(existing: seq<ServicePort>, m: PortMap, ports: seq<ServicePort>)
    requires (forall n :: n in m ==> m[n].name == n) && Updated(existing, m, ports)
    ensures DistinctNames(ports)
    ensures forall n :: n in m ==> exists i :: 0 <= i < |ports| && ports[i].name == n
    ensures forall i :: 0 <= i < |ports| ==>
      ports[i].name in m && ports[i] == m[ports[i].name].(nodePort := ports[i].nodePort)
  {
    hide Survivors, Missing, Updated;
    forall i, j | 0 <= i < j < |ports| ensures ports[i].name != ports[j].name {
      UpdatedDistinct(existing, m, ports, i, j);
    }
    forall n | n in m ensures exists i :: 0 <= i < |ports| && ports[i].name == n {
      var i := UpdatedHasAll(existing, m, ports, n);
    }
    forall i | 0 <= i < |ports|
      ensures ports[i].name in m && ports[i] == m[ports[i].name].(nodePort := ports[i].nodePort)
    {
      UpdatedAt(existing, m, ports, i);
    }
  }

  lemma MissingIsPart(existing: seq<ServicePort>, m: PortMap)
    ensures forall n :: n in Missing(existing, m) ==> n in m && Missing(existing, m)[n] == m[n]
  {
  }

  lemma {:induction false} SettledPortsSurvive(ports: seq<ServicePort>, m: PortMap)
    requires DistinctNames(ports)
    requires forall i :: 0 <= i < |ports| ==>
      ports[i].name in m && ports[i] == m[ports[i].name].(nodePort := ports[i].nodePort)
    ensures Survivors(ports, m) == ports
  {
    if ports != [] {
      SettledPortsSurvive(ports[1..], m - {ports[0].name});
      assert ports == [ports[0]] + ports[1..];
    }
  }

  function ClearedNodePorts(ports: seq<ServicePort>): (r: seq<ServicePort>)
    ensures |r| == |ports| && forall i :: 0 <= i < |r| ==> r[i] == ports[i].(nodePort := 0)
  {
    seq(|ports|, i requires 0 <= i < |ports| => ports[i].(nodePort := 0))
  }

  // ServiceBuilder.Update as far as it concerns ports: a cluster-internal
  // Service keeps no NodePorts.
  ghost predicate ServiceUpdated(clusterIP: bool, existing: seq<ServicePort>, m: PortMap, ports: seq<ServicePort>) {
    exists listed :: Updated(existing, m, listed) && ports == if clusterIP then ClearedNodePorts(listed) else listed
  }

  method UpdateService(clusterIP: bool, existing: seq<ServicePort>, spec: ClusterSpec) returns (ports: seq<ServicePort>)
    ensures ServiceUpdated(clusterIP, existing, DesiredPorts(spec), ports)
  {
    hide DesiredPorts;
    ports := UpdatePorts(existing, spec);
    ghost var listed := ports;
    if clusterIP {
      for i := 0 to |ports|
        invariant |ports| == |listed|
        invariant forall j :: 0 <= j < |ports| ==> ports[j] == if j < i then listed[j].(nodePort := 0) else listed[j]
      {
        ports := ports[i := ports[i].(nodePort := 0)];
      }
      assert ports == ClearedNodePorts(listed);
    }
  }

  lemma NoneListed(ports: seq<ServicePort>)
    requires Lists(ports, map[])
    ensures ports == []
  {
    if ports != [] { HasMember(ports); }
  }

  lemma HasMember(ports: seq<ServicePort>)
    requires ports != []
    ensures exists p :: p in ports
  {
    assert ports[0] in ports;
  }

  lemma NothingMissing(listed: seq<ServicePort>, m: PortMap, ports: seq<ServicePort>)
    requires |ports| == |listed| && forall i :: 0 <= i < |ports| ==> ports[i].name == listed[i].name
    requires forall n :: n in m ==> exists i :: 0 <= i < |listed| && listed[i].name == n
    ensures Missing(ports, m) == map[]
  {
    forall n | n in m ensures exists p :: p in ports && p.name == n {
      var i :| 0 <= i < |listed| && listed[i].name == n;
      assert ports[i] in ports;
    }
  }

  // A second update, ranging over the map in any order, changes nothing.
  lemma ServiceUpdateSettles(clusterIP: bool, existing: seq<ServicePort>, m: PortMap, ports: seq<ServicePort>,
    again: seq<ServicePort>)
    requires forall n :: n in m ==> m[n].name == n
    requires ServiceUpdated(clusterIP, existing, m, ports) && ServiceUpdated(clusterIP, ports, m, again)
    ensures again == ports
  {
    hide Survivors;
    var listed: seq<ServicePort> :| Updated(existing, m, listed) && ports ==
      if clusterIP then ClearedNodePorts(listed) else listed;
    UpdatedNamesOnce(existing, m, listed);
    NothingMissing(listed, m, ports);
    assert DistinctNames(ports);
    SettledPortsSurvive(ports, m);
    var listed2: seq<ServicePort> :| Updated(ports, m, listed2) && again ==
      if clusterIP then ClearedNodePorts(listed2) else listed2;
    var added := listed2[|ports|..];
    NoneListed(added);
    assert listed2 == ports;
  }
}
