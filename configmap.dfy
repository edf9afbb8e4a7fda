/**
 * The Envoy bootstrap compiler and the ConfigMap that carries it
 * (controllers/configmap.go): one cluster (or, with IP overrides, an
 * aggregate, a static override cluster and the DNS cluster) and one listener
 * per declared port, an admin listener on the least free TCP port from
 * 11000, and a content hash the Deployment uses to roll its pods.
 */
module ConfigMap {
  import opened Wrappers
  import opened StrConv
  import opened ExternalServiceTypes
  import opened Kube
  import opened Common
  import opened Envoy

  const ClusterTextLogFormat: string :=
    "[%START_TIME%] %BYTES_RECEIVED% %BYTES_SENT% %DURATION% \"%DOWNSTREAM_REMOTE_ADDRESS%\" \"%UPSTREAM_HOST%\" \"%UPSTREAM_CLUSTER%\""
  const AdminTextLogFormat: string :=
    "[%START_TIME%] \"%REQ(:METHOD)% %REQ(X-ENVOY-ORIGINAL-PATH?:PATH)% %PROTOCOL%\" %RESPONSE_CODE% %RESPONSE_FLAGS% %BYTES_RECEIVED% %BYTES_SENT% %DURATION% %RESP(X-ENVOY-UPSTREAM-SERVICE-TIME)% \"%REQ(X-FORWARDED-FOR)%\" \"%REQ(USER-AGENT)%\" \"%REQ(X-REQUEST-ID)%\" \"%REQ(:AUTHORITY)%\" \"%UPSTREAM_HOST%\"\n"

  /** The fields of the JSON access log and the substitution each one takes. */
  const JsonLogFields: map<string, string> := map[
    "authority" := "%REQ(:AUTHORITY)%",
    "bytes_received" := "%BYTES_RECEIVED%",
    "bytes_sent" := "%BYTES_SENT%",
    "connection_termination_details" := "%CONNECTION_TERMINATION_DETAILS%",
    "downstream_local_address" := "%DOWNSTREAM_LOCAL_ADDRESS%",
    "downstream_remote_address" := "%DOWNSTREAM_REMOTE_ADDRESS%",
    "duration" := "%DURATION%",
    "method" := "%REQ(:METHOD)%",
    "path" := "%REQ(X-ENVOY-ORIGINAL-PATH?:PATH)%",
    "protocol" := "%PROTOCOL%",
    "requested_server_name" := "%REQUESTED_SERVER_NAME%",
    "response_code" := "%RESPONSE_CODE%",
    "response_code_details" := "%RESPONSE_CODE_DETAILS%",
    "response_flags" := "%RESPONSE_FLAGS%",
    "start_time" := "%START_TIME%",
    "upstream_cluster" := "%UPSTREAM_CLUSTER%",
    "upstream_host" := "%UPSTREAM_HOST%",
    "upstream_local_address" := "%UPSTREAM_LOCAL_ADDRESS%",
    "upstream_service_time" := "%RESP(X-ENVOY-UPSTREAM-SERVICE-TIME)%",
    "upstream_transport_failure_reason" := "%UPSTREAM_TRANSPORT_FAILURE_REASON%",
    "user_agent" := "%REQ(USER-AGENT)%"]

  /** The inline format string a text format stands for; the JSON format has none (its fields are JsonLogFields). */
  function InlineFormat(f: LogFormat): (r: Option<string>) {
    match f
    case ClusterText => Some(ClusterTextLogFormat)
    case AdminText => Some(AdminTextLogFormat)
    case JsonFields => None
  }

  const StdoutAccessLogName := "envoy.stdout_access_log"
  const LogContentType := "application/json; charset=UTF-8"
  const AnyAddress := "0.0.0.0"
  const TcpProxyFilterName := "envoy.tcp_proxy"
  const UdpProxyFilterName := "envoy.filters.udp_listener.udp_proxy"

  /** The admin listener takes a port in [AdminPortFirst, AdminPortLimit). */
  const AdminPortFirst := 11000
  const AdminPortLimit := 32768
  const NoAdminPort := Failed("couldn't find a port for admin listener")

  /** The ConfigMap key holding the bootstrap YAML. */
  const ConfigKey := "envoy.yaml"

  /** Renders a bootstrap as YAML (protobuf JSON marshalling then JSON to YAML); may fail. */
  type Serializer = Bootstrap -> Result<string, Error>

  /** The 32-bit FNV-1a hash of a string's bytes. */
  type Hash32 = string -> HashValue

  /** A 32-bit unsigned hash value. */
  type HashValue = h: nat | h < 0x1_0000_0000

  // Protocols and the admin port

  /** The socket protocol of a declared port: UDP exactly when it says UDP. */
  function ProtocolToEnvoy(p: Option<Protocol>): (r: SocketProtocol)
    ensures r == UDP <==> p == Some(ProtocolUDP)
  {
    if p.Some? && p.value == ProtocolUDP then UDP else TCP
  }

  /** Whether a port keeps its number from the admin listener: unset or TCP (not UDP, not SCTP). */
  predicate ClaimsAdminPort(p: ExternalServicePort) {
    p.protocol.None? || p.protocol.value == ProtocolTCP
  }

  /** The port numbers the admin listener must avoid. */
  function ClaimedPorts(ports: seq<ExternalServicePort>): (r: set<int>) {
    set i | 0 <= i < |ports| && ClaimsAdminPort(ports[i]) :: ports[i].port
  }

  /** The least port from `from` below AdminPortLimit that is not taken. */
  function FirstFree(taken: set<int>, from: int): (r: Option<int>)
    decreases AdminPortLimit - from
  {
    if from >= AdminPortLimit then None
    else if from !in taken then Some(from)
    else FirstFree(taken, from + 1)
  }

  /** adminPort: the least free admin port; None where the source panics. */
  function AdminPortOf(es: ExternalService): (r: Option<int>) {
    FirstFree(ClaimedPorts(es.spec.ports), AdminPortFirst)
  }

  lemma {:induction false} FirstFreeIsLeast(taken: set<int>, from: int)
    ensures FirstFree(taken, from).Some? ==>
      var v := FirstFree(taken, from).value;
      from <= v < AdminPortLimit && v !in taken && forall k | from <= k < v :: k in taken
    ensures FirstFree(taken, from).None? ==> forall k | from <= k < AdminPortLimit :: k in taken
    decreases AdminPortLimit - from
  {
    if from < AdminPortLimit && from in taken {
      FirstFreeIsLeast(taken, from + 1);
    }
  }

  /**
   * The admin port is the least port from 11000 that no TCP (or
   * protocol-less) declared port uses, and there is none exactly when all of
   * 11000..32767 are used.
   */
  lemma AdminPortIsLeastFree(es: ExternalService)
    ensures AdminPortOf(es).Some? ==>
      var a := AdminPortOf(es).value;
      AdminPortFirst <= a < AdminPortLimit
      && (forall i | 0 <= i < |es.spec.ports| && ClaimsAdminPort(es.spec.ports[i]) :: es.spec.ports[i].port != a)
      && (forall k | AdminPortFirst <= k < a :: k in ClaimedPorts(es.spec.ports))
    ensures AdminPortOf(es).None? <==>
      forall k | AdminPortFirst <= k < AdminPortLimit :: k in ClaimedPorts(es.spec.ports)
  {
    FirstFreeIsLeast(ClaimedPorts(es.spec.ports), AdminPortFirst);
  }

  lemma ClaimedPortsStep(ports: seq<ExternalServicePort>, i: nat)
    requires i < |ports|
    ensures ClaimedPorts(ports[..i + 1]) ==
      ClaimedPorts(ports[..i]) + (if ClaimsAdminPort(ports[i]) then {ports[i].port} else {})
  {
    var pre, post := ports[..i], ports[..i + 1];
    forall x | x in ClaimedPorts(post)
      ensures x in ClaimedPorts(pre) + (if ClaimsAdminPort(ports[i]) then {ports[i].port} else {})
    {
      var j :| 0 <= j < |post| && ClaimsAdminPort(post[j]) && post[j].port == x;
      if j < i {
        assert pre[j] == post[j];
      }
    }
    forall x | x in ClaimedPorts(pre) ensures x in ClaimedPorts(post) {
      var j :| 0 <= j < |pre| && ClaimsAdminPort(pre[j]) && pre[j].port == x;
      assert post[j] == pre[j];
    }
    if ClaimsAdminPort(ports[i]) {
      assert post[i] == ports[i];
    }
  }

  /** adminPort: collect the claimed ports, then scan upwards from 11000. */
  method AdminPort(es: ExternalService) returns (r: Option<int>)
    ensures r == AdminPortOf(es)
  {
    var ports := es.spec.ports;
    var disallowed: set<int> := {};
    for i := 0 to |ports|
      invariant disallowed == ClaimedPorts(ports[..i])
    {
      ClaimedPortsStep(ports, i);
      var p := ports[i];
      if p.protocol.None? || p.protocol.value == ProtocolTCP {
        disallowed := disallowed + {p.port};
      }
    }
    assert ports[..|ports|] == ports;
    var i := AdminPortFirst;
    while i < AdminPortLimit
      invariant AdminPortFirst <= i <= AdminPortLimit
      invariant FirstFree(disallowed, i) == AdminPortOf(es)
    {
      if i !in disallowed {
        return Some(i);
      }
      i := i + 1;
    }
    return None;
  }

  // Access logs

  function StdoutAccessLog(format: LogFormat): (r: seq<AccessLog>) {
    [AccessLog(StdoutAccessLogName, format, true, LogContentType)]
  }

  /** The access log of the proxied traffic: JSON when asked for, else the cluster text format. */
  function ClusterAccessLog(es: ExternalService): (r: seq<AccessLog>)
    ensures |r| == 1 && r[0].logName == StdoutAccessLogName && r[0].omitEmptyValues
    ensures es.spec.jsonClusterAccessLogs ==> r[0].format == JsonFields
    ensures !es.spec.jsonClusterAccessLogs ==> r[0].format == ClusterText
  {
    if es.spec.jsonClusterAccessLogs then StdoutAccessLog(JsonFields)
    else StdoutAccessLog(ClusterText)
  }

  /** The access log of the admin listener: JSON when asked for, else the admin text format. */
  function AdminAccessLog(es: ExternalService): (r: seq<AccessLog>)
    ensures |r| == 1 && r[0].logName == StdoutAccessLogName && r[0].omitEmptyValues
    ensures es.spec.jsonAdminAccessLogs ==> r[0].format == JsonFields
    ensures !es.spec.jsonAdminAccessLogs ==> r[0].format == AdminText
  {
    if es.spec.jsonAdminAccessLogs then StdoutAccessLog(JsonFields)
    else StdoutAccessLog(AdminText)
  }

  // Clusters

  /** The name of a port's cluster and listener: "<name>_<TCP|UDP>_<port>". */
  function ClusterName(es: ExternalService, port: ExternalServicePort): (r: string) {
    es.name + "_" + ProtocolName(ProtocolToEnvoy(port.protocol)) + "_" + Itoa(port.port)
  }

  function OverrideName(name: string): (r: string) { name + "-override" }

  function AggregateName(name: string): (r: string) { name + "-aggregate" }

  /** The DNS refresh rate, unset when the spec gives 0. */
  function DnsRefreshRate(spec: ExternalServiceSpec): (r: Option<int>) {
    if spec.envoyDnsRefreshRateS != 0 then Some(spec.envoyDnsRefreshRateS) else None
  }

  /** The cluster that resolves the DNS name and round-robins over the answers. */
  function DnsCluster(es: ExternalService, port: ExternalServicePort): (r: Cluster) {
    var name := ClusterName(es, port);
    var address := SocketAddress(es.spec.dnsName, ProtocolToEnvoy(port.protocol), Uint32(port.port));
    Cluster(
      name, LogicalDns, 1, RoundRobin, V4Only,
      Some(TcpKeepalive(3, 30, 5)),
      DnsRefreshRate(es.spec), es.spec.envoyRespectDnsTTL,
      Some(ClusterLoadAssignment(name, [LocalityLbEndpoints([LbEndpoint(address, None)])])),
      [], false, None)
  }

  /** The TCP health check of the override cluster's hosts. */
  const OverrideHealthCheck := TcpHealthCheck(1, 10, false, 2, 3, "/dev/stdout")

  /** One locality per override address, health-checked on the service port. */
  function OverrideEndpoint(ip: string, port: ExternalServicePort, protocol: SocketProtocol): (r: LocalityLbEndpoints) {
    LocalityLbEndpoints([LbEndpoint(SocketAddress(ip, protocol, Uint32(port.port)), Some(Uint32(port.port)))])
  }

  function OverrideEndpoints(ips: seq<string>, port: ExternalServicePort, protocol: SocketProtocol): (r: seq<LocalityLbEndpoints>)
    ensures |r| == |ips|
    ensures forall i | 0 <= i < |ips| :: r[i] == OverrideEndpoint(ips[i], port, protocol)
  {
    seq(|ips|, i requires 0 <= i < |ips| => OverrideEndpoint(ips[i], port, protocol))
  }

  /** generateOverrideCluster's result: a static cluster over the override addresses. */
  function OverrideCluster(name: string, spec: ExternalServiceSpec, port: ExternalServicePort, protocol: SocketProtocol): (r: Cluster) {
    Cluster(
      OverrideName(name), Static, 1, RoundRobin, V4Only, None,
      DnsRefreshRate(spec), spec.envoyRespectDnsTTL,
      Some(ClusterLoadAssignment(OverrideName(name), OverrideEndpoints(spec.ipOverride, port, protocol))),
      [OverrideHealthCheck], true, None)
  }

  /** generateOverrideCluster: one endpoint per override address, in order. */
  method GenerateOverrideCluster(name: string, spec: ExternalServiceSpec, port: ExternalServicePort, protocol: SocketProtocol)
    returns (c: Cluster)
    ensures c == OverrideCluster(name, spec, port, protocol)
    ensures c.loadAssignment.Some? && |c.loadAssignment.value.endpoints| == |spec.ipOverride|
    ensures forall i | 0 <= i < |spec.ipOverride| ::
      c.loadAssignment.value.endpoints[i].lbEndpoints[0].endpointAddress.address == spec.ipOverride[i]
  {
    var dnsRefreshRate := None;
    if spec.envoyDnsRefreshRateS != 0 {
      dnsRefreshRate := Some(spec.envoyDnsRefreshRateS);
    }
    var endpoints: seq<LocalityLbEndpoints> := [];
    for i := 0 to |spec.ipOverride|
      invariant endpoints == OverrideEndpoints(spec.ipOverride[..i], port, protocol)
    {
      endpoints := endpoints + [OverrideEndpoint(spec.ipOverride[i], port, protocol)];
    }
    assert spec.ipOverride[..|spec.ipOverride|] == spec.ipOverride;
    c := Cluster(
      OverrideName(name), Static, 1, RoundRobin, V4Only, None,
      dnsRefreshRate, spec.envoyRespectDnsTTL,
      Some(ClusterLoadAssignment(OverrideName(name), endpoints)),
      [OverrideHealthCheck], true, None);
  }

  /** generateAggregateCluster: a cluster that tries the named clusters in order. */
  function AggregateCluster(name: string, clusters: seq<string>): (r: Cluster) {
    Cluster(name, Aggregate(clusters), 1, ClusterProvided, Auto, None, None, false, None, [], false, None)
  }

  /** Every cluster with the connection limit set, when the spec sets one. */
  function WithCircuitBreakers(cs: seq<Cluster>, maxConnections: Option<nat>): (r: seq<Cluster>)
    ensures |r| == |cs|
    ensures forall i | 0 <= i < |cs| :: r[i].name == cs[i].name
    ensures maxConnections.None? ==> r == cs
    ensures maxConnections.Some? ==> forall i | 0 <= i < |cs| ::
      r[i] == cs[i].(circuitBreakers := Some(CircuitBreakers([Thresholds(maxConnections.value)])))
  {
    if maxConnections.None? then
      cs
    else
      seq(|cs|, i requires 0 <= i < |cs| =>
        cs[i].(circuitBreakers := Some(CircuitBreakers([Thresholds(maxConnections.value)]))))
  }

  /**
   * The clusters of one port, in emitted order: with IP overrides the
   * aggregate, then the override cluster, then the DNS cluster; else the DNS
   * cluster alone.
   */
  function PortClusters(es: ExternalService, port: ExternalServicePort): (r: seq<Cluster>) {
    var name := ClusterName(es, port);
    var protocol := ProtocolToEnvoy(port.protocol);
    var cs :=
      if |es.spec.ipOverride| > 0 then
        [AggregateCluster(AggregateName(name), [OverrideName(name), name]),
         OverrideCluster(name, es.spec, port, protocol),
         DnsCluster(es, port)]
      else [DnsCluster(es, port)];
    WithCircuitBreakers(cs, es.spec.envoyClusterMaxConnections)
  }

  /** The cluster a port's TCP listener forwards to. */
  function TcpTarget(es: ExternalService, port: ExternalServicePort): (r: string) {
    var name := ClusterName(es, port);
    if |es.spec.ipOverride| > 0 then AggregateName(name) else name
  }

  /**
   * The listener of one port on 0.0.0.0: a TCP proxy to TcpTarget, or a UDP
   * proxy to the DNS cluster (the override is not consulted for UDP).
   */
  function PortListener(es: ExternalService, port: ExternalServicePort, accessLog: seq<AccessLog>): (r: Listener) {
    var name := ClusterName(es, port);
    var protocol := ProtocolToEnvoy(port.protocol);
    var address := SocketAddress(AnyAddress, protocol, Uint32(port.port));
    match protocol
    case TCP =>
      Listener(name, address, [FilterChain([Filter(TcpProxyFilterName, TcpProxy(accessLog, "tcp_proxy", TcpTarget(es, port)))])])
    case UDP =>
      Listener(name, address, [FilterChain([Filter(UdpProxyFilterName, UdpProxy(accessLog, "udp_proxy", name))])])
  }

  /** The pieces `f` gives each port, concatenated in port order. */
  function ConcatPerPort<T>(f: ExternalServicePort -> seq<T>, ports: seq<ExternalServicePort>): (r: seq<T>) {
    if |ports| == 0 then []
    else ConcatPerPort(f, ports[..|ports| - 1]) + f(ports[|ports| - 1])
  }

  /** The clusters of all ports, port after port. */
  function AllClusters(es: ExternalService, ports: seq<ExternalServicePort>): (r: seq<Cluster>) {
    ConcatPerPort(p => PortClusters(es, p), ports)
  }

  /** One listener per port, in order. */
  function AllListeners(es: ExternalService, ports: seq<ExternalServicePort>, accessLog: seq<AccessLog>): (r: seq<Listener>)
    ensures |r| == |ports|
    ensures forall i | 0 <= i < |ports| :: r[i] == PortListener(es, ports[i], accessLog)
  {
    seq(|ports|, i requires 0 <= i < |ports| => PortListener(es, ports[i], accessLog))
  }

  /** The bootstrap for a given admin port. */
  function BootstrapOf(es: ExternalService, adminPort: int): (r: Bootstrap) {
    Bootstrap(
      es.name,
      Admin(SocketAddress(AnyAddress, TCP, Uint32(adminPort)), AdminAccessLog(es)),
      AllClusters(es, es.spec.ports),
      AllListeners(es, es.spec.ports, ClusterAccessLog(es)))
  }

  /** envoyConfig: the rendered bootstrap, or why there is none. */
  function EnvoyConfigOf(es: ExternalService, serialize: Serializer): (r: Result<string, Error>)
    ensures AdminPortOf(es).None? ==> r == Failure(NoAdminPort)
    ensures r.Success? ==> AdminPortOf(es).Some?
  {
    match AdminPortOf(es)
    case None => Failure(NoAdminPort)
    case Some(p) => serialize(BootstrapOf(es, p))
  }

  /** The clusters one loop iteration of envoyConfig emits, built as the source does. */
  method BuildPortClusters(es: ExternalService, port: ExternalServicePort) returns (clusters: seq<Cluster>, listenerTarget: string)
    ensures clusters == PortClusters(es, port)
    ensures listenerTarget == TcpTarget(es, port)
  {
    var protocol := ProtocolToEnvoy(port.protocol);
    var name := ClusterName(es, port);
    listenerTarget := name;
    clusters := [DnsCluster(es, port)];
    if |es.spec.ipOverride| > 0 {
      var overrideCluster := GenerateOverrideCluster(name, es.spec, port, protocol);
      clusters := [overrideCluster] + clusters;
      var aggregateCluster := AggregateCluster(AggregateName(name), [overrideCluster.name, name]);
      clusters := [aggregateCluster] + clusters;
      listenerTarget := aggregateCluster.name;
    }
    if es.spec.envoyClusterMaxConnections.Some? {
      var cbs := Some(CircuitBreakers([Thresholds(es.spec.envoyClusterMaxConnections.value)]));
      ghost var before := clusters;
      for j := 0 to |clusters|
        invariant |clusters| == |before|
        invariant forall k | 0 <= k < j :: clusters[k] == before[k].(circuitBreakers := cbs)
        invariant forall k | j <= k < |clusters| :: clusters[k] == before[k]
      {
        clusters := clusters[j := clusters[j].(circuitBreakers := cbs)];
      }
    }
  }

  /** The listener one loop iteration of envoyConfig emits, given the cluster its TCP proxy targets. */
  method BuildPortListener(es: ExternalService, port: ExternalServicePort, accessLog: seq<AccessLog>, target: string)
    returns (listener: Listener)
    requires target == TcpTarget(es, port)
    ensures listener == PortListener(es, port, accessLog)
  {
    var name := ClusterName(es, port);
    var protocol := ProtocolToEnvoy(port.protocol);
    var address := SocketAddress(AnyAddress, protocol, Uint32(port.port));
    match protocol {
      case TCP =>
        listener := Listener(name, address, [FilterChain([Filter(TcpProxyFilterName, TcpProxy(accessLog, "tcp_proxy", target))])]);
      case UDP =>
        listener := Listener(name, address, [FilterChain([Filter(UdpProxyFilterName, UdpProxy(accessLog, "udp_proxy", name))])]);
    }
  }

  lemma ConcatStep<T>(f: ExternalServicePort -> seq<T>, ports: seq<ExternalServicePort>, i: nat)
    requires i < |ports|
    ensures ConcatPerPort(f, ports[..i + 1]) == ConcatPerPort(f, ports[..i]) + f(ports[i])
  {
    assert ports[..i + 1][..i] == ports[..i];
  }

  lemma ListenersStep(es: ExternalService, ports: seq<ExternalServicePort>, i: nat, accessLog: seq<AccessLog>)
    requires i < |ports|
    ensures AllListeners(es, ports[..i + 1], accessLog) == AllListeners(es, ports[..i], accessLog) + [PortListener(es, ports[i], accessLog)]
  {
  }

  /** envoyConfig: walk the ports accumulating clusters and listeners, then render. */
  method EnvoyConfig(es: ExternalService, serialize: Serializer) returns (r: Result<string, Error>)
    ensures r == EnvoyConfigOf(es, serialize)
  {
    var adminAccessLog := AdminAccessLog(es);
    var clusterAccessLog := ClusterAccessLog(es);
    var admin := AdminPort(es);
    if admin.None? {
      return Failure(NoAdminPort);
    }
    var ports := es.spec.ports;
    var clusters: seq<Cluster> := [];
    var listeners: seq<Listener> := [];
    for i := 0 to |ports|
      invariant clusters == AllClusters(es, ports[..i])
      invariant listeners == AllListeners(es, ports[..i], clusterAccessLog)
    {
      var portClusters, target := BuildPortClusters(es, ports[i]);
      var listener := BuildPortListener(es, ports[i], clusterAccessLog, target);
      ConcatStep(p => PortClusters(es, p), ports, i);
      ListenersStep(es, ports, i, clusterAccessLog);
      clusters := clusters + portClusters;
      listeners := listeners + [listener];
    }
    assert ports[..|ports|] == ports;
    var config := Bootstrap(es.name, Admin(SocketAddress(AnyAddress, TCP, Uint32(admin.value)), adminAccessLog), clusters, listeners);
    r := serialize(config);
  }

  // The ConfigMap object and its reconcile step

  /**
   * configmap, given what envoyConfig returned: the ConfigMap named after the
   * ExternalService holding the rendered bootstrap under "envoy.yaml", and the
   * lower-case hex FNV-1a hash of that text; envoyConfig's error otherwise.
   */
  function ConfigMapOf(es: ExternalService, env: map<string, string>, rendered: Result<string, Error>, fnv: Hash32)
    : (r: Result<(Object, string), Error>)
  {
    match rendered
    case Failure(e) => Failure(e)
    case Success(text) =>
      var meta := ObjectMeta(es.name, Namespace, Labels(es), Annotations(es, env));
      Success((Object(meta, ConfigMapBody(map[ConfigKey := text])), FormatHex(fnv(text))))
  }

  /** configmap: render the bootstrap, then wrap it and hash it. */
  method BuildConfigMap(es: ExternalService, env: map<string, string>, serialize: Serializer, fnv: Hash32)
    returns (r: Result<(Object, string), Error>)
    ensures r == ConfigMapOf(es, env, EnvoyConfigOf(es, serialize), fnv)
  {
    var ec := EnvoyConfig(es, serialize);
    if ec.Failure? {
      return Failure(ec.error);
    }
    var sum := fnv(ec.value);
    var meta := ObjectMeta(es.name, Namespace, Labels(es), Annotations(es, env));
    r := Success((Object(meta, ConfigMapBody(map[ConfigKey := ec.value])), FormatHex(sum)));
  }

  /**
   * The ConfigMap exists exactly when rendering succeeds; it is named after
   * the ExternalService in the operator's namespace, holds exactly the
   * rendered text, and the hash handed to the Deployment reads back as the
   * hash of that stored text.
   */
  lemma ConfigMapHashMatchesData(es: ExternalService, env: map<string, string>, rendered: Result<string, Error>, fnv: Hash32)
    ensures ConfigMapOf(es, env, rendered, fnv).Success? <==> rendered.Success?
    ensures rendered.Failure? ==> ConfigMapOf(es, env, rendered, fnv) == Failure(rendered.error)
    ensures rendered.Success? ==>
      var (cm, hash) := ConfigMapOf(es, env, rendered, fnv).value;
      && cm.Key() == ObjectKey(ConfigMapKind, Namespace, es.name)
      && cm.body.data == map[ConfigKey := rendered.value]
      && ParseDigits(hash, 16) == Some(fnv(cm.body.data[ConfigKey]))
  {
    if rendered.Success? {
      ParseFormatHex(fnv(rendered.value));
    }
  }

  /** The stored ConfigMap with the desired metadata merged in and its data replaced. */
  function PatchedConfigMap(stored: Object, desired: Object): (r: Object)
    requires desired.body.ConfigMapBody?
  {
    Object(MergedMeta(stored.meta, desired.meta), ConfigMapBody(desired.body.data))
  }

  /** reconcileConfigMap as a state transition. */
  function ConfigMapStep(st: State, faults: Faults, desired: Object): (r: Outcome)
    requires WellKeyed(st.objects) && desired.body.ConfigMapBody?
  {
    var k := desired.Key();
    Upsert(st, faults, desired, if k in st.objects then PatchedConfigMap(st.objects[k], desired) else desired)
  }

  /** reconcileConfigMap: create the ConfigMap, or patch its metadata and data. */
  method ReconcileConfigMap(api: ApiServer, desired: Object) returns (err: Option<Error>)
    requires api.Valid() && desired.body.ConfigMapBody?
    modifies api
    ensures api.Valid()
    ensures Outcome(api.Snapshot(), err) == ConfigMapStep(old(api.Snapshot()), api.faults, desired)
  {
    var got := api.Get(desired.Key());
    if got.Failure? {
      if got.error == NotFound {
        err := api.Create(desired);
        return;
      }
      return Some(got.error);
    }
    var meta := MergeMeta(got.value.meta, desired.meta);
    var patched := Object(meta, ConfigMapBody(desired.body.data));
    err := PatchIfNecessary(api, got.value, patched);
    err := IgnoreNotFound(err);
  }

  /**
   * Without faults, a step succeeds and leaves the ConfigMap stored with the
   * desired data, at a fixed point of the patch.
   */
  lemma ConfigMapStepSettles(st: State, desired: Object)
    requires WellKeyed(st.objects) && desired.body.ConfigMapBody?
    ensures var o := ConfigMapStep(st, NoFaults, desired);
      && o.err.None?
      && desired.Key() in o.state.objects
      && o.state.objects[desired.Key()].body == desired.body
      && PatchedConfigMap(o.state.objects[desired.Key()], desired) == o.state.objects[desired.Key()]
  {
    var k := desired.Key();
    if k in st.objects {
      UpsertFaultFree(st, desired, PatchedConfigMap(st.objects[k], desired));
      MergedIdempotent(desired.meta.labels, st.objects[k].meta.labels);
      MergedIdempotent(desired.meta.annotations, st.objects[k].meta.annotations);
    } else {
      UpsertFaultFree(st, desired, desired);
      MergedAbsorbed(desired.meta.labels, desired.meta.labels);
      MergedAbsorbed(desired.meta.annotations, desired.meta.annotations);
    }
  }

  /** Without faults, a ConfigMap stored at a fixed point of the patch is not written again. */
  lemma ConfigMapSettledNoWrite(st: State, desired: Object)
    requires WellKeyed(st.objects) && desired.body.ConfigMapBody?
    requires desired.Key() in st.objects
    requires PatchedConfigMap(st.objects[desired.Key()], desired) == st.objects[desired.Key()]
    ensures ConfigMapStep(st, NoFaults, desired) == Outcome(st, None)
  {
    UpsertNoWriteWhenUnchanged(st, desired, st.objects[desired.Key()]);
  }
}
