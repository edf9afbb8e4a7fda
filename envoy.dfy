/**
 * The part of Envoy's v3 bootstrap configuration the gateway uses, as a
 * datatype tree: a node, an admin endpoint, static clusters and listeners.
 */
module Envoy {
  import opened Wrappers

  datatype SocketProtocol = TCP | UDP

  /** The enum name Envoy gives a socket protocol. */
  function ProtocolName(p: SocketProtocol): (r: string) {
    match p
    case TCP => "TCP"
    case UDP => "UDP"
  }

  datatype SocketAddress = SocketAddress(address: string, protocol: SocketProtocol, portValue: nat)

  /** An endpoint; the health-check port is set only for statically listed hosts. */
  datatype LbEndpoint = LbEndpoint(endpointAddress: SocketAddress, healthCheckPort: Option<nat>)

  datatype LocalityLbEndpoints = LocalityLbEndpoints(lbEndpoints: seq<LbEndpoint>)

  datatype ClusterLoadAssignment = ClusterLoadAssignment(
    assignmentName: string,
    endpoints: seq<LocalityLbEndpoints>)

  datatype TcpKeepalive = TcpKeepalive(keepaliveProbes: nat, keepaliveTime: nat, keepaliveInterval: nat)

  /** A TCP health check; durations in seconds. */
  datatype HealthCheck = TcpHealthCheck(
    timeoutS: nat,
    intervalS: nat,
    reuseConnection: bool,
    unhealthyThreshold: nat,
    healthyThreshold: nat,
    eventLogPath: string)

  /**
   * How a cluster finds its hosts: by DNS, from a static list, or (the custom
   * cluster type envoy.clusters.aggregate) by trying other clusters in order.
   */
  datatype DiscoveryType = LogicalDns | Static | Aggregate(priority: seq<string>)

  datatype LbPolicy = RoundRobin | ClusterProvided

  datatype DnsLookupFamily = Auto | V4Only

  datatype Thresholds = Thresholds(maxConnections: nat)

  datatype CircuitBreakers = CircuitBreakers(thresholds: seq<Thresholds>)

  datatype Cluster = Cluster(
    name: string,
    discovery: DiscoveryType,
    connectTimeoutS: nat,
    lbPolicy: LbPolicy,
    dnsLookupFamily: DnsLookupFamily,
    tcpKeepalive: Option<TcpKeepalive>,
    dnsRefreshRateS: Option<int>,
    respectDnsTtl: bool,
    loadAssignment: Option<ClusterLoadAssignment>,
    healthChecks: seq<HealthCheck>,
    closeConnectionsOnHostHealthFailure: bool,
    circuitBreakers: Option<CircuitBreakers>)

  /**
   * The three substitution formats the gateway's access logs use: the text
   * line of the proxied traffic, the text line of the admin interface, and
   * the JSON object of fields. What each one spells out is fixed by the
   * bootstrap compiler (ConfigMap.InlineFormat and ConfigMap.JsonLogFields).
   */
  datatype LogFormat = ClusterText | AdminText | JsonFields

  /** A stdout access log with its substitution format. */
  datatype AccessLog = AccessLog(
    logName: string,
    format: LogFormat,
    omitEmptyValues: bool,
    contentType: string)

  /** The typed config of a listener filter. */
  datatype ProxyConfig =
    | TcpProxy(accessLog: seq<AccessLog>, statPrefix: string, cluster: string)
    | UdpProxy(accessLog: seq<AccessLog>, statPrefix: string, cluster: string)

  datatype Filter = Filter(filterName: string, typedConfig: ProxyConfig)

  datatype FilterChain = FilterChain(filters: seq<Filter>)

  datatype Listener = Listener(
    listenerName: string,
    listenerAddress: SocketAddress,
    filterChains: seq<FilterChain>)

  datatype Admin = Admin(adminAddress: SocketAddress, adminAccessLog: seq<AccessLog>)

  datatype Bootstrap = Bootstrap(
    nodeCluster: string,
    admin: Admin,
    clusters: seq<Cluster>,
    listeners: seq<Listener>)
}
