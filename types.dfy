/**
 * The ExternalService custom resource: the specification the operator
 * compiles into a gateway. optional fields, nil in Go when unset, are Options; the
 * documented defaults are named constants, applied where the controllers
 * apply them.
 */
module ExternalServiceTypes {
  import opened Wrappers

  /** A Kubernetes protocol name as written in the resource ("TCP", "UDP", "SCTP", ...). */
  type Protocol = string

  const ProtocolTCP: Protocol := "TCP"
  const ProtocolUDP: Protocol := "UDP"

  /** Compute requests and limits; quantities stay in their textual form. */
  datatype ResourceRequirements = ResourceRequirements(
    requests: map<string, string>,
    limits: map<string, string>)

  /** One port of the external service; an absent protocol means TCP. */
  datatype ExternalServicePort = ExternalServicePort(protocol: Option<Protocol>, port: int)

  datatype ExternalServiceSpec = ExternalServiceSpec(
    dnsName: string,
    ports: seq<ExternalServicePort>,
    minReplicas: Option<int>,
    maxReplicas: Option<int>,
    targetCPUUtilizationPercentage: Option<int>,
    resources: Option<ResourceRequirements>,
    hijackDns: bool,
    ipOverride: seq<string>,
    envoyClusterMaxConnections: Option<nat>,
    envoyLogLevel: string,
    envoyDnsRefreshRateS: int,
    envoyRespectDnsTTL: bool,
    serviceTopologyMode: string,
    jsonAdminAccessLogs: bool,
    jsonClusterAccessLogs: bool)

  /** The cluster-scoped resource: its name and its specification. */
  datatype ExternalService = ExternalService(name: string, spec: ExternalServiceSpec)

  const DefaultMinReplicas := 3
  const DefaultMaxReplicas := 12
  const DefaultTargetCPUUtilizationPercentage := 50

  /** Requests 100m CPU and 50Mi memory, limits 2 CPUs and 1Gi memory. */
  const DefaultResources := ResourceRequirements(
    map["cpu" := "100m", "memory" := "50Mi"],
    map["cpu" := "2", "memory" := "1Gi"])

  /** The protocol a port entry means: its own, or TCP when omitted. */
  function EffectiveProtocol(p: ExternalServicePort): (r: Protocol)
    ensures p.protocol.None? ==> r == ProtocolTCP
    ensures p.protocol.Some? ==> r == p.protocol.value
  {
    p.protocol.GetOr(ProtocolTCP)
  }

  /** A specification with every optional field omitted and both flags false. */
  function MinimalSpec(dnsName: string, ports: seq<ExternalServicePort>): (r: ExternalServiceSpec) {
    ExternalServiceSpec(dnsName, ports, None, None, None, None, false, [], None, "", 0, false, "", false, false)
  }
}
