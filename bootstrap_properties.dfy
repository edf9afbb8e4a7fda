/**
 * What the compiled Envoy bootstrap guarantees: how many clusters each port
 * contributes and where they sit, that every listener and aggregate points at
 * a cluster the bootstrap defines, that distinct ports give distinct cluster
 * names, and the two protocol quirks of the compiler.
 */
module BootstrapProperties {
  import opened Wrappers
  import opened StrConv
  import opened ExternalServiceTypes
  import opened Envoy
  import opened ConfigMap

  /** How many clusters one port contributes. */
  function ClustersPerPort(es: ExternalService): (r: nat) {
    if |es.spec.ipOverride| > 0 then 3 else 1
  }

  function Names(cs: seq<Cluster>): (r: seq<string>)
    ensures |r| == |cs| && forall i | 0 <= i < |cs| :: r[i] == cs[i].name
  {
    seq(|cs|, i requires 0 <= i < |cs| => cs[i].name)
  }

  /** A port's clusters: how many, their names and the aggregate's priority list. */
  lemma PortClustersShape(es: ExternalService, port: ExternalServicePort)
    ensures var cs := PortClusters(es, port);
      var name := ClusterName(es, port);
      && |cs| == ClustersPerPort(es)
      && (|es.spec.ipOverride| == 0 ==> Names(cs) == [name] && cs[0].discovery == LogicalDns)
      && (|es.spec.ipOverride| > 0 ==>
            && Names(cs) == [AggregateName(name), OverrideName(name), name]
            && cs[0].discovery == Aggregate([OverrideName(name), name])
            && cs[1].discovery == Static && cs[2].discovery == LogicalDns)
      && (forall c | c in cs :: c.circuitBreakers ==
            match es.spec.envoyClusterMaxConnections
            case Some(m) => Some(CircuitBreakers([Thresholds(m)]))
            case None => None)
  {
  }

  /**
   * The DNS cluster, last of a port's clusters: named after the port,
   * LOGICAL_DNS with a 1 s connect timeout, round robin over IPv4 answers,
   * the fixed keepalive, a refresh rate exactly when the spec gives a
   * non-zero one (and then that one), the spec's respect-TTL flag, and one
   * endpoint, the DNS name on the port's number and protocol. The override
   * cluster shares the refresh rate and the TTL flag.
   */
  lemma DnsClusterFields(es: ExternalService, port: ExternalServicePort)
    ensures var cs := PortClusters(es, port);
      var c := cs[|cs| - 1];
      var name := ClusterName(es, port);
      && c.name == name && c.discovery == LogicalDns && c.connectTimeoutS == 1
      && c.lbPolicy == RoundRobin && c.dnsLookupFamily == V4Only
      && c.tcpKeepalive == Some(TcpKeepalive(3, 30, 5))
      && (c.dnsRefreshRateS.Some? <==> es.spec.envoyDnsRefreshRateS != 0)
      && (c.dnsRefreshRateS.Some? ==> c.dnsRefreshRateS.value == es.spec.envoyDnsRefreshRateS)
      && c.respectDnsTtl == es.spec.envoyRespectDnsTTL
      && c.loadAssignment == Some(ClusterLoadAssignment(name, [LocalityLbEndpoints([
           LbEndpoint(SocketAddress(es.spec.dnsName, ProtocolToEnvoy(port.protocol), Uint32(port.port)), None)])]))
      && (|es.spec.ipOverride| > 0 ==>
            && cs[1].connectTimeoutS == 1
            && cs[1].dnsRefreshRateS == c.dnsRefreshRateS && cs[1].respectDnsTtl == c.respectDnsTtl)
  {
  }

  /**
   * Two ports' clusters (and listeners) share a name exactly when the ports
   * have the same number and the same Envoy protocol.
   */
  lemma ClusterNameInjective(es: ExternalService, p: ExternalServicePort, q: ExternalServicePort)
    requires -0x8000_0000 <= p.port < 0x8000_0000 && -0x8000_0000 <= q.port < 0x8000_0000
    ensures ClusterName(es, p) == ClusterName(es, q) <==>
      ProtocolToEnvoy(p.protocol) == ProtocolToEnvoy(q.protocol) && p.port == q.port
  {
    var pp, qp := ProtocolName(ProtocolToEnvoy(p.protocol)), ProtocolName(ProtocolToEnvoy(q.protocol));
    if ClusterName(es, p) == ClusterName(es, q) {
      var k := |es.name + "_"|;
      var a, b := ClusterName(es, p), ClusterName(es, q);
      assert a == (es.name + "_") + (pp + "_" + Itoa(p.port));
      assert b == (es.name + "_") + (qp + "_" + Itoa(q.port));
      assert a[k..] == pp + "_" + Itoa(p.port);
      assert b[k..] == qp + "_" + Itoa(q.port);
      assert |pp| == 3 && |qp| == 3;
      assert pp == a[k..][..3] && qp == b[k..][..3];
      assert Itoa(p.port) == a[k..][4..] && Itoa(q.port) == b[k..][4..];
      ItoaInjective(p.port, q.port);
    }
  }

  lemma PortClustersCount(es: ExternalService, port: ExternalServicePort)
    ensures |PortClusters(es, port)| == ClustersPerPort(es)
  {
  }

  /** The override cluster lists each override address, in order, on the port's number. */
  lemma OverrideClusterEndpoints(es: ExternalService, port: ExternalServicePort, i: nat)
    requires |es.spec.ipOverride| > 0 && i < |es.spec.ipOverride|
    ensures var c := PortClusters(es, port)[1];
      && c.loadAssignment.Some?
      && |c.loadAssignment.value.endpoints| == |es.spec.ipOverride|
      && c.loadAssignment.value.endpoints[i].lbEndpoints
           == [LbEndpoint(SocketAddress(es.spec.ipOverride[i], ProtocolToEnvoy(port.protocol), Uint32(port.port)),
                          Some(Uint32(port.port)))]
  {
  }

  /** When every port gives k pieces, there are k per port. */
  lemma {:induction false} ConcatCount<T>(f: ExternalServicePort -> seq<T>, ports: seq<ExternalServicePort>, k: nat)
    requires forall p | p in ports :: |f(p)| == k
    ensures |ConcatPerPort(f, ports)| == |ports| * k
  {
    if |ports| > 0 {
      var n := |ports| - 1;
      assert forall p | p in ports[..n] :: p in ports;
      ConcatCount(f, ports[..n], k);
      assert ports[n] in ports;
      assert (n + 1) * k == n * k + k;
    }
  }

  /** Every piece comes from some port. */
  lemma {:induction false} ConcatFrom<T>(f: ExternalServicePort -> seq<T>, ports: seq<ExternalServicePort>, x: T)
    requires x in ConcatPerPort(f, ports)
    ensures exists i | 0 <= i < |ports| :: x in f(ports[i])
  {
    var n := |ports| - 1;
    if x !in f(ports[n]) {
      ConcatFrom(f, ports[..n], x);
      var i :| 0 <= i < n && x in f(ports[..n][i]);
      assert ports[..n][i] == ports[i];
    }
  }

  /** Every piece of every port is there. */
  lemma {:induction false} ConcatHas<T>(f: ExternalServicePort -> seq<T>, ports: seq<ExternalServicePort>, i: nat, x: T)
    requires i < |ports| && x in f(ports[i])
    ensures x in ConcatPerPort(f, ports)
  {
    var n := |ports| - 1;
    if i < n {
      ConcatHas(f, ports[..n], i, x);
      assert ports[..n][i] == ports[i];
    }
  }

  /** The bootstrap has ClustersPerPort clusters per declared port. */
  lemma AllClustersCount(es: ExternalService, ports: seq<ExternalServicePort>)
    ensures |AllClusters(es, ports)| == |ports| * ClustersPerPort(es)
  {
    forall p | p in ports ensures |PortClusters(es, p)| == ClustersPerPort(es) {
      PortClustersCount(es, p);
    }
    ConcatCount(p => PortClusters(es, p), ports, ClustersPerPort(es));
  }

  /** Every cluster of the bootstrap belongs to some port. */
  lemma AllClustersFromPorts(es: ExternalService, ports: seq<ExternalServicePort>, c: Cluster)
    requires c in AllClusters(es, ports)
    ensures exists i | 0 <= i < |ports| :: c in PortClusters(es, ports[i])
  {
    ConcatFrom(p => PortClusters(es, p), ports, c);
  }

  /** Every cluster of every port is in the bootstrap. */
  lemma PortClustersInAll(es: ExternalService, ports: seq<ExternalServicePort>, i: nat)
    requires i < |ports|
    ensures forall c | c in PortClusters(es, ports[i]) :: c in AllClusters(es, ports)
  {
    forall c | c in PortClusters(es, ports[i]) ensures c in AllClusters(es, ports) {
      ConcatHas(p => PortClusters(es, p), ports, i, c);
    }
  }

  /** The cluster a listener forwards to. */
  function ListenerTarget(l: Listener): (r: string)
    requires |l.filterChains| == 1 && |l.filterChains[0].filters| == 1
  {
    l.filterChains[0].filters[0].typedConfig.cluster
  }

  /** The listener of port i forwards to a cluster of the bootstrap. */
  lemma ListenerTargetDefined(es: ExternalService, ports: seq<ExternalServicePort>, i: nat, accessLog: seq<AccessLog>)
    requires i < |ports|
    ensures var l := PortListener(es, ports[i], accessLog);
      |l.filterChains| == 1 && |l.filterChains[0].filters| == 1
      && exists c | c in AllClusters(es, ports) :: c.name == ListenerTarget(l)
  {
    PortClustersShape(es, ports[i]);
    PortClustersInAll(es, ports, i);
    var cs := PortClusters(es, ports[i]);
    var l := PortListener(es, ports[i], accessLog);
    if |es.spec.ipOverride| > 0 && l.filterChains[0].filters[0].typedConfig.UdpProxy? {
      assert cs[2] in cs && cs[2].name == ListenerTarget(l);
    } else {
      assert cs[0] in cs && cs[0].name == ListenerTarget(l);
    }
  }

  /** Every name an aggregate cluster of the bootstrap lists is a cluster of the bootstrap. */
  lemma AggregateTargetsDefined(es: ExternalService, ports: seq<ExternalServicePort>, a: Cluster, n: string)
    requires a in AllClusters(es, ports) && a.discovery.Aggregate? && n in a.discovery.priority
    ensures exists c | c in AllClusters(es, ports) :: c.name == n
  {
    AllClustersFromPorts(es, ports, a);
    var i :| 0 <= i < |ports| && a in PortClusters(es, ports[i]);
    var c := PortAggregateTarget(es, ports[i], a, n);
    PortClustersInAll(es, ports, i);
  }

  /** Within one port, the aggregate lists clusters of that port. */
  lemma PortAggregateTarget(es: ExternalService, port: ExternalServicePort, a: Cluster, n: string) returns (c: Cluster)
    requires a in PortClusters(es, port) && a.discovery.Aggregate? && n in a.discovery.priority
    ensures c in PortClusters(es, port) && c.name == n
  {
    PortClustersShape(es, port);
    var cs := PortClusters(es, port);
    var name := ClusterName(es, port);
    var j :| 0 <= j < |cs| && cs[j] == a;
    assert j == 0 && |es.spec.ipOverride| > 0;
    assert a.discovery.priority == [OverrideName(name), name];
    c := if n == OverrideName(name) then cs[1] else cs[2];
    assert Names(cs)[1] == OverrideName(name) && Names(cs)[2] == name;
  }

  /**
   * Every listener forwards to a cluster the bootstrap defines, and every
   * name an aggregate cluster lists is defined too.
   */
  lemma TargetsAreDefined(es: ExternalService, adminPort: int)
    ensures var b := BootstrapOf(es, adminPort);
      && (forall l | l in b.listeners ::
            |l.filterChains| == 1 && |l.filterChains[0].filters| == 1
            && exists c | c in b.clusters :: c.name == ListenerTarget(l))
      && (forall a, n | a in b.clusters && a.discovery.Aggregate? && n in a.discovery.priority ::
            exists c | c in b.clusters :: c.name == n)
  {
    var b := BootstrapOf(es, adminPort);
    var ports := es.spec.ports;
    forall l | l in b.listeners
      ensures |l.filterChains| == 1 && |l.filterChains[0].filters| == 1
      ensures exists c | c in b.clusters :: c.name == ListenerTarget(l)
    {
      var i :| 0 <= i < |ports| && l == PortListener(es, ports[i], ClusterAccessLog(es));
      ListenerTargetDefined(es, ports, i, ClusterAccessLog(es));
    }
    forall a, n | a in b.clusters && a.discovery.Aggregate? && n in a.discovery.priority
      ensures exists c | c in b.clusters :: c.name == n
    {
      AggregateTargetsDefined(es, ports, a, n);
    }
  }

  /**
   * A UDP port's listener forwards to the DNS cluster even when IP overrides
   * are set: the override and aggregate clusters are emitted but unused.
   */
  lemma UdpListenerIgnoresOverride(es: ExternalService, port: ExternalServicePort, accessLog: seq<AccessLog>)
    requires port.protocol == Some(ProtocolUDP) && |es.spec.ipOverride| > 0
    ensures var l := PortListener(es, port, accessLog);
      && l.filterChains[0].filters[0].typedConfig.UdpProxy?
      && ListenerTarget(l) == ClusterName(es, port)
      && ListenerTarget(l) != TcpTarget(es, port)
  {
    var name := ClusterName(es, port);
    assert AggregateName(name)[|name|..] == "-aggregate";
  }

  /** A TCP port's listener forwards to the aggregate exactly when IP overrides are set. */
  lemma TcpListenerTarget(es: ExternalService, port: ExternalServicePort, accessLog: seq<AccessLog>)
    requires ProtocolToEnvoy(port.protocol) == TCP
    ensures var l := PortListener(es, port, accessLog);
      && l.filterChains[0].filters[0].typedConfig.TcpProxy?
      && ListenerTarget(l) == (if |es.spec.ipOverride| > 0 then AggregateName(ClusterName(es, port)) else ClusterName(es, port))
  {
  }

  /**
   * Only unset and TCP ports keep their number from the admin listener: an
   * SCTP port on 11000 does not, so the admin listener takes 11000 as well.
   */
  lemma SctpPortCollidesWithAdmin()
    ensures var es := ExternalService("foo", MinimalSpec("example.com", [ExternalServicePort(Some("SCTP"), 11000)]));
      AdminPortOf(es) == Some(11000) && es.spec.ports[0].port == 11000
  {
    var es := ExternalService("foo", MinimalSpec("example.com", [ExternalServicePort(Some("SCTP"), 11000)]));
    assert ClaimedPorts(es.spec.ports) == {};
  }

  /** The compiler's own example: "foo" for google.com on port 100/UDP and port 101/TCP. */
  function UdpAndTcpService(): (r: ExternalService) {
    ExternalService("foo", MinimalSpec("google.com",
      [ExternalServicePort(Some(ProtocolUDP), 100), ExternalServicePort(Some(ProtocolTCP), 101)]))
  }

  /** Only the TCP port is claimed, so the admin listener takes 11000. */
  lemma UdpAndTcpAdminPort()
    ensures AdminPortOf(UdpAndTcpService()) == Some(11000)
  {
    var es := UdpAndTcpService();
    assert ClaimedPorts(es.spec.ports) == {101} by {
      assert ClaimsAdminPort(es.spec.ports[1]);
    }
  }

  /** The example's clusters are foo_UDP_100 and foo_TCP_101, resolving google.com. */
  lemma UdpAndTcpClusters()
    ensures var es := UdpAndTcpService();
      var cs := AllClusters(es, es.spec.ports);
      Names(cs) == ["foo_UDP_100", "foo_TCP_101"]
    ensures var es := UdpAndTcpService();
      var cs := AllClusters(es, es.spec.ports);
      && |cs| == 2
      && cs[0].loadAssignment == Some(ClusterLoadAssignment("foo_UDP_100",
           [LocalityLbEndpoints([LbEndpoint(SocketAddress("google.com", UDP, 100), None)])]))
      && cs[1].loadAssignment == Some(ClusterLoadAssignment("foo_TCP_101",
           [LocalityLbEndpoints([LbEndpoint(SocketAddress("google.com", TCP, 101), None)])]))
  {
    var es := UdpAndTcpService();
    var ports := es.spec.ports;
    assert Itoa(100) == "100" && Itoa(101) == "101";
    var f := p => PortClusters(es, p);
    ConcatStep(f, ports, 0);
    ConcatStep(f, ports, 1);
    assert ports[..0] == [] && ports[..2] == ports;
    assert AllClusters(es, ports) == [DnsCluster(es, ports[0]), DnsCluster(es, ports[1])];
    assert ClusterName(es, ports[0]) == "foo_UDP_100";
    assert ClusterName(es, ports[1]) == "foo_TCP_101";
  }

  /** The example's listeners: UDP 100 to foo_UDP_100, then TCP 101 to foo_TCP_101. */
  lemma UdpAndTcpListeners(log: seq<AccessLog>)
    ensures AllListeners(UdpAndTcpService(), UdpAndTcpService().spec.ports, log) == [
      Listener("foo_UDP_100", SocketAddress("0.0.0.0", UDP, 100),
        [FilterChain([Filter(UdpProxyFilterName, UdpProxy(log, "udp_proxy", "foo_UDP_100"))])]),
      Listener("foo_TCP_101", SocketAddress("0.0.0.0", TCP, 101),
        [FilterChain([Filter(TcpProxyFilterName, TcpProxy(log, "tcp_proxy", "foo_TCP_101"))])])]
  {
    var es := UdpAndTcpService();
    var ports := es.spec.ports;
    assert Itoa(100) == "100" && Itoa(101) == "101";
    assert ClusterName(es, ports[0]) == "foo_UDP_100";
    assert ClusterName(es, ports[1]) == "foo_TCP_101";
  }
}
