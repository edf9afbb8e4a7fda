/**
 * The gateway's NetworkPolicy (controllers/networkpolicy.go): ingress to the
 * gateway pods only from pods labelled as allowed to use this gateway, in
 * any namespace, and only on the declared ports (on every port when none is
 * declared).
 */
module GatewayNetworkPolicy {
  import opened Wrappers
  import opened ExternalServiceTypes
  import opened Kube
  import opened Common

  const IngressPolicyType := "Ingress"

  /** The label a client pod needs to reach the gateway of `es`. */
  function AllowedLabel(es: ExternalService): (r: string) {
    "egress.monzo.com/allowed-" + es.name
  }

  function PolicyPortOf(p: ExternalServicePort): (r: NetworkPolicyPort) {
    NetworkPolicyPort(EffectiveProtocol(p), IntValue(p.port))
  }

  function NetworkPolicyPortsOf(es: ExternalService): (r: seq<NetworkPolicyPort>)
    ensures |r| == |es.spec.ports|
    ensures forall i | 0 <= i < |r| :: r[i] == PolicyPortOf(es.spec.ports[i])
  {
    seq(|es.spec.ports|, i requires 0 <= i < |es.spec.ports| => PolicyPortOf(es.spec.ports[i]))
  }

  /** networkPolicyPorts: append one policy port per declared port, TCP when the protocol is omitted. */
  method NetworkPolicyPorts(es: ExternalService) returns (ports: seq<NetworkPolicyPort>)
    ensures ports == NetworkPolicyPortsOf(es)
  {
    ports := [];
    for i := 0 to |es.spec.ports|
      invariant |ports| == i
      invariant forall j | 0 <= j < i :: ports[j] == PolicyPortOf(es.spec.ports[j])
    {
      var port := es.spec.ports[i];
      var proto := if port.protocol.None? then ProtocolTCP else port.protocol.value;
      ports := ports + [NetworkPolicyPort(proto, IntValue(port.port))];
    }
  }

  /** networkPolicy: the desired NetworkPolicy. */
  function NetworkPolicyOf(es: ExternalService, env: map<string, string>): (o: Object)
    ensures o.Key() == ObjectKey(NetworkPolicyKind, Namespace, es.name) && o.body.NetworkPolicyBody?
  {
    Object(
      ObjectMeta(es.name, Namespace, Labels(es), Annotations(es, env)),
      NetworkPolicyBody(NetworkPolicySpec(
        LabelsToSelect(es),
        [IngressRule([NetworkPolicyPeer(map[AllowedLabel(es) := "true"], map[])], NetworkPolicyPortsOf(es))],
        [IngressPolicyType])))
  }

  /** networkPolicy, building the ports with their loop. */
  method BuildNetworkPolicy(es: ExternalService, env: map<string, string>) returns (o: Object)
    ensures o == NetworkPolicyOf(es, env)
  {
    var ports := NetworkPolicyPorts(es);
    o := Object(
      ObjectMeta(es.name, Namespace, Labels(es), Annotations(es, env)),
      NetworkPolicyBody(NetworkPolicySpec(
        LabelsToSelect(es),
        [IngressRule([NetworkPolicyPeer(map[AllowedLabel(es) := "true"], map[])], ports)],
        [IngressPolicyType])));
  }

  /** Whether a peer's pod selector matches a pod with these labels. */
  predicate SelectsPod(peer: NetworkPolicyPeer, podLabels: map<string, string>) {
    forall k | k in peer.podSelector :: k in podLabels && podLabels[k] == peer.podSelector[k]
  }

  /**
   * Whether an ingress rule covers this protocol and port: a rule that lists
   * no ports covers every port, as Kubernetes reads it.
   */
  predicate CoversPort(r: IngressRule, protocol: string, port: int) {
    |r.ingressPorts| == 0 || NetworkPolicyPort(protocol, IntValue(port)) in r.ingressPorts
  }

  /** Whether the policy admits a pod with these labels to this protocol and port. */
  predicate Admits(policy: NetworkPolicySpec, podLabels: map<string, string>, protocol: string, port: int) {
    exists r, peer | r in policy.ingress && peer in r.from :: SelectsPod(peer, podLabels) && CoversPort(r, protocol, port)
  }

  /** Whether the service declares this port with this effective protocol. */
  predicate DeclaresPort(es: ExternalService, protocol: string, port: int) {
    exists i | 0 <= i < |es.spec.ports| :: es.spec.ports[i].port == port && EffectiveProtocol(es.spec.ports[i]) == protocol
  }

  /** Whether a pod carries the label that allows it to use the gateway of `es`. */
  predicate Allowed(es: ExternalService, podLabels: map<string, string>) {
    AllowedLabel(es) in podLabels && podLabels[AllowedLabel(es)] == "true"
  }

  /**
   * A pod carrying the allowed label is admitted to every declared port, and
   * to every port at all when the service declares none.
   */
  lemma AdmittedWhenAllowed(es: ExternalService, env: map<string, string>,
                            podLabels: map<string, string>, protocol: string, port: int)
    requires Allowed(es, podLabels)
    requires |es.spec.ports| == 0 || DeclaresPort(es, protocol, port)
    ensures Admits(NetworkPolicyOf(es, env).body.networkPolicy, podLabels, protocol, port)
  {
    var np := NetworkPolicyOf(es, env).body.networkPolicy;
    var rule := np.ingress[0];
    var peer := rule.from[0];
    assert peer.podSelector == map[AllowedLabel(es) := "true"];
    assert SelectsPod(peer, podLabels);
    if |es.spec.ports| > 0 {
      var i :| 0 <= i < |es.spec.ports| && es.spec.ports[i].port == port && EffectiveProtocol(es.spec.ports[i]) == protocol;
      assert rule.ingressPorts[i] == NetworkPolicyPort(protocol, IntValue(port));
    }
    assert rule in np.ingress && peer in rule.from && CoversPort(rule, protocol, port);
  }

  /**
   * An admitted pod carries the allowed label, and asks for a declared port
   * unless the service declares none.
   */
  lemma AllowedWhenAdmitted(es: ExternalService, env: map<string, string>,
                            podLabels: map<string, string>, protocol: string, port: int)
    requires Admits(NetworkPolicyOf(es, env).body.networkPolicy, podLabels, protocol, port)
    ensures Allowed(es, podLabels)
    ensures |es.spec.ports| == 0 || DeclaresPort(es, protocol, port)
  {
    var np := NetworkPolicyOf(es, env).body.networkPolicy;
    var r, pe :| r in np.ingress && pe in r.from && SelectsPod(pe, podLabels) && CoversPort(r, protocol, port);
    assert AllowedLabel(es) in pe.podSelector;
    if |es.spec.ports| > 0 {
      var i :| 0 <= i < |r.ingressPorts| && r.ingressPorts[i] == NetworkPolicyPort(protocol, IntValue(port));
      assert es.spec.ports[i].port == port && EffectiveProtocol(es.spec.ports[i]) == protocol;
    }
  }

  /**
   * The policy applies to the gateway pods, restricts ingress only, and
   * admits a client pod to a port exactly when the pod carries the allowed
   * label set to "true" and the port is one of the service's, with its
   * effective protocol, or the service declares no port at all (the rule then
   * lists no ports and so covers every one, the admin port included). Every
   * namespace may hold such a client.
   */
  lemma NetworkPolicyAdmitsExactly(es: ExternalService, env: map<string, string>,
                                   podLabels: map<string, string>, protocol: string, port: int)
    ensures var np := NetworkPolicyOf(es, env).body.networkPolicy;
      && np.policyPodSelector == LabelsToSelect(es)
      && np.policyTypes == [IngressPolicyType]
      && (forall r, peer | r in np.ingress && peer in r.from :: peer.namespaceSelector == map[])
      && (Admits(np, podLabels, protocol, port) <==>
            Allowed(es, podLabels) && (|es.spec.ports| == 0 || DeclaresPort(es, protocol, port)))
  {
    if Admits(NetworkPolicyOf(es, env).body.networkPolicy, podLabels, protocol, port) {
      AllowedWhenAdmitted(es, env, podLabels, protocol, port);
    }
    if Allowed(es, podLabels) && (|es.spec.ports| == 0 || DeclaresPort(es, protocol, port)) {
      AdmittedWhenAllowed(es, env, podLabels, protocol, port);
    }
  }

  /**
   * A service without ports opens every port of its gateway, the admin
   * listener's included, to every allowed pod.
   */
  lemma NoPortsOpensEveryPort(es: ExternalService, env: map<string, string>,
                              podLabels: map<string, string>, protocol: string, port: int)
    requires |es.spec.ports| == 0 && Allowed(es, podLabels)
    ensures Admits(NetworkPolicyOf(es, env).body.networkPolicy, podLabels, protocol, port)
  {
    AdmittedWhenAllowed(es, env, podLabels, protocol, port);
  }

  function PatchedNetworkPolicy(stored: Object, desired: Object): (r: Object)
    requires desired.body.NetworkPolicyBody?
  {
    Object(MergedMeta(stored.meta, desired.meta), desired.body)
  }

  /** reconcileNetworkPolicy as a state transition. */
  function NetworkPolicyStep(st: State, faults: Faults, desired: Object): (r: Outcome)
    requires WellKeyed(st.objects) && desired.body.NetworkPolicyBody?
  {
    var k := desired.Key();
    Upsert(st, faults, desired, if k in st.objects then PatchedNetworkPolicy(st.objects[k], desired) else desired)
  }

  /** reconcileNetworkPolicy: create the NetworkPolicy, or patch its metadata and spec. */
  method ReconcileNetworkPolicy(api: ApiServer, desired: Object) returns (err: Option<Error>)
    requires api.Valid() && desired.body.NetworkPolicyBody?
    modifies api
    ensures api.Valid()
    ensures Outcome(api.Snapshot(), err) == NetworkPolicyStep(old(api.Snapshot()), api.faults, desired)
  {
    var got := api.Get(desired.Key());
    if got.Failure? {
      if got.error == NotFound {
        err := api.Create(desired);
        return;
      }
      return Some(got.error);
    }
    var meta := MergeMeta(got.value.meta, desired.meta);
    var patched := Object(meta, desired.body);
    err := PatchIfNecessary(api, got.value, patched);
    err := IgnoreNotFound(err);
  }

  /**
   * Without faults, a step succeeds and leaves the NetworkPolicy stored with the
   * desired spec, at a fixed point of the patch.
   */
  lemma NetworkPolicyStepSettles(st: State, desired: Object)
    requires WellKeyed(st.objects) && desired.body.NetworkPolicyBody?
    ensures var o := NetworkPolicyStep(st, NoFaults, desired);
      && o.err.None?
      && desired.Key() in o.state.objects
      && o.state.objects[desired.Key()].body == desired.body
      && PatchedNetworkPolicy(o.state.objects[desired.Key()], desired) == o.state.objects[desired.Key()]
  {
    var k := desired.Key();
    if k in st.objects {
      UpsertFaultFree(st, desired, PatchedNetworkPolicy(st.objects[k], desired));
      MergedIdempotent(desired.meta.labels, st.objects[k].meta.labels);
      MergedIdempotent(desired.meta.annotations, st.objects[k].meta.annotations);
    } else {
      UpsertFaultFree(st, desired, desired);
      MergedAbsorbed(desired.meta.labels, desired.meta.labels);
      MergedAbsorbed(desired.meta.annotations, desired.meta.annotations);
    }
  }

  /** Without faults, a NetworkPolicy stored at a fixed point of the patch is not written again. */
  lemma NetworkPolicySettledNoWrite(st: State, desired: Object)
    requires WellKeyed(st.objects) && desired.body.NetworkPolicyBody?
    requires desired.Key() in st.objects
    requires PatchedNetworkPolicy(st.objects[desired.Key()], desired) == st.objects[desired.Key()]
    ensures NetworkPolicyStep(st, NoFaults, desired) == Outcome(st, None)
  {
    UpsertNoWriteWhenUnchanged(st, desired, st.objects[desired.Key()]);
  }
}
