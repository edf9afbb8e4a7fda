/**
 * The gateway's Service (controllers/service.go) and the DNS-hijack label
 * state machine on it: hijacking is off when disabled, starts only once the
 * gateway has ready pods, waits while it has none, and once on never turns
 * itself off.
 */
module GatewayService {
  import opened Wrappers
  import opened StrConv
  import opened ExternalServiceTypes
  import opened Kube
  import opened Common

  const HijackLabel := "egress.monzo.com/hijack-dns"
  const HijackOn := "true"
  const HijackOff := "false"
  const HijackWaiting := "waiting-for-pods"

  /** A label's value as Go reads it from a possibly absent map entry. */
  function LabelValue(labels: map<string, string>, key: string): (r: string) {
    if key in labels then labels[key] else ""
  }

  /**
   * The hijack label the desired Service carries, given whether hijacking
   * is enabled, whether the gateway has ready pods, and the labels of the
   * Service already stored (None when there is none). None when no case of
   * the source's switch applies: an existing Service whose label is missing
   * or not one of the three states.
   */
  function HijackValue(hijackDns: bool, ready: bool, current: Option<map<string, string>>): (r: Option<string>) {
    if !hijackDns then Some(HijackOff)
    else if ready then Some(HijackOn)
    else if current.None? then Some(HijackWaiting)
    else
      var state := LabelValue(current.value, HijackLabel);
      if state == HijackOff then Some(HijackWaiting)
      else if state == HijackOn then Some(HijackOn)
      else if state == HijackWaiting then Some(HijackWaiting)
      else None
  }

  /** Whether a label value is one of the three states. */
  predicate KnownState(v: string) {
    v == HijackOn || v == HijackOff || v == HijackWaiting
  }

  /**
   * The transitions: "false" exactly when disabled; "true" only when enabled
   * and either ready or already "true"; no label only for an existing Service
   * with an unknown state, enabled and not ready.
   */
  lemma HijackTransitions(hijackDns: bool, ready: bool, current: Option<map<string, string>>)
    ensures HijackValue(hijackDns, ready, current) == Some(HijackOff) <==> !hijackDns
    ensures HijackValue(hijackDns, ready, current) == Some(HijackOn) <==>
      hijackDns && (ready || (current.Some? && LabelValue(current.value, HijackLabel) == HijackOn))
    ensures HijackValue(hijackDns, ready, current) == Some(HijackWaiting) <==>
      hijackDns && !ready
      && (current.None? || LabelValue(current.value, HijackLabel) in {HijackOff, HijackWaiting})
    ensures HijackValue(hijackDns, ready, current).None? <==>
      hijackDns && !ready && current.Some? && !KnownState(LabelValue(current.value, HijackLabel))
  {
  }

  /** Once hijacking, the Service keeps hijacking while enabled, ready or not. */
  lemma HijackIsSticky(ready: bool, labels: map<string, string>)
    requires HijackLabel in labels && labels[HijackLabel] == HijackOn
    ensures HijackValue(true, ready, Some(labels)) == Some(HijackOn)
  {
  }

  /** The source's table of cases: (enabled, ready, stored state or none) to the new state. */
  lemma HijackTable()
    ensures HijackValue(false, false, None) == Some(HijackOff)
    ensures HijackValue(false, false, Some(map[HijackLabel := HijackOn])) == Some(HijackOff)
    ensures HijackValue(true, false, None) == Some(HijackWaiting)
    ensures HijackValue(true, true, None) == Some(HijackOn)
    ensures HijackValue(true, false, Some(map[HijackLabel := HijackOff])) == Some(HijackWaiting)
    ensures HijackValue(true, true, Some(map[HijackLabel := HijackOff])) == Some(HijackOn)
    ensures HijackValue(true, false, Some(map[HijackLabel := HijackWaiting])) == Some(HijackWaiting)
    ensures HijackValue(true, true, Some(map[HijackLabel := HijackWaiting])) == Some(HijackOn)
    ensures HijackValue(true, true, Some(map[HijackLabel := HijackOn])) == Some(HijackOn)
    ensures HijackValue(true, false, Some(map[HijackLabel := HijackOn])) == Some(HijackOn)
  {
  }

  /** One Service port per declared port: "<name>-<protocol in lower case>-<port>", targeting the same port. */
  function ServicePortOf(es: ExternalService, p: ExternalServicePort): (r: ServicePort) {
    var protocol := EffectiveProtocol(p);
    ServicePort(es.name + "-" + ToLower(protocol) + "-" + Itoa(p.port), protocol, p.port, IntValue(p.port))
  }

  function ServicePortsOf(es: ExternalService): (r: seq<ServicePort>)
    ensures |r| == |es.spec.ports|
    ensures forall i | 0 <= i < |r| :: r[i] == ServicePortOf(es, es.spec.ports[i])
  {
    seq(|es.spec.ports|, i requires 0 <= i < |es.spec.ports| => ServicePortOf(es, es.spec.ports[i]))
  }

  /** servicePorts: append one Service port per declared port. */
  method ServicePorts(es: ExternalService) returns (ports: seq<ServicePort>)
    ensures ports == ServicePortsOf(es)
  {
    ports := [];
    for i := 0 to |es.spec.ports|
      invariant |ports| == i
      invariant forall j | 0 <= j < i :: ports[j] == ServicePortOf(es, es.spec.ports[j])
    {
      var port := es.spec.ports[i];
      var p := if port.protocol.None? then ProtocolTCP else port.protocol.value;
      ports := ports + [ServicePort(es.name + "-" + ToLower(p) + "-" + Itoa(port.port), p, port.port, IntValue(port.port))];
    }
  }

  /**
   * Each Service port forwards its own port number to the same number on the
   * gateway pods, with the declared protocol (TCP when omitted).
   */
  lemma ServicePortsForwardUnchanged(es: ExternalService, i: nat)
    requires i < |es.spec.ports|
    ensures var sp := ServicePortsOf(es)[i];
      && sp.port == es.spec.ports[i].port
      && sp.targetPort == IntValue(es.spec.ports[i].port)
      && sp.portProtocol == (if es.spec.ports[i].protocol.Some? then es.spec.ports[i].protocol.value else ProtocolTCP)
      && sp.portName == es.name + "-" + ToLower(sp.portProtocol) + "-" + Itoa(sp.port)
      && (es.spec.ports[i].protocol.None? ==> sp.portName == es.name + "-tcp-" + Itoa(sp.port))
  {
    if es.spec.ports[i].protocol.None? {
      assert ToLower(ProtocolTCP) == "tcp";
    }
  }

  /** The Service's labels: the common labels plus the hijack label when the switch sets one. */
  function ServiceLabels(es: ExternalService, ready: bool, current: Option<Object>): (r: map<string, string>) {
    var hijack := HijackValue(es.spec.hijackDns, ready, if current.Some? then Some(current.value.meta.labels) else None);
    if hijack.Some? then Labels(es)[HijackLabel := hijack.value] else Labels(es)
  }

  /** service: the desired ClusterIP Service selecting the gateway's pods. */
  function ServiceOf(es: ExternalService, env: map<string, string>, ready: bool, current: Option<Object>): (o: Object)
    ensures o.Key() == ServiceKey(es) && o.body.ServiceBody?
  {
    Object(
      ObjectMeta(es.name, Namespace, ServiceLabels(es, ready, current), Annotations(es, env)),
      ServiceBody(ServiceSpec(LabelsToSelect(es), ServicePortsOf(es), "None", "ClusterIP", "")))
  }

  function StoredClusterIP(stored: Object): (r: string) {
    if stored.body.ServiceBody? then stored.body.service.clusterIP else ""
  }

  /** The stored Service with the desired metadata merged in and its spec replaced, keeping the cluster IP. */
  function PatchedService(stored: Object, desired: Object): (r: Object)
    requires desired.body.ServiceBody?
  {
    Object(MergedMeta(stored.meta, desired.meta),
           ServiceBody(desired.body.service.(clusterIP := StoredClusterIP(stored))))
  }

  function DeploymentKey(es: ExternalService): (r: ObjectKey) {
    ObjectKey(DeploymentKind, Namespace, es.name)
  }

  function ServiceKey(es: ExternalService): (r: ObjectKey) {
    ObjectKey(ServiceKind, Namespace, es.name)
  }

  /** Whether a read Deployment reports ready replicas. */
  predicate PodsReady(d: Object) {
    d.body.DeploymentBody? && d.body.readyReplicas > 0
  }

  /** reconcileService as a state transition. */
  function ServiceStep(st: State, faults: Faults, es: ExternalService, env: map<string, string>): (r: Outcome)
    requires WellKeyed(st.objects)
  {
    var d := Lookup(st, faults, DeploymentKey(es));
    if d.Failure? && d.error != NotFound then Outcome(st, Some(d.error))
    else ServiceUpsert(st, faults, es, env, d.Success? && PodsReady(d.value))
  }

  /** The create-or-patch half of reconcileService, once readiness is known. */
  function ServiceUpsert(st: State, faults: Faults, es: ExternalService, env: map<string, string>, ready: bool): (r: Outcome)
    requires WellKeyed(st.objects)
  {
    var current := Lookup(st, faults, ServiceKey(es));
    var desired := ServiceOf(es, env, ready, if current.Success? then Some(current.value) else None);
    Upsert(st, faults, desired, if current.Success? then PatchedService(current.value, desired) else desired)
  }

  /** Reconciling the Service touches no other object, and keeps every object stored under its own key. */
  lemma ServiceUpsertFrame(st: State, faults: Faults, es: ExternalService, env: map<string, string>, ready: bool)
    requires WellKeyed(st.objects)
    ensures var o := ServiceUpsert(st, faults, es, env, ready);
      && WellKeyed(o.state.objects)
      && (forall k | k != ServiceKey(es) :: (k in o.state.objects <==> k in st.objects))
      && (forall k | k in st.objects && k != ServiceKey(es) :: o.state.objects[k] == st.objects[k])
      && (o.state.writes == st.writes
          || o.state.writes == st.writes + [Created(ServiceKey(es))]
          || o.state.writes == st.writes + [Patched(ServiceKey(es))])
  {
  }

  /** The same for the whole step: only the Service may be written, at most once. */
  lemma ServiceStepFrame(st: State, faults: Faults, es: ExternalService, env: map<string, string>)
    requires WellKeyed(st.objects)
    ensures var o := ServiceStep(st, faults, es, env);
      && WellKeyed(o.state.objects)
      && (forall k | k != ServiceKey(es) :: (k in o.state.objects <==> k in st.objects))
      && (forall k | k in st.objects && k != ServiceKey(es) :: o.state.objects[k] == st.objects[k])
      && (o.state.writes == st.writes
          || o.state.writes == st.writes + [Created(ServiceKey(es))]
          || o.state.writes == st.writes + [Patched(ServiceKey(es))])
  {
    var d := Lookup(st, faults, DeploymentKey(es));
    ServiceUpsertFrame(st, faults, es, env, d.Success? && PodsReady(d.value));
  }

  /** reconcileService: read readiness from the Deployment, then create or patch the Service. */
  method ReconcileService(api: ApiServer, es: ExternalService, env: map<string, string>) returns (err: Option<Error>)
    requires api.Valid()
    modifies api
    ensures api.Valid()
    ensures Outcome(api.Snapshot(), err) == ServiceStep(old(api.Snapshot()), api.faults, es, env)
  {
    var d := api.Get(DeploymentKey(es));
    if d.Failure? && d.error != NotFound {
      return Some(d.error);
    }
    var podsReady := d.Success? && d.value.body.DeploymentBody? && d.value.body.readyReplicas > 0;
    err := UpsertService(api, es, env, podsReady);
  }

  method UpsertService(api: ApiServer, es: ExternalService, env: map<string, string>, podsReady: bool) returns (err: Option<Error>)
    requires api.Valid()
    modifies api
    ensures api.Valid()
    ensures Outcome(api.Snapshot(), err) == ServiceUpsert(old(api.Snapshot()), api.faults, es, env, podsReady)
  {
    ghost var st := api.Snapshot();
    var s := api.Get(ServiceKey(es));
    if s.Failure? {
      if s.error == NotFound {
        var desired := ServiceOf(es, env, podsReady, None);
        err := api.Create(desired);
        return;
      }
      return Some(s.error);
    }
    var desired := ServiceOf(es, env, podsReady, Some(s.value));
    var meta := MergeMeta(s.value.meta, desired.meta);
    var patched := Object(meta, ServiceBody(desired.body.service.(clusterIP := StoredClusterIP(s.value))));
    assert patched == PatchedService(s.value, desired);
    err := PatchIfNecessary(api, s.value, patched);
    err := IgnoreNotFound(err);
  }

  /**
   * After a successful patch the stored hijack label is the switch's value,
   * or, when the switch sets none, whatever was stored before (the merge
   * never deletes): an unknown state is kept as it is.
   */
  lemma PatchedHijackLabel(stored: Object, es: ExternalService, env: map<string, string>, ready: bool)
    ensures var desired := ServiceOf(es, env, ready, Some(stored));
      var labels := PatchedService(stored, desired).meta.labels;
      var hijack := HijackValue(es.spec.hijackDns, ready, Some(stored.meta.labels));
      && (hijack.Some? ==> HijackLabel in labels && labels[HijackLabel] == hijack.value)
      && (hijack.None? ==> LabelValue(labels, HijackLabel) == LabelValue(stored.meta.labels, HijackLabel))
  {
  }

  /**
   * Patching a Service does not move the switch: computed again on the
   * patched labels it gives the same value, whether that value set the
   * label or left an unknown one in place. The label is a fixed point once
   * written.
   */
  lemma HijackStable(es: ExternalService, env: map<string, string>, ready: bool, stored: Object)
    ensures var desired := ServiceOf(es, env, ready, Some(stored));
      var again := PatchedService(stored, desired);
      HijackValue(es.spec.hijackDns, ready, Some(again.meta.labels)) == HijackValue(es.spec.hijackDns, ready, Some(stored.meta.labels))
  {
    PatchedHijackLabel(stored, es, env, ready);
  }

  /** A freshly created Service already holds the label the switch computes for it. */
  lemma HijackStableCreated(es: ExternalService, env: map<string, string>, ready: bool)
    ensures var created := ServiceOf(es, env, ready, None);
      HijackValue(es.spec.hijackDns, ready, Some(created.meta.labels)) == HijackValue(es.spec.hijackDns, ready, None)
  {
  }

  /** A patched Service is a fixed point of the next patch. */
  lemma PatchedServiceSettles(stored: Object, es: ExternalService, env: map<string, string>, ready: bool)
    ensures var sv := PatchedService(stored, ServiceOf(es, env, ready, Some(stored)));
      PatchedService(sv, ServiceOf(es, env, ready, Some(sv))) == sv
  {
    var desired := ServiceOf(es, env, ready, Some(stored));
    var sv := PatchedService(stored, desired);
    HijackStable(es, env, ready, stored);
    assert ServiceOf(es, env, ready, Some(sv)) == desired;
    MergedIdempotent(desired.meta.labels, stored.meta.labels);
    MergedIdempotent(desired.meta.annotations, stored.meta.annotations);
  }

  /** A created Service is a fixed point of the next patch. */
  lemma CreatedServiceSettles(es: ExternalService, env: map<string, string>, ready: bool)
    ensures var created := ServiceOf(es, env, ready, None);
      PatchedService(created, ServiceOf(es, env, ready, Some(created))) == created
  {
    var created := ServiceOf(es, env, ready, None);
    HijackStableCreated(es, env, ready);
    assert ServiceOf(es, env, ready, Some(created)) == created;
    MergedAbsorbed(created.meta.labels, created.meta.labels);
    MergedAbsorbed(created.meta.annotations, created.meta.annotations);
  }

  /**
   * Without faults, the create-or-patch half succeeds and leaves a Service
   * that a patch computed from it would not change.
   */
  lemma {:induction false} ServiceUpsertSettles(st: State, es: ExternalService, env: map<string, string>, ready: bool)
    requires WellKeyed(st.objects)
    ensures var o := ServiceUpsert(st, NoFaults, es, env, ready);
      && o.err.None?
      && ServiceKey(es) in o.state.objects
      && var sv := o.state.objects[ServiceKey(es)];
         PatchedService(sv, ServiceOf(es, env, ready, Some(sv))) == sv
  {
    var k := ServiceKey(es);
    if k in st.objects {
      var desired := ServiceOf(es, env, ready, Some(st.objects[k]));
      UpsertFaultFree(st, desired, PatchedService(st.objects[k], desired));
      PatchedServiceSettles(st.objects[k], es, env, ready);
    } else {
      UpsertFaultFree(st, ServiceOf(es, env, ready, None), ServiceOf(es, env, ready, None));
      CreatedServiceSettles(es, env, ready);
    }
  }

  /** Without faults, a Service stored at a fixed point of the patch is not written again. */
  lemma ServiceSettledNoWrite(st: State, es: ExternalService, env: map<string, string>)
    requires WellKeyed(st.objects)
    requires ServiceKey(es) in st.objects
    requires var ready := DeploymentKey(es) in st.objects && PodsReady(st.objects[DeploymentKey(es)]);
      var sv := st.objects[ServiceKey(es)];
      PatchedService(sv, ServiceOf(es, env, ready, Some(sv))) == sv
    ensures ServiceStep(st, NoFaults, es, env) == Outcome(st, None)
  {
    var ready := DeploymentKey(es) in st.objects && PodsReady(st.objects[DeploymentKey(es)]);
    var sv := st.objects[ServiceKey(es)];
    UpsertNoWriteWhenUnchanged(st, ServiceOf(es, env, ready, Some(sv)), sv);
  }

  /**
   * Without faults, reconciling the Service succeeds, and reconciling it
   * again right after writes nothing: the Deployment it reads is untouched
   * and the stored Service is a fixed point of the patch.
   */
  lemma {:induction false} ServiceStepIdempotent(st: State, es: ExternalService, env: map<string, string>)
    requires WellKeyed(st.objects)
    ensures var o := ServiceStep(st, NoFaults, es, env);
      && o.err.None?
      && WellKeyed(o.state.objects)
      && ServiceStep(o.state, NoFaults, es, env) == Outcome(o.state, None)
  {
    var ready := DeploymentKey(es) in st.objects && PodsReady(st.objects[DeploymentKey(es)]);
    var o := ServiceStep(st, NoFaults, es, env);
    assert o == ServiceUpsert(st, NoFaults, es, env, ready);
    ServiceUpsertSettles(st, es, env, ready);
    ServiceUpsertFrame(st, NoFaults, es, env, ready);
    assert (DeploymentKey(es) in o.state.objects && PodsReady(o.state.objects[DeploymentKey(es)])) == ready;
    ServiceSettledNoWrite(o.state, es, env);
  }

  /**
   * Without faults and with no Service stored, reconcileService creates the
   * desired one, reading readiness from the stored Deployment (a missing one
   * is not ready).
   */
  lemma ServiceCreatedWhenAbsent(st: State, es: ExternalService, env: map<string, string>)
    requires WellKeyed(st.objects) && ServiceKey(es) !in st.objects
    ensures var o := ServiceStep(st, NoFaults, es, env);
      var ready := DeploymentKey(es) in st.objects && PodsReady(st.objects[DeploymentKey(es)]);
      && o.err.None? && ServiceKey(es) in o.state.objects
      && o.state.objects[ServiceKey(es)] == ServiceOf(es, env, ready, None)
  {
    var ready := DeploymentKey(es) in st.objects && PodsReady(st.objects[DeploymentKey(es)]);
    assert ServiceStep(st, NoFaults, es, env) == ServiceUpsert(st, NoFaults, es, env, ready);
    UpsertFaultFree(st, ServiceOf(es, env, ready, None), ServiceOf(es, env, ready, None));
  }

  /**
   * Without faults and with a Service stored, reconcileService patches it
   * with the desired Service for the Deployment's readiness, keeping the
   * stored cluster IP.
   */
  lemma ServicePatchedWhenPresent(st: State, es: ExternalService, env: map<string, string>)
    requires WellKeyed(st.objects) && ServiceKey(es) in st.objects
    ensures var o := ServiceStep(st, NoFaults, es, env);
      var ready := DeploymentKey(es) in st.objects && PodsReady(st.objects[DeploymentKey(es)]);
      var stored := st.objects[ServiceKey(es)];
      && o.err.None? && ServiceKey(es) in o.state.objects
      && o.state.objects[ServiceKey(es)] == PatchedService(stored, ServiceOf(es, env, ready, Some(stored)))
      && o.state.objects[ServiceKey(es)].body.service.clusterIP == StoredClusterIP(stored)
  {
    var ready := DeploymentKey(es) in st.objects && PodsReady(st.objects[DeploymentKey(es)]);
    var stored := st.objects[ServiceKey(es)];
    var desired := ServiceOf(es, env, ready, Some(stored));
    assert ServiceStep(st, NoFaults, es, env) == ServiceUpsert(st, NoFaults, es, env, ready);
    UpsertFaultFree(st, desired, PatchedService(stored, desired));
  }
}
