/**
 * The ExternalService controller's Reconcile
 * (controllers/externalservice_controller.go): fetch the ExternalService,
 * render its Envoy config, then bring the ConfigMap, Deployment,
 * HorizontalPodAutoscaler, NetworkPolicy, Service and, when enabled, the
 * PodDisruptionBudget to their desired state, in that order, stopping at the
 * first error.
 */
module Reconciler {
  import opened Wrappers
  import opened StrConv
  import opened ExternalServiceTypes
  import opened Kube
  import opened Common
  import CM = ConfigMap
  import Dep = GatewayDeployment
  import Hpa = GatewayAutoscaler
  import Np = GatewayNetworkPolicy
  import Svc = GatewayService
  import Pdb = GatewayPdb

  /**
   * The objects one reconcile brings to their desired state, in the order of
   * its steps. The Service is not here: its desired labels depend on what
   * is stored, so its step computes them.
   */
  datatype Plan = Plan(configMap: Object, deployment: Object, autoscaler: Object,
                       networkPolicy: Object, pdb: Option<Object>)

  /** The desired objects of an ExternalService, once its ConfigMap and config hash are built. */
  function PlanOf(es: ExternalService, env: map<string, string>, cm: Object, configHash: string,
                  enablePdb: bool): (p: Plan)
    requires CM.AdminPortOf(es).Some?
    requires cm.body.ConfigMapBody? && cm.Key() == ObjectKey(ConfigMapKind, Namespace, es.name)
    ensures p.configMap == cm && (p.pdb.Some? <==> enablePdb)
  {
    Plan(cm, Dep.DeploymentOf(es, env, configHash), Hpa.AutoscalerOf(es, env), Np.NetworkPolicyOf(es, env),
         if enablePdb then Some(Pdb.PdbOf(es, env)) else None)
  }

  lemma PlanOfWellPlanned(es: ExternalService, env: map<string, string>, cm: Object, configHash: string, enablePdb: bool)
    requires CM.AdminPortOf(es).Some?
    requires cm.body.ConfigMapBody? && cm.Key() == ObjectKey(ConfigMapKind, Namespace, es.name)
    ensures WellPlanned(PlanOf(es, env, cm, configHash, enablePdb), es.name)
  {
  }

  /**
   * Each planned object has its step's kind and is named after the
   * ExternalService, in the operator's namespace; the Deployment leaves its
   * replica count to the autoscaler.
   */
  predicate WellPlanned(p: Plan, name: string) {
    && p.configMap.body.ConfigMapBody? && p.configMap.Key() == ObjectKey(ConfigMapKind, Namespace, name)
    && p.deployment.body.DeploymentBody? && p.deployment.Key() == ObjectKey(DeploymentKind, Namespace, name)
    && p.deployment.body.deployment.replicas.None?
    && p.autoscaler.body.AutoscalerBody? && p.autoscaler.Key() == ObjectKey(AutoscalerKind, Namespace, name)
    && p.networkPolicy.body.NetworkPolicyBody? && p.networkPolicy.Key() == ObjectKey(NetworkPolicyKind, Namespace, name)
    && (p.pdb.Some? ==> p.pdb.value.body.PdbBody? && p.pdb.value.Key() == ObjectKey(PdbKind, Namespace, name))
  }

  /** The kind of object reconciled at each step, in the order of the steps. */
  function KindAt(step: nat): (k: Kind)
    requires step < 6
    ensures Rank(k) == step
  {
    match step
    case 0 => ConfigMapKind
    case 1 => DeploymentKind
    case 2 => AutoscalerKind
    case 3 => NetworkPolicyKind
    case 4 => ServiceKind
    case _ => PdbKind
  }

  /**
   * Step `step` of the reconcile on its own: the ConfigMap, Deployment,
   * autoscaler, NetworkPolicy, Service, and the budget when it is enabled.
   */
  function StepOutcome(st: State, faults: Faults, p: Plan, es: ExternalService, env: map<string, string>,
                       step: nat): (o: Outcome)
    requires WellKeyed(st.objects) && WellPlanned(p, es.name) && step < 6
    ensures WellKeyed(o.state.objects)
  {
    if step == 0 then CM.ConfigMapStep(st, faults, p.configMap)
    else if step == 1 then Dep.DeploymentStep(st, faults, p.deployment)
    else if step == 2 then Hpa.AutoscalerStep(st, faults, p.autoscaler)
    else if step == 3 then Np.NetworkPolicyStep(st, faults, p.networkPolicy)
    else if step == 4 then (Svc.ServiceStepFrame(st, faults, es, env); Svc.ServiceStep(st, faults, es, env))
    else if p.pdb.Some? then Pdb.PdbStep(st, faults, p.pdb.value)
    else Outcome(st, None)
  }

  /**
   * The steps from `step` on, as a state transition: each runs on the state
   * the previous one left, and the first error ends the reconcile.
   */
  function ReconcileFrom(st: State, faults: Faults, p: Plan, es: ExternalService, env: map<string, string>,
                         step: nat): (r: Outcome)
    requires WellKeyed(st.objects) && WellPlanned(p, es.name) && step <= 6
    decreases 6 - step
  {
    if step == 6 then Outcome(st, None)
    else
      var o := StepOutcome(st, faults, p, es, env, step);
      if o.err.Some? then o else ReconcileFrom(o.state, faults, p, es, env, step + 1)
  }

  /** Rendering fails only before any write; a rendered config is always written with its hash. */
  function ReconcileSpec(st: State, faults: Faults, es: ExternalService, env: map<string, string>,
                         rendered: Result<string, Error>, fnv: CM.Hash32, enablePdb: bool): (r: Outcome)
    requires WellKeyed(st.objects)
    requires rendered.Success? ==> CM.AdminPortOf(es).Some?
  {
    match CM.ConfigMapOf(es, env, rendered, fnv)
    case Failure(e) => Outcome(st, Some(e))
    case Success((cm, configHash)) =>
      CM.ConfigMapHashMatchesData(es, env, rendered, fnv);
      PlanOfWellPlanned(es, env, cm, configHash, enablePdb);
      ReconcileFrom(st, faults, PlanOf(es, env, cm, configHash, enablePdb), es, env, 0)
  }

  /** Reconcile of the ExternalService `name`, as a state transition. */
  function ReconcileOutcome(st: State, faults: Faults, services: map<string, ExternalService>, name: string,
                            env: map<string, string>, serialize: CM.Serializer, fnv: CM.Hash32, enablePdb: bool): (r: Outcome)
    requires WellKeyed(st.objects)
  {
    if name in faults.externalServiceErrors then Outcome(st, IgnoreNotFound(Some(faults.externalServiceErrors[name])))
    else if name !in services then Outcome(st, None)
    else
      var es := services[name];
      ReconcileSpec(st, faults, es, env, CM.EnvoyConfigOf(es, serialize), fnv, enablePdb)
  }

  /**
   * A missing ExternalService is not an error and a failed read is
   * returned; either way nothing is written.
   */
  lemma ReconcileWithoutExternalService(st: State, faults: Faults, services: map<string, ExternalService>, name: string,
                                        env: map<string, string>, serialize: CM.Serializer, fnv: CM.Hash32, enablePdb: bool)
    requires WellKeyed(st.objects)
    requires name in faults.externalServiceErrors || name !in services
    ensures var o := ReconcileOutcome(st, faults, services, name, env, serialize, fnv, enablePdb);
      && o.state == st
      && (o.err.None? <==> name !in faults.externalServiceErrors || faults.externalServiceErrors[name] == NotFound)
      && (o.err.Some? ==> o.err == Some(faults.externalServiceErrors[name]))
  {
  }

  /** A config that fails to render is returned as the error, before anything is written. */
  lemma RenderFailureWritesNothing(st: State, faults: Faults, es: ExternalService, env: map<string, string>,
                                   rendered: Result<string, Error>, fnv: CM.Hash32, enablePdb: bool)
    requires WellKeyed(st.objects) && rendered.Failure?
    ensures ReconcileSpec(st, faults, es, env, rendered, fnv, enablePdb) == Outcome(st, Some(rendered.error))
  {
  }

  /** The position of each kind of object in the order of the steps. */
  function Rank(kind: Kind): (r: nat) {
    match kind
    case ConfigMapKind => 0
    case DeploymentKind => 1
    case AutoscalerKind => 2
    case NetworkPolicyKind => 3
    case ServiceKind => 4
    case PdbKind => 5
  }

  function WriteKey(w: Write): (r: ObjectKey) {
    match w
    case Created(k) => k
    case Patched(k) => k
  }

  /**
   * Writes to the gateway objects of `name`, each of a kind ranked below
   * `bound`, in strictly increasing rank: at most one write per object, in
   * the order of the steps.
   */
  ghost predicate GatewayWritesInOrder(ws: seq<Write>, name: string, bound: nat) {
    && (forall i | 0 <= i < |ws| ::
          WriteKey(ws[i]).namespace == Namespace && WriteKey(ws[i]).name == name && Rank(WriteKey(ws[i]).kind) < bound)
    && (forall i, j | 0 <= i < j < |ws| :: Rank(WriteKey(ws[i]).kind) < Rank(WriteKey(ws[j]).kind))
  }

  /** One step's write, if any, extends an ordered run of writes by its object. */
  lemma {:induction false} StepWriteInOrder(before: State, after: State, base: seq<Write>, key: ObjectKey, name: string)
    requires base <= before.writes && GatewayWritesInOrder(before.writes[|base|..], name, Rank(key.kind))
    requires key.namespace == Namespace && key.name == name
    requires after.writes == before.writes
          || after.writes == before.writes + [Created(key)]
          || after.writes == before.writes + [Patched(key)]
    ensures base <= after.writes && GatewayWritesInOrder(after.writes[|base|..], name, Rank(key.kind) + 1)
  {
    var ws := before.writes[|base|..];
    if after.writes != before.writes {
      assert after.writes[|base|..] == ws + [after.writes[|after.writes| - 1]];
    }
  }

  /** A run of writes ordered below one bound is ordered below any larger one. */
  lemma WritesInOrderWeaken(ws: seq<Write>, name: string, bound: nat, larger: nat)
    requires GatewayWritesInOrder(ws, name, bound) && bound <= larger
    ensures GatewayWritesInOrder(ws, name, larger)
  {
  }

  /** Whether a key is one of the gateway objects of `name` reconciled at step `from` or later. */
  predicate LaterGatewayKey(key: ObjectKey, name: string, from: nat) {
    key.namespace == Namespace && key.name == name && Rank(key.kind) >= from
  }

  /** Every object other than the gateway objects of steps `from` on is kept as it was. */
  ghost predicate KeptBefore(st: State, o: State, name: string, from: nat) {
    && (forall key | !LaterGatewayKey(key, name, from) :: key in o.objects <==> key in st.objects)
    && (forall key | key in st.objects && !LaterGatewayKey(key, name, from) :: o.objects[key] == st.objects[key])
  }

  lemma KeptBeforeCompose(s1: State, s2: State, s3: State, name: string, from: nat, later: nat)
    requires KeptBefore(s1, s2, name, from) && KeptBefore(s2, s3, name, later) && from <= later
    ensures KeptBefore(s1, s3, name, from)
  {
  }

  /** Whether the gateway Deployment, as stored, reports ready pods. */
  predicate ReadyIn(st: State, es: ExternalService) {
    Svc.DeploymentKey(es) in st.objects && Svc.PodsReady(st.objects[Svc.DeploymentKey(es)])
  }


  /** The stored Service is at the fixed point of the Service step, for the readiness stored beside it. */
  ghost predicate ServiceSettled(st: State, es: ExternalService, env: map<string, string>) {
    Svc.ServiceKey(es) in st.objects &&
    var sv := st.objects[Svc.ServiceKey(es)];
    Svc.PatchedService(sv, Svc.ServiceOf(es, env, ReadyIn(st, es), Some(sv))) == sv
  }

  /**
   * The object of step `step` is stored at a fixed point of the step's
   * patch: a fault-free run of the step would not write it.
   */
  ghost predicate SettledAt(st: State, p: Plan, es: ExternalService, env: map<string, string>, step: nat)
    requires WellPlanned(p, es.name) && step < 6
  {
    if step == 0 then
      var k := p.configMap.Key();
      k in st.objects && CM.PatchedConfigMap(st.objects[k], p.configMap) == st.objects[k]
    else if step == 1 then
      var k := p.deployment.Key();
      k in st.objects && Dep.PatchedDeployment(st.objects[k], p.deployment) == st.objects[k]
    else if step == 2 then
      var k := p.autoscaler.Key();
      k in st.objects && Hpa.PatchedAutoscaler(st.objects[k], p.autoscaler) == st.objects[k]
    else if step == 3 then
      var k := p.networkPolicy.Key();
      k in st.objects && Np.PatchedNetworkPolicy(st.objects[k], p.networkPolicy) == st.objects[k]
    else if step == 4 then ServiceSettled(st, es, env)
    else
      p.pdb.Some? ==>
        var k := p.pdb.value.Key();
        k in st.objects && Pdb.PatchedPdb(st.objects[k], p.pdb.value) == st.objects[k]
  }

  /** The objects of steps `from` on are all settled. */
  ghost predicate Settled(st: State, p: Plan, es: ExternalService, env: map<string, string>, from: nat)
    requires WellPlanned(p, es.name)
    decreases 6 - from
  {
    from >= 6 || (SettledAt(st, p, es, env, from) && Settled(st, p, es, env, from + 1))
  }

  /** Each object of steps `from` on is settled when they all are. */
  lemma {:induction false} SettledAtEach(st: State, p: Plan, es: ExternalService, env: map<string, string>,
                                         from: nat, step: nat)
    requires WellPlanned(p, es.name) && Settled(st, p, es, env, from) && from <= step < 6
    ensures SettledAt(st, p, es, env, step)
    decreases step - from
  {
    if from < step {
      SettledAtEach(st, p, es, env, from + 1, step);
    }
  }

  /** A step changes its own object, and writes it at most once, and nothing else. */
  lemma StepFrame(st: State, faults: Faults, p: Plan, es: ExternalService, env: map<string, string>, step: nat)
    requires WellKeyed(st.objects) && WellPlanned(p, es.name) && step < 6
    ensures var o := StepOutcome(st, faults, p, es, env, step);
      var key := ObjectKey(KindAt(step), Namespace, es.name);
      && KeptBefore(st, o.state, es.name, step)
      && (forall k | k != key :: (k in o.state.objects <==> k in st.objects))
      && (forall k | k in st.objects && k != key :: o.state.objects[k] == st.objects[k])
      && (o.state.writes == st.writes
          || o.state.writes == st.writes + [Created(key)]
          || o.state.writes == st.writes + [Patched(key)])
  {
    if step == 4 {
      Svc.ServiceStepFrame(st, faults, es, env);
    }
  }

  /** Without faults a step succeeds and leaves its object settled. */
  lemma StepSettles(st: State, p: Plan, es: ExternalService, env: map<string, string>, step: nat)
    requires WellKeyed(st.objects) && WellPlanned(p, es.name) && step < 6
    ensures var o := StepOutcome(st, NoFaults, p, es, env, step);
      o.err.None? && SettledAt(o.state, p, es, env, step)
  {
    if step == 0 {
      CM.ConfigMapStepSettles(st, p.configMap);
    } else if step == 1 {
      Dep.DeploymentStepSettles(st, p.deployment);
    } else if step == 2 {
      Hpa.AutoscalerStepSettles(st, p.autoscaler);
    } else if step == 3 {
      Np.NetworkPolicyStepSettles(st, p.networkPolicy);
    } else if step == 4 {
      ServiceStepSettles(st, p, es, env);
    } else if p.pdb.Some? {
      Pdb.PdbStepSettles(st, p.pdb.value);
    }
  }

  lemma ServiceStepSettles(st: State, p: Plan, es: ExternalService, env: map<string, string>)
    requires WellKeyed(st.objects) && WellPlanned(p, es.name)
    ensures var o := Svc.ServiceStep(st, NoFaults, es, env);
      o.err.None? && ServiceSettled(o.state, es, env)
  {
    Svc.ServiceStepFrame(st, NoFaults, es, env);
    Svc.ServiceUpsertSettles(st, es, env, ReadyIn(st, es));
    var o := Svc.ServiceStep(st, NoFaults, es, env);
    assert ReadyIn(o.state, es) == ReadyIn(st, es);
  }

  /** Over its settled object, a fault-free step writes nothing. */
  lemma StepSettledNoWrite(st: State, p: Plan, es: ExternalService, env: map<string, string>, step: nat)
    requires WellKeyed(st.objects) && WellPlanned(p, es.name) && step < 6
    requires SettledAt(st, p, es, env, step)
    ensures StepOutcome(st, NoFaults, p, es, env, step) == Outcome(st, None)
  {
    if step == 0 {
      CM.ConfigMapSettledNoWrite(st, p.configMap);
    } else if step == 1 {
      Dep.DeploymentSettledNoWrite(st, p.deployment);
    } else if step == 2 {
      Hpa.AutoscalerSettledNoWrite(st, p.autoscaler);
    } else if step == 3 {
      Np.NetworkPolicySettledNoWrite(st, p.networkPolicy);
    } else if step == 4 {
      Svc.ServiceSettledNoWrite(st, es, env);
    } else if p.pdb.Some? {
      Pdb.PdbSettledNoWrite(st, p.pdb.value);
    }
  }

  /** A settled object stays settled while only later steps' objects change. */
  lemma SettledAtKept(s1: State, s2: State, p: Plan, es: ExternalService, env: map<string, string>,
                      step: nat, later: nat)
    requires WellPlanned(p, es.name) && step < later && step < 6
    requires SettledAt(s1, p, es, env, step) && KeptBefore(s1, s2, es.name, later)
    ensures SettledAt(s2, p, es, env, step)
  {
    if step == 4 {
      ServiceSettledKept(s1, s2, es, env, later);
    }
  }

  lemma ServiceSettledKept(s1: State, s2: State, es: ExternalService, env: map<string, string>, later: nat)
    requires 4 < later && ServiceSettled(s1, es, env) && KeptBefore(s1, s2, es.name, later)
    ensures ServiceSettled(s2, es, env)
  {
    assert ReadyIn(s2, es) == ReadyIn(s1, es);
  }

  /**
   * Without faults the steps from `step` on all succeed, leave each of
   * their objects settled, and keep every other object as it was.
   */
  lemma {:induction false} FromSettles(st: State, p: Plan, es: ExternalService, env: map<string, string>, step: nat)
    requires WellKeyed(st.objects) && WellPlanned(p, es.name) && step <= 6
    ensures var o := ReconcileFrom(st, NoFaults, p, es, env, step);
      && o.err.None? && WellKeyed(o.state.objects)
      && KeptBefore(st, o.state, es.name, step)
      && Settled(o.state, p, es, env, step)
    decreases 6 - step
  {
    if step < 6 {
      StepFrame(st, NoFaults, p, es, env, step);
      StepSettles(st, p, es, env, step);
      var o1 := StepOutcome(st, NoFaults, p, es, env, step);
      FromSettles(o1.state, p, es, env, step + 1);
      var o := ReconcileFrom(o1.state, NoFaults, p, es, env, step + 1);
      KeptBeforeCompose(st, o1.state, o.state, es.name, step, step + 1);
      SettledAtKept(o1.state, o.state, p, es, env, step, step + 1);
    }
  }

  /** Over settled objects, a fault-free run of the steps from `step` on writes nothing. */
  lemma {:induction false} FromSettledNoWrite(st: State, p: Plan, es: ExternalService, env: map<string, string>, step: nat)
    requires WellKeyed(st.objects) && WellPlanned(p, es.name) && step <= 6
    requires Settled(st, p, es, env, step)
    ensures ReconcileFrom(st, NoFaults, p, es, env, step) == Outcome(st, None)
    decreases 6 - step
  {
    if step < 6 {
      StepSettledNoWrite(st, p, es, env, step);
      FromSettledNoWrite(st, p, es, env, step + 1);
    }
  }

  /**
   * What settled means for the stored objects: the ConfigMap, autoscaler,
   * NetworkPolicy and budget are stored as planned, and so is the
   * Deployment except for the replica count the autoscaler owns.
   */
  lemma SettledStoresPlan(st: State, p: Plan, es: ExternalService, env: map<string, string>)
    requires WellPlanned(p, es.name) && Settled(st, p, es, env, 0)
    ensures p.configMap.Key() in st.objects && st.objects[p.configMap.Key()].body == p.configMap.body
    ensures p.deployment.Key() in st.objects
    ensures var d := st.objects[p.deployment.Key()];
      d.body.DeploymentBody? && d.body.deployment.(replicas := None) == p.deployment.body.deployment
    ensures p.autoscaler.Key() in st.objects && st.objects[p.autoscaler.Key()].body == p.autoscaler.body
    ensures p.networkPolicy.Key() in st.objects && st.objects[p.networkPolicy.Key()].body == p.networkPolicy.body
    ensures Svc.ServiceKey(es) in st.objects
    ensures p.pdb.Some? ==> p.pdb.value.Key() in st.objects && st.objects[p.pdb.value.Key()].body == p.pdb.value.body
  {
    SettledAtEach(st, p, es, env, 0, 0);
    SettledAtEach(st, p, es, env, 0, 1);
    SettledAtEach(st, p, es, env, 0, 2);
    SettledAtEach(st, p, es, env, 0, 3);
    SettledAtEach(st, p, es, env, 0, 4);
    SettledAtEach(st, p, es, env, 0, 5);
  }

  /**
   * A fault-free reconcile twice is a fault-free reconcile once: the second
   * run writes nothing and returns what the first returned.
   */
  lemma {:induction false} SpecIdempotent(st: State, es: ExternalService, env: map<string, string>,
                                          rendered: Result<string, Error>, fnv: CM.Hash32, enablePdb: bool)
    requires WellKeyed(st.objects)
    requires rendered.Success? ==> CM.AdminPortOf(es).Some?
    ensures var o := ReconcileSpec(st, NoFaults, es, env, rendered, fnv, enablePdb);
      && WellKeyed(o.state.objects)
      && ReconcileSpec(o.state, NoFaults, es, env, rendered, fnv, enablePdb) == o
  {
    CM.ConfigMapHashMatchesData(es, env, rendered, fnv);
    if rendered.Success? {
      var (cm, configHash) := CM.ConfigMapOf(es, env, rendered, fnv).value;
      PlanOfWellPlanned(es, env, cm, configHash, enablePdb);
      var p := PlanOf(es, env, cm, configHash, enablePdb);
      FromSettles(st, p, es, env, 0);
      var o := ReconcileFrom(st, NoFaults, p, es, env, 0);
      FromSettledNoWrite(o.state, p, es, env, 0);
    }
  }

  /** Reconcile is idempotent when nothing fails: running it again changes nothing and returns the same. */
  lemma ReconcileIdempotent(st: State, services: map<string, ExternalService>, name: string,
                            env: map<string, string>, serialize: CM.Serializer, fnv: CM.Hash32, enablePdb: bool)
    requires WellKeyed(st.objects)
    ensures var o := ReconcileOutcome(st, NoFaults, services, name, env, serialize, fnv, enablePdb);
      && WellKeyed(o.state.objects)
      && ReconcileOutcome(o.state, NoFaults, services, name, env, serialize, fnv, enablePdb) == o
  {
    if name in services {
      var es := services[name];
      SpecIdempotent(st, es, env, CM.EnvoyConfigOf(es, serialize), fnv, enablePdb);
    }
  }

  /**
   * A fault-free reconcile of a rendered config succeeds and stores the
   * config in the ConfigMap and its hash on the pod template; every object
   * other than the gateway's is kept.
   */
  lemma {:induction false} FaultFreeReconcile(st: State, es: ExternalService, env: map<string, string>,
                                              rendered: Result<string, Error>, fnv: CM.Hash32, enablePdb: bool)
    requires WellKeyed(st.objects) && rendered.Success? && CM.AdminPortOf(es).Some?
    ensures var o := ReconcileSpec(st, NoFaults, es, env, rendered, fnv, enablePdb);
      && o.err.None?
      && KeptBefore(st, o.state, es.name, 0)
      && ObjectKey(ConfigMapKind, Namespace, es.name) in o.state.objects
      && o.state.objects[ObjectKey(ConfigMapKind, Namespace, es.name)].body == ConfigMapBody(map[CM.ConfigKey := rendered.value])
      && ObjectKey(DeploymentKind, Namespace, es.name) in o.state.objects
      && o.state.objects[ObjectKey(DeploymentKind, Namespace, es.name)].body.DeploymentBody?
      && StoredConfigHash(o.state.objects[ObjectKey(DeploymentKind, Namespace, es.name)]) == Some(fnv(rendered.value))
  {
    CM.ConfigMapHashMatchesData(es, env, rendered, fnv);
    var (cm, configHash) := CM.ConfigMapOf(es, env, rendered, fnv).value;
    PlanOfWellPlanned(es, env, cm, configHash, enablePdb);
    var p := PlanOf(es, env, cm, configHash, enablePdb);
    FromSettles(st, p, es, env, 0);
    var o := ReconcileFrom(st, NoFaults, p, es, env, 0);
    SettledStoresPlan(o.state, p, es, env);
    Dep.ConfigHashRollsPods(es, env, configHash, configHash);
  }

  /** The config hash a stored Deployment's pod template carries, read back as a number. */
  function StoredConfigHash(d: Object): (r: Option<nat>)
    requires d.body.DeploymentBody?
  {
    var annotations := d.body.deployment.template.templateAnnotations;
    if Dep.ConfigHashAnnotation in annotations then ParseDigits(annotations[Dep.ConfigHashAnnotation], 16) else None
  }

  /**
   * A fault-free reconcile stores the autoscaler, NetworkPolicy and Service
   * of the ExternalService, and its budget exactly when budgets are enabled
   * (a disabled budget is left as it was).
   */
  lemma {:induction false} FaultFreeReconcileStoresGateway(st: State, es: ExternalService, env: map<string, string>,
                                                           rendered: Result<string, Error>, fnv: CM.Hash32, enablePdb: bool)
    requires WellKeyed(st.objects) && rendered.Success? && CM.AdminPortOf(es).Some?
    ensures var o := ReconcileSpec(st, NoFaults, es, env, rendered, fnv, enablePdb);
      && ObjectKey(AutoscalerKind, Namespace, es.name) in o.state.objects
      && o.state.objects[ObjectKey(AutoscalerKind, Namespace, es.name)].body == Hpa.AutoscalerOf(es, env).body
      && ObjectKey(NetworkPolicyKind, Namespace, es.name) in o.state.objects
      && o.state.objects[ObjectKey(NetworkPolicyKind, Namespace, es.name)].body == Np.NetworkPolicyOf(es, env).body
      && ObjectKey(ServiceKind, Namespace, es.name) in o.state.objects
      && (enablePdb ==>
            ObjectKey(PdbKind, Namespace, es.name) in o.state.objects
            && o.state.objects[ObjectKey(PdbKind, Namespace, es.name)].body == Pdb.PdbOf(es, env).body)
  {
    CM.ConfigMapHashMatchesData(es, env, rendered, fnv);
    var (cm, configHash) := CM.ConfigMapOf(es, env, rendered, fnv).value;
    PlanOfWellPlanned(es, env, cm, configHash, enablePdb);
    var p := PlanOf(es, env, cm, configHash, enablePdb);
    FromSettles(st, p, es, env, 0);
    var o := ReconcileFrom(st, NoFaults, p, es, env, 0);
    SettledStoresPlan(o.state, p, es, env);
  }

  /**
   * Whatever the faults, the steps from `step` on write only their own
   * objects, each at most once and in the order of the steps.
   */
  lemma {:induction false} FromWritesInOrder(st: State, faults: Faults, p: Plan, es: ExternalService,
                                             env: map<string, string>, base: seq<Write>, step: nat)
    requires WellKeyed(st.objects) && WellPlanned(p, es.name) && step <= 6
    requires base <= st.writes && GatewayWritesInOrder(st.writes[|base|..], es.name, step)
    ensures var o := ReconcileFrom(st, faults, p, es, env, step);
      base <= o.state.writes && GatewayWritesInOrder(o.state.writes[|base|..], es.name, 6)
    decreases 6 - step
  {
    if step < 6 {
      StepFrame(st, faults, p, es, env, step);
      var o := StepOutcome(st, faults, p, es, env, step);
      StepWriteInOrder(st, o.state, base, ObjectKey(KindAt(step), Namespace, es.name), es.name);
      if o.err.Some? {
        WritesInOrderWeaken(o.state.writes[|base|..], es.name, step + 1, 6);
      } else {
        FromWritesInOrder(o.state, faults, p, es, env, base, step + 1);
      }
    }
  }

  /**
   * Whatever the faults, one reconcile writes only the gateway objects of
   * the ExternalService, in the operator's namespace, each at most once and
   * in the order of the steps; earlier writes are kept.
   */
  lemma {:induction false} ReconcileWritesInOrder(st: State, faults: Faults, es: ExternalService, env: map<string, string>,
                                                  rendered: Result<string, Error>, fnv: CM.Hash32, enablePdb: bool)
    requires WellKeyed(st.objects)
    requires rendered.Success? ==> CM.AdminPortOf(es).Some?
    ensures var o := ReconcileSpec(st, faults, es, env, rendered, fnv, enablePdb);
      st.writes <= o.state.writes && GatewayWritesInOrder(o.state.writes[|st.writes|..], es.name, 6)
  {
    CM.ConfigMapHashMatchesData(es, env, rendered, fnv);
    assert st.writes[|st.writes|..] == [];
    if rendered.Success? {
      var (cm, configHash) := CM.ConfigMapOf(es, env, rendered, fnv).value;
      PlanOfWellPlanned(es, env, cm, configHash, enablePdb);
      FromWritesInOrder(st, faults, PlanOf(es, env, cm, configHash, enablePdb), es, env, st.writes, 0);
    }
  }

  /**
   * The steps from `step` up to, but not including, `until`, stopping at the
   * first error: the state the reconcile has reached when step `until` begins.
   */
  function ReconcileUntil(st: State, faults: Faults, p: Plan, es: ExternalService, env: map<string, string>,
                          step: nat, until: nat): (o: Outcome)
    requires WellKeyed(st.objects) && WellPlanned(p, es.name) && step <= until <= 6
    ensures WellKeyed(o.state.objects)
    decreases until - step
  {
    if step == until then Outcome(st, None)
    else
      var o := StepOutcome(st, faults, p, es, env, step);
      if o.err.Some? then o else ReconcileUntil(o.state, faults, p, es, env, step + 1, until)
  }

  /**
   * A run of the steps from `step` on that ends in an error ends in the
   * error of one step `k`: every step before `k` succeeded, and the outcome
   * is what step `k` returned on the state they left, so no later step ran.
   */
  lemma {:induction false} FirstErrorStops(st: State, faults: Faults, p: Plan, es: ExternalService,
                                           env: map<string, string>, step: nat)
    requires WellKeyed(st.objects) && WellPlanned(p, es.name) && step <= 6
    ensures var o := ReconcileFrom(st, faults, p, es, env, step);
      o.err.Some? ==> exists k | step <= k < 6 ::
        && ReconcileUntil(st, faults, p, es, env, step, k).err.None?
        && o == StepOutcome(ReconcileUntil(st, faults, p, es, env, step, k).state, faults, p, es, env, k)
    decreases 6 - step
  {
    if step < 6 {
      var o1 := StepOutcome(st, faults, p, es, env, step);
      if o1.err.Some? {
        assert ReconcileUntil(st, faults, p, es, env, step, step) == Outcome(st, None);
      } else {
        FirstErrorStops(o1.state, faults, p, es, env, step + 1);
        var o := ReconcileFrom(st, faults, p, es, env, step);
        if o.err.Some? {
          var k :| step + 1 <= k < 6
            && ReconcileUntil(o1.state, faults, p, es, env, step + 1, k).err.None?
            && o == StepOutcome(ReconcileUntil(o1.state, faults, p, es, env, step + 1, k).state, faults, p, es, env, k);
          assert ReconcileUntil(st, faults, p, es, env, step, k) == ReconcileUntil(o1.state, faults, p, es, env, step + 1, k);
        }
      }
    }
  }

  /** The steps before `until` write only their own objects, in order, each ranked below `until`. */
  lemma {:induction false} UntilWritesInOrder(st: State, faults: Faults, p: Plan, es: ExternalService,
                                              env: map<string, string>, base: seq<Write>, step: nat, until: nat)
    requires WellKeyed(st.objects) && WellPlanned(p, es.name) && step <= until <= 6
    requires base <= st.writes && GatewayWritesInOrder(st.writes[|base|..], es.name, step)
    ensures var o := ReconcileUntil(st, faults, p, es, env, step, until);
      base <= o.state.writes && GatewayWritesInOrder(o.state.writes[|base|..], es.name, until)
    decreases until - step
  {
    if step < until {
      StepFrame(st, faults, p, es, env, step);
      var o := StepOutcome(st, faults, p, es, env, step);
      StepWriteInOrder(st, o.state, base, ObjectKey(KindAt(step), Namespace, es.name), es.name);
      if o.err.Some? {
        WritesInOrderWeaken(o.state.writes[|base|..], es.name, step + 1, until);
      } else {
        UntilWritesInOrder(o.state, faults, p, es, env, base, step + 1, until);
      }
    } else {
      WritesInOrderWeaken(st.writes[|base|..], es.name, step, until);
    }
  }

  /**
   * A reconcile of a rendered config that fails, fails at one step `k`:
   * the steps before it succeeded, its error is the one returned, and only
   * the objects of steps up to `k` were written, in order; no later object
   * was touched.
   */
  lemma {:induction false} ReconcileStopsAtFirstError(st: State, faults: Faults, es: ExternalService, env: map<string, string>,
                                                      cm: Object, configHash: string, enablePdb: bool)
    requires WellKeyed(st.objects) && CM.AdminPortOf(es).Some?
    requires cm.body.ConfigMapBody? && cm.Key() == ObjectKey(ConfigMapKind, Namespace, es.name)
    ensures WellPlanned(PlanOf(es, env, cm, configHash, enablePdb), es.name)
    ensures var p := PlanOf(es, env, cm, configHash, enablePdb);
      var o := ReconcileFrom(st, faults, p, es, env, 0);
      o.err.Some? ==> exists k | 0 <= k < 6 ::
        && ReconcileUntil(st, faults, p, es, env, 0, k).err.None?
        && o == StepOutcome(ReconcileUntil(st, faults, p, es, env, 0, k).state, faults, p, es, env, k)
        && st.writes <= o.state.writes
        && GatewayWritesInOrder(o.state.writes[|st.writes|..], es.name, k + 1)
        && KeptBefore(st, o.state, es.name, 0)
  {
    PlanOfWellPlanned(es, env, cm, configHash, enablePdb);
    var p := PlanOf(es, env, cm, configHash, enablePdb);
    var o := ReconcileFrom(st, faults, p, es, env, 0);
    FirstErrorStops(st, faults, p, es, env, 0);
    if o.err.Some? {
      var k :| 0 <= k < 6
        && ReconcileUntil(st, faults, p, es, env, 0, k).err.None?
        && o == StepOutcome(ReconcileUntil(st, faults, p, es, env, 0, k).state, faults, p, es, env, k);
      var before := ReconcileUntil(st, faults, p, es, env, 0, k).state;
      assert st.writes[|st.writes|..] == [];
      UntilWritesInOrder(st, faults, p, es, env, st.writes, 0, k);
      UntilKept(st, faults, p, es, env, 0, k);
      StepFrame(before, faults, p, es, env, k);
      StepWriteInOrder(before, o.state, st.writes, ObjectKey(KindAt(k), Namespace, es.name), es.name);
      KeptBeforeCompose(st, before, o.state, es.name, 0, k);
    }
  }

  /** The steps before `until` keep every object but their own. */
  lemma {:induction false} UntilKept(st: State, faults: Faults, p: Plan, es: ExternalService,
                                     env: map<string, string>, step: nat, until: nat)
    requires WellKeyed(st.objects) && WellPlanned(p, es.name) && step <= until <= 6
    ensures KeptBefore(st, ReconcileUntil(st, faults, p, es, env, step, until).state, es.name, step)
    decreases until - step
  {
    if step < until {
      StepFrame(st, faults, p, es, env, step);
      var o := StepOutcome(st, faults, p, es, env, step);
      if o.err.None? {
        UntilKept(o.state, faults, p, es, env, step + 1, until);
        KeptBeforeCompose(st, o.state, ReconcileUntil(o.state, faults, p, es, env, step + 1, until).state,
                          es.name, step, step + 1);
      }
    }
  }

  /** The controller, with its environment, its config serializer and hash, and the budget switch. */
  class ExternalServiceReconciler {
    const api: ApiServer
    const env: map<string, string>
    const serialize: CM.Serializer
    const fnv: CM.Hash32
    const enablePodDisruptionBudgets: bool

    constructor (api: ApiServer, env: map<string, string>, serialize: CM.Serializer, fnv: CM.Hash32, enablePdb: bool)
      ensures this.api == api && this.env == env && this.serialize == serialize && this.fnv == fnv
      ensures this.enablePodDisruptionBudgets == enablePdb
    {
      this.api := api;
      this.env := env;
      this.serialize := serialize;
      this.fnv := fnv;
      this.enablePodDisruptionBudgets := enablePdb;
    }

    /** Reconcile: a missing ExternalService is not an error; any other failure is returned. */
    method Reconcile(name: string) returns (err: Option<Error>)
      requires api.Valid()
      modifies api
      ensures api.Valid()
      ensures Outcome(api.Snapshot(), err) ==
        ReconcileOutcome(old(api.Snapshot()), api.faults, api.externalServices, name, env, serialize, fnv, enablePodDisruptionBudgets)
    {
      var got := api.GetExternalService(name);
      if got.Failure? {
        return IgnoreNotFound(Some(got.error));
      }
      var es := got.value;
      var built := CM.BuildConfigMap(es, env, serialize, fnv);
      CM.ConfigMapHashMatchesData(es, env, CM.EnvoyConfigOf(es, serialize), fnv);
      if built.Failure? {
        return Some(built.error);
      }
      var (cm, configHash) := built.value;
      PlanOfWellPlanned(es, env, cm, configHash, enablePodDisruptionBudgets);
      err := ReconcileSteps(es, cm, configHash, PlanOf(es, env, cm, configHash, enablePodDisruptionBudgets), 0);
    }

    /**
     * One step through its own reconcile method: the ConfigMap, Deployment,
     * autoscaler, NetworkPolicy, Service, and the budget when enabled.
     */
    method ReconcileStep(es: ExternalService, cm: Object, configHash: string, ghost p: Plan, step: nat)
      returns (err: Option<Error>)
      requires api.Valid() && step < 6 && CM.AdminPortOf(es).Some?
      requires cm.body.ConfigMapBody? && cm.Key() == ObjectKey(ConfigMapKind, Namespace, es.name)
      requires p == PlanOf(es, env, cm, configHash, enablePodDisruptionBudgets) && WellPlanned(p, es.name)
      modifies api
      ensures api.Valid()
      ensures Outcome(api.Snapshot(), err) == StepOutcome(old(api.Snapshot()), api.faults, p, es, env, step)
    {
      if step == 0 {
        err := CM.ReconcileConfigMap(api, cm);
      } else if step == 1 {
        var deployment := Dep.BuildDeployment(es, env, configHash);
        err := Dep.ReconcileDeployment(api, deployment);
      } else if step == 2 {
        err := Hpa.ReconcileAutoscaler(api, Hpa.AutoscalerOf(es, env));
      } else if step == 3 {
        var policy := Np.BuildNetworkPolicy(es, env);
        err := Np.ReconcileNetworkPolicy(api, policy);
      } else if step == 4 {
        err := Svc.ReconcileService(api, es, env);
      } else if enablePodDisruptionBudgets {
        err := Pdb.ReconcilePdb(api, Pdb.PdbOf(es, env));
      } else {
        err := None;
      }
    }

    /** The steps from `step` on, in order, stopping at the first error. */
    method ReconcileSteps(es: ExternalService, cm: Object, configHash: string, ghost p: Plan, step: nat)
      returns (err: Option<Error>)
      requires api.Valid() && step <= 6 && CM.AdminPortOf(es).Some?
      requires cm.body.ConfigMapBody? && cm.Key() == ObjectKey(ConfigMapKind, Namespace, es.name)
      requires p == PlanOf(es, env, cm, configHash, enablePodDisruptionBudgets) && WellPlanned(p, es.name)
      modifies api
      ensures api.Valid()
      ensures Outcome(api.Snapshot(), err) == ReconcileFrom(old(api.Snapshot()), api.faults, p, es, env, step)
      decreases 6 - step
    {
      if step == 6 {
        return None;
      }
      err := ReconcileStep(es, cm, configHash, p, step);
      if err.Some? {
        return;
      }
      err := ReconcileSteps(es, cm, configHash, p, step + 1);
    }
  }
}
