/**
 * The gateway Deployment (controllers/deployment.go): one Envoy container
 * per ExternalService, fed by the ConfigMap, probed on the admin port, with
 * scheduling options read from the operator's environment.
 */
module GatewayDeployment {
  import opened Wrappers
  import opened StrConv
  import opened ExternalServiceTypes
  import opened Kube
  import opened Common
  import ConfigMap

  const ConfigHashAnnotation := "egress.monzo.com/config-hash"
  const AdminPortAnnotation := "egress.monzo.com/admin-port"
  const DefaultEnvoyImage := "envoyproxy/envoy:v1.25.9"
  const ConfigVolumeName := "envoy-config"
  const ConfigMountPath := "/etc/envoy"
  const DefaultRollingUpdate := "25%"
  const DefaultZoneKey := "topology.kubernetes.io/zone"
  const DefaultHostnameKey := "kubernetes.io/hostname"

  /** lookupEnvOr: the variable's value when set and non-empty, else the default. */
  function LookupEnvOr(env: map<string, string>, key: string, default: string): (r: string)
    ensures key in env && env[key] != "" ==> r == env[key]
    ensures !(key in env && env[key] != "") ==> r == default
  {
    match LookupEnv(env, key)
    case Some(v) => if |v| == 0 then default else v
    case None => default
  }

  /** The Envoy image: ENVOY_IMAGE when set (even to the empty string), else the pinned default. */
  function EnvoyImage(env: map<string, string>): (r: string)
    ensures "ENVOY_IMAGE" in env ==> r == env["ENVOY_IMAGE"]
    ensures "ENVOY_IMAGE" !in env ==> r == DefaultEnvoyImage
  {
    LookupEnv(env, "ENVOY_IMAGE").GetOr(DefaultEnvoyImage)
  }

  /** A NoSchedule toleration when both the taint key and value are set. */
  function Tolerations(env: map<string, string>): (r: seq<Toleration>) {
    var k, v := LookupEnv(env, "TAINT_TOLERATION_KEY"), LookupEnv(env, "TAINT_TOLERATION_VALUE");
    if k.Some? && v.Some? then [Toleration(k.value, v.value, "NoSchedule")] else []
  }

  /** A one-entry node selector when both the key and value are set. */
  function NodeSelector(env: map<string, string>): (r: Option<map<string, string>>) {
    var k, v := LookupEnv(env, "NODE_SELECTOR_KEY"), LookupEnv(env, "NODE_SELECTOR_VALUE");
    if k.Some? && v.Some? then Some(map[k.value := v.value]) else None
  }

  /** A maximum skew: the variable's integer value cut to 32 bits, or 1 when it does not parse. */
  function MaxSkew(s: string): (r: int) {
    match Atoi(s)
    case Some(v) => Int32(v)
    case None => 1
  }

  /** One spread constraint when the skew variable is set; its key defaults when unset. */
  function SpreadConstraint(env: map<string, string>, skewVar: string, keyVar: string, defaultKey: string,
                            selector: map<string, string>): (r: seq<TopologySpreadConstraint>)
  {
    match LookupEnv(env, skewVar)
    case None => []
    case Some(skew) =>
      [TopologySpreadConstraint(LookupEnv(env, keyVar).GetOr(defaultKey), "ScheduleAnyway", MaxSkew(skew), selector)]
  }

  /** Zone and hostname spread constraints, only when ENABLE_POD_TOPOLOGY_SPREAD is "true". */
  function TopologySpread(env: map<string, string>, selector: map<string, string>): (r: seq<TopologySpreadConstraint>) {
    if LookupEnv(env, "ENABLE_POD_TOPOLOGY_SPREAD") == Some("true") then
      SpreadConstraint(env, "POD_TOPOLOGY_ZONE_MAX_SKEW", "POD_TOPOLOGY_ZONE_MAX_SKEW_KEY", DefaultZoneKey, selector)
      + SpreadConstraint(env, "POD_TOPOLOGY_HOSTNAME_MAX_SKEW", "POD_TOPOLOGY_HOSTNAME_MAX_SKEW_KEY", DefaultHostnameKey, selector)
    else []
  }

  /** The scheduling options from the environment. */
  lemma SchedulingOptions(env: map<string, string>, selector: map<string, string>)
    ensures |Tolerations(env)| <= 1
    ensures |Tolerations(env)| == 1 <==> "TAINT_TOLERATION_KEY" in env && "TAINT_TOLERATION_VALUE" in env
    ensures |Tolerations(env)| == 1 ==>
      Tolerations(env)[0] == Toleration(env["TAINT_TOLERATION_KEY"], env["TAINT_TOLERATION_VALUE"], "NoSchedule")
    ensures NodeSelector(env).Some? <==> "NODE_SELECTOR_KEY" in env && "NODE_SELECTOR_VALUE" in env
    ensures NodeSelector(env).Some? ==> NodeSelector(env).value == map[env["NODE_SELECTOR_KEY"] := env["NODE_SELECTOR_VALUE"]]
    ensures LookupEnv(env, "ENABLE_POD_TOPOLOGY_SPREAD") != Some("true") ==> TopologySpread(env, selector) == []
    ensures |TopologySpread(env, selector)| <= 2
    ensures forall c | c in TopologySpread(env, selector) ::
      c.labelSelector == selector && c.whenUnsatisfiable == "ScheduleAnyway" && -0x8000_0000 <= c.maxSkew < 0x8000_0000
  {
  }

  /**
   * With spreading enabled, the zone constraint (when its skew variable is
   * set) comes first and the hostname constraint (when its own skew variable
   * is set) last; each takes its key variable, or the well-known zone or
   * hostname label when that is unset, and the skew its variable gives.
   */
  lemma TopologySpreadOrder(env: map<string, string>, selector: map<string, string>)
    ensures var on := LookupEnv(env, "ENABLE_POD_TOPOLOGY_SPREAD") == Some("true");
      var zone := on && "POD_TOPOLOGY_ZONE_MAX_SKEW" in env;
      var host := on && "POD_TOPOLOGY_HOSTNAME_MAX_SKEW" in env;
      var ts := TopologySpread(env, selector);
      && |ts| == (if zone then 1 else 0) + (if host then 1 else 0)
      && (zone ==> ts[0] == TopologySpreadConstraint(
            if "POD_TOPOLOGY_ZONE_MAX_SKEW_KEY" in env then env["POD_TOPOLOGY_ZONE_MAX_SKEW_KEY"] else DefaultZoneKey,
            "ScheduleAnyway", MaxSkew(env["POD_TOPOLOGY_ZONE_MAX_SKEW"]), selector))
      && (host ==> ts[|ts| - 1] == TopologySpreadConstraint(
            if "POD_TOPOLOGY_HOSTNAME_MAX_SKEW_KEY" in env then env["POD_TOPOLOGY_HOSTNAME_MAX_SKEW_KEY"] else DefaultHostnameKey,
            "ScheduleAnyway", MaxSkew(env["POD_TOPOLOGY_HOSTNAME_MAX_SKEW"]), selector))
  {
  }

  /**
   * The skew of a decimal value: a 64-bit one is cut to 32 bits (taken as it
   * is when it fits), and one outside 64 bits makes Atoi fail, so it becomes 1.
   */
  lemma MaxSkewValues(n: int)
    ensures MinInt64 <= n <= MaxInt64 ==> MaxSkew(Itoa(n)) == Int32(n)
    ensures -0x8000_0000 <= n < 0x8000_0000 ==> MaxSkew(Itoa(n)) == n
    ensures !(MinInt64 <= n <= MaxInt64) ==> MaxSkew(Itoa(n)) == 1
    ensures MaxSkew(Itoa(0x1_0000_0000)) == 0 && MaxSkew(Itoa(0x8000_0000)) == -0x8000_0000
  {
    AtoiOfItoa(n);
    AtoiOfItoa(0x1_0000_0000);
    AtoiOfItoa(0x8000_0000);
  }

  /** A skew that is not an optionally signed run of digits falls back to 1. */
  lemma MaxSkewFallback(s: string)
    requires NotDecimal(s)
    ensures MaxSkew(s) == 1
    ensures MaxSkew("") == 1 && MaxSkew("one") == 1 && MaxSkew("-") == 1 && MaxSkew("2x") == 1
  {
    AtoiRejectsNotDecimal(s);
    assert !('0' <= "one"[0] <= '9');
    AtoiRejectsNotDecimal("one");
    AtoiRejectsNotDecimal("-");
    assert !('0' <= "2x"[1] <= '9');
    AtoiRejectsNotDecimal("2x");
  }

  /** The gateway's resources: the spec's, or the defaults. */
  function Resources(es: ExternalService): (r: ResourceRequirements)
    ensures es.spec.resources.Some? ==> r == es.spec.resources.value
    ensures es.spec.resources.None? ==> r == DefaultResources
  {
    es.spec.resources.GetOr(DefaultResources)
  }

  /** One container port per declared port, TCP when the protocol is omitted. */
  function ContainerPortOf(p: ExternalServicePort): (r: ContainerPort) {
    ContainerPort(EffectiveProtocol(p), p.port)
  }

  function DeploymentPortsOf(es: ExternalService): (r: seq<ContainerPort>)
    ensures |r| == |es.spec.ports|
    ensures forall i | 0 <= i < |r| :: r[i] == ContainerPortOf(es.spec.ports[i])
  {
    seq(|es.spec.ports|, i requires 0 <= i < |es.spec.ports| => ContainerPortOf(es.spec.ports[i]))
  }

  /** deploymentPorts: append one container port per declared port. */
  method DeploymentPorts(es: ExternalService) returns (ports: seq<ContainerPort>)
    ensures ports == DeploymentPortsOf(es)
  {
    ports := [];
    for i := 0 to |es.spec.ports|
      invariant |ports| == i
      invariant forall j | 0 <= j < i :: ports[j] == ContainerPortOf(es.spec.ports[j])
    {
      var port := es.spec.ports[i];
      var p := if port.protocol.None? then ProtocolTCP else port.protocol.value;
      ports := ports + [ContainerPort(p, port.port)];
    }
  }

  /** The pod annotations: the common ones plus the config hash and the admin port. */
  function PodAnnotations(es: ExternalService, env: map<string, string>, configHash: string, adminPort: int): (r: map<string, string>) {
    Annotations(es, env)[ConfigHashAnnotation := configHash][AdminPortAnnotation := Itoa(adminPort)]
  }

  /** The readiness probe: GET /ready over HTTP on the admin port. */
  function ReadinessProbe(adminPort: int): (r: Probe) {
    Probe("/ready", IntValue(adminPort), "HTTP", 3, 10, 1, 1)
  }

  /** The pod template for a given admin port. */
  function PodTemplateOf(es: ExternalService, env: map<string, string>, configHash: string, adminPort: int,
                         ports: seq<ContainerPort>): (r: PodTemplate)
  {
    var container := Container(
      "gateway", EnvoyImage(env), "IfNotPresent", ports,
      [VolumeMount(ConfigVolumeName, ConfigMountPath)],
      ["/bin/sleep", "25"],
      "/dev/termination-log", "File",
      ReadinessProbe(adminPort),
      Resources(es),
      [EnvVar("ENVOY_UID", "0")]);
    PodTemplate(
      Labels(es),
      PodAnnotations(es, env, configHash, adminPort),
      PodSpec(
        Tolerations(env), NodeSelector(env), TopologySpread(env, LabelsToSelect(es)),
        [container], "Always", "default-scheduler", 30, "Default",
        [Volume(ConfigVolumeName, es.name, 420)]))
  }

  /** deployment: the desired gateway Deployment; replicas are left to the autoscaler. */
  function DeploymentOf(es: ExternalService, env: map<string, string>, configHash: string): (d: Object)
    requires ConfigMap.AdminPortOf(es).Some?
    ensures d.Key() == ObjectKey(DeploymentKind, Namespace, es.name)
    ensures d.body.DeploymentBody? && d.body.deployment.replicas.None?
  {
    var adminPort := ConfigMap.AdminPortOf(es).value;
    var spec := DeploymentSpec(
      None, 600, 10,
      RollingUpdate(StringValue(LookupEnvOr(env, "ROLLING_UPDATE_MAX_UNAVAILABLE", DefaultRollingUpdate)),
                    StringValue(LookupEnvOr(env, "ROLLING_UPDATE_MAX_SURGE", DefaultRollingUpdate))),
      LabelsToSelect(es),
      PodTemplateOf(es, env, configHash, adminPort, DeploymentPortsOf(es)));
    Object(ObjectMeta(es.name, Namespace, Labels(es), Annotations(es, env)), DeploymentBody(spec, 0))
  }

  /** deployment, building the admin port and the container ports with their loops. */
  method BuildDeployment(es: ExternalService, env: map<string, string>, configHash: string) returns (d: Object)
    requires ConfigMap.AdminPortOf(es).Some?
    ensures d == DeploymentOf(es, env, configHash)
  {
    var adPort := ConfigMap.AdminPort(es);
    var ports := DeploymentPorts(es);
    var maxUnavailable := LookupEnvOr(env, "ROLLING_UPDATE_MAX_UNAVAILABLE", DefaultRollingUpdate);
    var maxSurge := LookupEnvOr(env, "ROLLING_UPDATE_MAX_SURGE", DefaultRollingUpdate);
    var spec := DeploymentSpec(
      None, 600, 10,
      RollingUpdate(StringValue(maxUnavailable), StringValue(maxSurge)),
      LabelsToSelect(es),
      PodTemplateOf(es, env, configHash, adPort.value, ports));
    d := Object(ObjectMeta(es.name, Namespace, Labels(es), Annotations(es, env)), DeploymentBody(spec, 0));
  }

  /**
   * The pods carry the config hash and the admin port, the Deployment itself
   * only the common annotations; so a different config hash is a different
   * pod template, which rolls the pods.
   */
  lemma ConfigHashRollsPods(es: ExternalService, env: map<string, string>, h1: string, h2: string)
    requires ConfigMap.AdminPortOf(es).Some?
    ensures var t := DeploymentOf(es, env, h1).body.deployment.template;
      && t.templateAnnotations[ConfigHashAnnotation] == h1
      && t.templateAnnotations[AdminPortAnnotation] == Itoa(ConfigMap.AdminPortOf(es).value)
      && DeploymentOf(es, env, h1).meta.annotations == Annotations(es, env)
    ensures h1 != h2 ==>
      DeploymentOf(es, env, h1).body.deployment.template != DeploymentOf(es, env, h2).body.deployment.template
  {
    if h1 != h2 {
      var t1 := DeploymentOf(es, env, h1).body.deployment.template;
      var t2 := DeploymentOf(es, env, h2).body.deployment.template;
      assert t1.templateAnnotations[ConfigHashAnnotation] != t2.templateAnnotations[ConfigHashAnnotation];
    }
  }

  /**
   * The readiness probe targets the admin listener, which no TCP port of
   * the service uses; the config volume mounts the ConfigMap named after the
   * ExternalService; the pods select on the gateway label.
   */
  lemma GatewayPodWiring(es: ExternalService, env: map<string, string>, configHash: string)
    requires ConfigMap.AdminPortOf(es).Some?
    ensures var spec := DeploymentOf(es, env, configHash).body.deployment;
      var c := spec.template.podSpec.containers[0];
      && |spec.template.podSpec.containers| == 1
      && c.readinessProbe.port == IntValue(ConfigMap.AdminPortOf(es).value)
      && c.readinessProbe.path == "/ready" && c.readinessProbe.scheme == "HTTP"
      && (forall i | 0 <= i < |es.spec.ports| && ConfigMap.ClaimsAdminPort(es.spec.ports[i]) ::
            c.readinessProbe.port != IntValue(es.spec.ports[i].port))
      && spec.template.podSpec.volumes == [Volume(ConfigVolumeName, es.name, 420)]
      && c.volumeMounts == [VolumeMount(ConfigVolumeName, ConfigMountPath)]
      && c.containerPorts == DeploymentPortsOf(es)
      && spec.selector == LabelsToSelect(es)
      && (forall k | k in spec.selector :: k in spec.template.templateLabels && spec.template.templateLabels[k] == spec.selector[k])
      && spec.replicas.None?
  {
    ConfigMap.AdminPortIsLeastFree(es);
  }

  /** The stored Deployment with the desired metadata merged in and its spec replaced, keeping its replica count. */
  function PatchedDeployment(stored: Object, desired: Object): (r: Object)
    requires desired.body.DeploymentBody?
  {
    var replicas := if stored.body.DeploymentBody? then stored.body.deployment.replicas else None;
    var ready := if stored.body.DeploymentBody? then stored.body.readyReplicas else 0;
    Object(MergedMeta(stored.meta, desired.meta), DeploymentBody(desired.body.deployment.(replicas := replicas), ready))
  }

  /** reconcileDeployment as a state transition. */
  function DeploymentStep(st: State, faults: Faults, desired: Object): (r: Outcome)
    requires WellKeyed(st.objects) && desired.body.DeploymentBody?
  {
    var k := desired.Key();
    Upsert(st, faults, desired, if k in st.objects then PatchedDeployment(st.objects[k], desired) else desired)
  }

  /** reconcileDeployment: create the Deployment, or patch it leaving its replica count to the autoscaler. */
  method ReconcileDeployment(api: ApiServer, desired: Object) returns (err: Option<Error>)
    requires api.Valid() && desired.body.DeploymentBody?
    modifies api
    ensures api.Valid()
    ensures Outcome(api.Snapshot(), err) == DeploymentStep(old(api.Snapshot()), api.faults, desired)
  {
    var d := api.Get(desired.Key());
    if d.Failure? {
      if d.error == NotFound {
        err := api.Create(desired);
        return;
      }
      return Some(d.error);
    }
    var meta := MergeMeta(d.value.meta, desired.meta);
    var patched := Object(meta, PatchedDeployment(d.value, desired).body);
    err := PatchIfNecessary(api, d.value, patched);
    err := IgnoreNotFound(err);
  }

  /**
   * A patch keeps the stored replica count and status, whatever the desired
   * spec says, and takes everything else of the spec from the desired one.
   */
  lemma PatchKeepsReplicas(stored: Object, desired: Object)
    requires stored.body.DeploymentBody? && desired.body.DeploymentBody?
    ensures var p := PatchedDeployment(stored, desired);
      && p.body.deployment.replicas == stored.body.deployment.replicas
      && p.body.readyReplicas == stored.body.readyReplicas
      && p.body.deployment.(replicas := None) == desired.body.deployment.(replicas := None)
      && p.meta.name == stored.meta.name && p.meta.namespace == stored.meta.namespace
  {
  }

  /**
   * Without faults, a step succeeds and leaves the Deployment stored with
   * the desired spec apart from its replica count, at a fixed point of the
   * patch.
   */
  lemma DeploymentStepSettles(st: State, desired: Object)
    requires WellKeyed(st.objects) && desired.body.DeploymentBody? && desired.body.deployment.replicas.None?
    ensures var o := DeploymentStep(st, NoFaults, desired);
      && o.err.None?
      && desired.Key() in o.state.objects
      && o.state.objects[desired.Key()].body.DeploymentBody?
      && o.state.objects[desired.Key()].body.deployment.(replicas := None) == desired.body.deployment
      && PatchedDeployment(o.state.objects[desired.Key()], desired) == o.state.objects[desired.Key()]
  {
    var k := desired.Key();
    if k in st.objects {
      UpsertFaultFree(st, desired, PatchedDeployment(st.objects[k], desired));
      MergedIdempotent(desired.meta.labels, st.objects[k].meta.labels);
      MergedIdempotent(desired.meta.annotations, st.objects[k].meta.annotations);
    } else {
      UpsertFaultFree(st, desired, desired);
      MergedAbsorbed(desired.meta.labels, desired.meta.labels);
      MergedAbsorbed(desired.meta.annotations, desired.meta.annotations);
    }
  }

  /** Without faults, a Deployment stored at a fixed point of the patch is not written again. */
  lemma DeploymentSettledNoWrite(st: State, desired: Object)
    requires WellKeyed(st.objects) && desired.body.DeploymentBody?
    requires desired.Key() in st.objects
    requires PatchedDeployment(st.objects[desired.Key()], desired) == st.objects[desired.Key()]
    ensures DeploymentStep(st, NoFaults, desired) == Outcome(st, None)
  {
    UpsertNoWriteWhenUnchanged(st, desired, st.objects[desired.Key()]);
  }
}
