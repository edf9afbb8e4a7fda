# egress-operator, modelled in Dafny

This project models the egress-operator. The operator is a Kubernetes controller. For each cluster-scoped
`ExternalService`, it runs a dedicated Envoy gateway in a fixed namespace.

A reconcile pass keeps the gateway's objects in line with the `ExternalService`. It updates six objects, in this
order:

- a ConfigMap holding the Envoy bootstrap, plus a hash of its text;
- a Deployment whose pod template carries that hash;
- a HorizontalPodAutoscaler;
- a NetworkPolicy;
- a ClusterIP Service, whose `hijack-dns` label moves through a small state machine as the gateway's pods become
  ready;
- a PodDisruptionBudget, only when that feature is switched on.

Each object is created when it is missing. Otherwise the stored object is patched: labels and annotations are merged
in additively, and the spec is replaced. The Deployment keeps its replica count, and the Service keeps its cluster IP.

The model also covers the companion CoreDNS plugin:

- its controller turns every annotated gateway Service into an exact-name rewrite rule;
- it signals readiness once and can be stopped once;
- the rule renames the first question of a matching query;
- the CoreDNS binary's `init` inserts the plugin's directive right after the first `rewrite` directive.

Modules, one per source file:

- `ExternalServiceTypes` (types.dfy): the ExternalService API type and its defaults.
- `Kube` (kube.dfy): the objects the operator writes, and an `ApiServer` class. The class is a store of objects with
  injected read and write faults.
- `Common` (common.dfy): the shared helpers of the controller file.
- `ConfigMap` and `Envoy` (configmap.dfy, envoy.dfy): the bootstrap compiler. The bootstrap is a datatype tree, and
  its serialisation is a parameter.
- `GatewayDeployment`, `GatewayAutoscaler`, `GatewayNetworkPolicy`, `GatewayService`, `GatewayPdb`: the templates and
  per-object reconciles.
- `Reconciler` (reconciler.dfy): the reconcile sequence, as a class whose methods drive the `ApiServer`.
- `BootstrapProperties`: properties of the bootstrap as a whole.
- `DnsController`, `RewriteRule`, `PluginMain`: the CoreDNS plugin.
- `StrConv` and `Wrappers`: decimal and hex text, and Option/Result.

Each object reconcile is written two ways:

- a method that calls `ApiServer.Get`, `Create` and `Patch`;
- a function on the store's state (`ConfigMapStep`, `DeploymentStep`, …) that the method's postcondition is tied to.

The lemmas are about those functions. Without faults:

- each step leaves its object at a fixed point of the patch;
- a settled step writes nothing;
- the whole reconcile therefore writes nothing when run a second time (`ReconcileIdempotent`).

With any faults, writes happen in step order, and the first error stops the sequence.

Behaviours kept as written. Each is shown by a lemma and is not corrected:

- **The hijack-label switch has no default case.** Take an existing Service whose label is missing or unknown, with
  hijacking on and the pods not ready. The desired labels then carry no hijack key, and the merge keeps the stored
  value (`GatewayService.HijackTransitions`, `GatewayService.PatchedHijackLabel`).
- **UDP listeners ignore IP overrides.** A UDP listener targets the DNS cluster even when IP overrides add an
  aggregate cluster (`BootstrapProperties.UdpListenerIgnoresOverride`).
- **The admin port can collide with a declared port.** A port whose protocol is neither TCP nor UDP (SCTP, say) gets
  a TCP listener. Its port is not excluded from the admin-port search, so both can take port 11000
  (`BootstrapProperties.SctpPortCollidesWithAdmin`).
- **The DNS rules ignore the hijack label.** The plugin builds a rule for every `app=egress-gateway` Service, whatever
  its `hijack-dns` label says (`DnsController.RulesIgnoreHijackLabel`).
- **A service without ports opens every gateway port.** With no declared port the NetworkPolicy's ingress rule lists
  no ports, which Kubernetes reads as every port. Every allowed pod then reaches every port of the gateway, the admin
  listener's included (`GatewayNetworkPolicy.NoPortsOpensEveryPort`).

## Model

| member | source | states |
|---|---|---|
| ExternalServiceTypes.EffectiveProtocol | api/v1/externalservice_types.go:94-98 | an omitted port protocol means TCP; a given one is kept |
| GatewayAutoscaler.AutoscalerOf | controllers/autoscaler.go:38-72 | the HPA targets the apps/v1 Deployment named after the service; min, max and CPU target are the spec's values or 3, 12 and 50 when unset |
| GatewayAutoscaler.AutoscalerDefaults | api/v1/externalservice_types.go:37-47 | an unset spec gives 3 to 12 replicas at a 50% CPU target, with min ≤ max |
| GatewayAutoscaler.ReconcileAutoscaler | controllers/autoscaler.go:17-36 | get, then create when absent or merge-and-patch when present, with NotFound on patch ignored; the store changes exactly as AutoscalerStep says |
| GatewayAutoscaler.AutoscalerStepSettles | controllers/autoscaler.go:22-35 | without faults the stored HPA ends with the desired spec and is a fixed point of the patch |
| GatewayAutoscaler.AutoscalerSettledNoWrite | controllers/autoscaler.go:35 | an HPA already at the patch's fixed point is not written again |
| GatewayAutoscaler.AutoscalerStep | controllers/autoscaler.go:17-36 | the store transition ReconcileAutoscaler is proved equal to; AutoscalerStepSettles and AutoscalerSettledNoWrite give its fixed point |
| GatewayAutoscaler.PatchedAutoscaler | controllers/autoscaler.go:30-33 | the stored HPA with metadata merged and the desired spec; AutoscalerStepSettles shows it is the patch's fixed point |
| StrConv.AtoiOfItoa | controllers/deployment.go:102 | parsing the decimal rendering of any 64-bit integer gives it back, and the rendering of any integer outside 64 bits is rejected |
| StrConv.AtoiRejectsNotDecimal | controllers/deployment.go:102-104 | Atoi fails on every text that is empty, a lone sign, or holds a character that is neither a digit nor a leading sign |
| StrConv.Atoi | controllers/deployment.go:102 | an optional sign then decimal digits within 64 bits, else an error; AtoiOfItoa states it reads back every rendering |
| StrConv.Itoa | controllers/configmap.go:224 | the decimal rendering; AtoiOfItoa and ItoaInjective state it |
| StrConv.FormatHex | controllers/configmap.go:400 | the lower-case hex rendering; ParseFormatHex and DigitsAreDigits state it |
| StrConv.ItoaInjective | controllers/configmap.go:224 | distinct ports render to distinct decimal text, so port names do not clash |
| StrConv.ParseFormatHex | controllers/configmap.go:400 | the lower-case hex rendering of the hash parses back to the hash |
| StrConv.ParseDigitsOfDigits | controllers/configmap.go:400 | the digit rendering in any base 2..16 parses back to the number |
| StrConv.DigitsAreDigits | controllers/configmap.go:400 | every character of a rendering is a digit of its base |
| StrConv.Int32 | controllers/deployment.go:113 | the 32-bit truncation is in range and keeps in-range values |
| StrConv.Uint32 | controllers/configmap.go:324 | the unsigned 32-bit conversion is in range and keeps in-range values |
| StrConv.ToLower | controllers/service.go:66 | lower-casing keeps the length, maps each ASCII capital to its small letter and keeps every other character, so no capital is left |
| Common.Labels | controllers/externalservice_controller.go:103-108 | exactly the two keys app=egress-gateway and egress.monzo.com/gateway=name |
| Common.LabelsToSelect | controllers/externalservice_controller.go:126-130 | only the gateway key, and a sub-map of Labels |
| Common.Annotations | controllers/externalservice_controller.go:110-124 | dns-name is always present; topology-mode is present iff the environment switch is "true", with the spec's mode or "Auto" |
| Common.Merged | controllers/externalservice_controller.go:167-171 | the merge has the union of the keys, takes every `from` value, and keeps every other `to` value |
| Common.MergeMap | controllers/externalservice_controller.go:167-171 | the loop computes Merged |
| Common.MergedIdempotent | controllers/externalservice_controller.go:167-171 | merging the same map twice changes nothing more |
| Common.MergedAbsorbed | controllers/externalservice_controller.go:167-171 | merging a map already contained in the target leaves it unchanged |
| Common.MergeMeta | controllers/deployment.go:37-38 | labels and annotations are merged into the stored metadata, which keeps name and namespace |
| Common.IgnoreNotFound | controllers/externalservice_controller.go:143-148 | NotFound becomes success; every other error is returned unchanged |
| Common.PatchIfNecessary | controllers/externalservice_controller.go:152-165 | no write when the patched object equals the stored one; otherwise one patch, as the store's patch says |
| Common.Upsert | controllers/poddisruptionbudget.go:15-35 | get, then create or patch: only the object's own key changes, at most one write is recorded, and well-keyedness is kept |
| Common.UpsertFaultFree | controllers/poddisruptionbudget.go:21-34 | without faults the object ends stored, as desired when it was absent and as patched when present |
| Common.UpsertNoWriteWhenUnchanged | controllers/externalservice_controller.go:158-160 | an object already equal to its patch causes no write |
| Kube.ApiServer.GetExternalService | controllers/externalservice_controller.go:53-60 | the ExternalService stored under the request name, NotFound when there is none, or the injected read error; the store is unchanged |
| Kube.ApiServer.Get | controllers/configmap.go:77-82 | the stored object under its key, NotFound when absent, or the injected read error |
| Kube.ApiServer.Create | controllers/configmap.go:77-82 | the object is stored with one Created write; an existing key or a write fault is an error and changes nothing |
| Kube.ApiServer.Patch | controllers/externalservice_controller.go:164 | the stored object is replaced with one Patched write; a missing key is NotFound and a write fault changes nothing |
| ConfigMap.ProtocolToEnvoy | controllers/configmap.go:92-103 | UDP exactly when the port says UDP; absent and every other protocol become TCP |
| ConfigMap.FirstFreeIsLeast | controllers/configmap.go:114-118 | the search finds the least value from its start that is not taken, or none when all are taken |
| ConfigMap.AdminPortIsLeastFree | controllers/configmap.go:105-121 | the admin port is the least value in [11000, 32768) claimed by no TCP or protocol-less port; it is none iff every value is claimed |
| ConfigMap.AdminPort | controllers/configmap.go:105-121 | the loop returns AdminPortOf, and exhaustion is an explicit None instead of a panic |
| ConfigMap.AdminPortOf | controllers/configmap.go:105-121 | the admin port, or none where the source panics; AdminPortIsLeastFree states it is the least free port from 11000 |
| ConfigMap.ClusterAccessLog | controllers/configmap.go:173-178 | one stdout access log, JSON iff the cluster JSON flag is set, else the cluster text format |
| ConfigMap.AdminAccessLog | controllers/configmap.go:180-185 | one stdout access log, JSON iff the admin JSON flag is set, else the admin text format |
| ConfigMap.OverrideEndpoints | controllers/configmap.go:411-432 | one endpoint per override IP, in order |
| ConfigMap.GenerateOverrideCluster | controllers/configmap.go:403-471 | the loop builds the static override cluster, whose endpoint i has address ipOverride[i] |
| ConfigMap.WithCircuitBreakers | controllers/configmap.go:288-300 | without a connection limit the clusters are unchanged; with one, every cluster, in order and under its own name, carries one threshold whose max connections is that limit |
| ConfigMap.AllListeners | controllers/configmap.go:217-365 | one listener per declared port, in spec order |
| ConfigMap.EnvoyConfigOf | controllers/configmap.go:187-381 | rendering fails with the admin-port error when no admin port is free, and succeeds only when one is |
| ConfigMap.BuildPortClusters | controllers/configmap.go:217-300 | the per-port loop body builds that port's clusters and the listener's target |
| ConfigMap.BuildPortListener | controllers/configmap.go:302-362 | the per-port switch builds the TCP or UDP listener |
| ConfigMap.EnvoyConfig | controllers/configmap.go:187-381 | the loop over ports builds the bootstrap that EnvoyConfigOf describes |
| ConfigMap.BuildConfigMap | controllers/configmap.go:383-401 | returns the ConfigMap and hash of the rendered bootstrap, or the rendering error |
| ConfigMap.ConfigMapHashMatchesData | controllers/configmap.go:383-401 | success iff rendering succeeds; the ConfigMap holds the text under envoy.yaml; the hash parses back to the FNV of that text |
| ConfigMap.ReconcileConfigMap | controllers/configmap.go:72-90 | get, then create or merge-and-patch; the store changes as ConfigMapStep says |
| ConfigMap.ConfigMapStepSettles | controllers/configmap.go:84-89 | without faults the stored ConfigMap ends with the desired data and is a fixed point of the patch |
| ConfigMap.ConfigMapSettledNoWrite | controllers/configmap.go:89 | a settled ConfigMap is not written again |
| ConfigMap.ConfigMapOf | controllers/configmap.go:383-401 | the ConfigMap and hash of a rendered text, or the rendering error; ConfigMapHashMatchesData states them |
| ConfigMap.PortClusters | controllers/configmap.go:217-300 | a port's clusters; PortClustersShape, DnsClusterFields and OverrideClusterEndpoints state them |
| ConfigMap.PortListener | controllers/configmap.go:302-362 | a port's listener; TcpListenerTarget, UdpListenerIgnoresOverride and ListenerTargetDefined state it |
| ConfigMap.BootstrapOf | controllers/configmap.go:187-381 | the whole bootstrap; AllClustersCount, AllListeners and TargetsAreDefined state it |
| ConfigMap.ConfigMapStep | controllers/configmap.go:72-90 | the store transition ReconcileConfigMap is proved equal to; ConfigMapStepSettles and ConfigMapSettledNoWrite give its fixed point |
| ConfigMap.PatchedConfigMap | controllers/configmap.go:84-87 | the stored ConfigMap with metadata merged and the desired data; ConfigMapStepSettles shows it is the patch's fixed point |
| BootstrapProperties.Names | controllers/configmap.go:224-227 | the cluster names, one per cluster, in order |
| BootstrapProperties.PortClustersShape | controllers/configmap.go:226-300 | without overrides one LOGICAL_DNS cluster; with overrides [aggregate, override, dns] and the aggregate lists [override, dns]; every cluster's circuit breakers are one threshold of the spec's max connections when it is set, and none otherwise |
| BootstrapProperties.PortClustersCount | controllers/configmap.go:276-286 | each port contributes 1 cluster, or 3 with overrides |
| BootstrapProperties.DnsClusterFields | controllers/configmap.go:217-272 | the DNS cluster is LOGICAL_DNS, 1 s connect timeout, round robin, IPv4 only, keepalive 3/30/5; a refresh rate iff the spec's is non-zero, and then that one; the spec's respect-TTL flag; one endpoint, the DNS name on the port; the override cluster shares rate and TTL flag |
| BootstrapProperties.ClusterNameInjective | controllers/configmap.go:224 | two 32-bit ports give the same cluster name iff they have the same number and the same Envoy protocol |
| BootstrapProperties.OverrideClusterEndpoints | controllers/configmap.go:411-432 | override endpoint i is ipOverride[i] at the port, over the port's protocol |
| BootstrapProperties.AllClustersCount | controllers/configmap.go:364 | the bootstrap has clusters-per-port times ports clusters |
| BootstrapProperties.AllClustersFromPorts | controllers/configmap.go:364 | every cluster comes from some declared port |
| BootstrapProperties.PortClustersInAll | controllers/configmap.go:364 | every port's clusters are in the bootstrap |
| BootstrapProperties.ListenerTargetDefined | controllers/configmap.go:302-362 | every listener has one filter, whose target is a cluster of the bootstrap |
| ConfigMap.ClusterName | controllers/configmap.go:224 | "<name>_<TCP or UDP>_<port>"; ClusterNameInjective states that distinct ports and protocols give distinct names |
| ConfigMap.DnsCluster | controllers/configmap.go:217-272 | the LOGICAL_DNS cluster of a port; DnsClusterFields states each of its fields |
| ConfigMap.AggregateCluster | controllers/configmap.go:473-494 | a CLUSTER_PROVIDED cluster with a 1 s timeout that tries the named clusters in order; PortClustersShape and AggregateTargetsDefined state it (the MarshalAny error path is left out) |
| BootstrapProperties.AggregateTargetsDefined | controllers/configmap.go:473-494 | every cluster an aggregate lists is defined in the bootstrap |
| BootstrapProperties.TargetsAreDefined | controllers/configmap.go:187-381 | in the whole bootstrap no listener and no aggregate names an undefined cluster |
| BootstrapProperties.UdpListenerIgnoresOverride | controllers/configmap.go:333-339 | a UDP listener targets the DNS cluster, not the aggregate, even with overrides |
| BootstrapProperties.TcpListenerTarget | controllers/configmap.go:285-310 | a TCP listener targets the aggregate iff overrides are given, else the DNS cluster |
| BootstrapProperties.SctpPortCollidesWithAdmin | controllers/configmap.go:100-109 | an SCTP port 11000 does not stop the admin listener from taking 11000 too |
| BootstrapProperties.UdpAndTcpAdminPort | controllers/configmap.go:105-118 | a UDP port and a TCP port give admin port 11000 |
| BootstrapProperties.UdpAndTcpClusters | controllers/configmap.go:224-272 | the UDP and TCP ports give clusters foo_UDP_100 and foo_TCP_101 with the DNS name as endpoint |
| BootstrapProperties.UdpAndTcpListeners | controllers/configmap.go:302-365 | the UDP and TCP ports give a UDP proxy and a TCP proxy listener on 0.0.0.0, in spec order |
| GatewayDeployment.LookupEnvOr | controllers/deployment.go:255-261 | the variable's value when set and non-empty, else the default |
| GatewayDeployment.SchedulingOptions | controllers/deployment.go:69-135 | a toleration or node selector only when both its variables are set; spread constraints only when ENABLE_POD_TOPOLOGY_SPREAD is "true", at most two, each selecting the gateway's pods with ScheduleAnyway and a 32-bit skew; the toleration is the two variables' key and value with effect NoSchedule |
| GatewayDeployment.TopologySpreadOrder | controllers/deployment.go:96-135 | with spreading on, the zone constraint comes first iff its skew variable is set and the hostname constraint last iff its own is; keys default to topology.kubernetes.io/zone and kubernetes.io/hostname |
| GatewayDeployment.EnvoyImage | controllers/deployment.go:69-72 | ENVOY_IMAGE when it is set, even empty, else envoyproxy/envoy:v1.25.9 |
| GatewayDeployment.MaxSkewValues | controllers/deployment.go:102-113 | the skew of any 64-bit decimal is its int32 wrap (2^32 gives 0, 2^31 gives -2^31), a 32-bit one is used as is, and a decimal outside 64 bits fails to parse and becomes 1 |
| GatewayDeployment.MaxSkewFallback | controllers/deployment.go:102-104 | every skew text that is not an optionally signed run of digits becomes 1 (e.g. "", "-", "one", "2x") |
| GatewayDeployment.Tolerations | controllers/deployment.go:76-85 | one NoSchedule toleration exactly when both taint variables are set; SchedulingOptions states it |
| GatewayDeployment.NodeSelector | controllers/deployment.go:87-94 | a one-entry selector exactly when both selector variables are set; SchedulingOptions states it |
| GatewayDeployment.SpreadConstraint | controllers/deployment.go:99-115 | one ScheduleAnyway constraint when the skew variable is set, with its key variable or the default key and MaxSkew of the text; TopologySpreadOrder states it |
| GatewayDeployment.TopologySpread | controllers/deployment.go:96-135 | the zone then the hostname constraint, only when ENABLE_POD_TOPOLOGY_SPREAD is "true"; SchedulingOptions and TopologySpreadOrder state it |
| GatewayDeployment.Resources | controllers/deployment.go:140-154 | the spec's resources when set, else 100m/50Mi requests and 2/1Gi limits |
| GatewayDeployment.DeploymentPortsOf | controllers/deployment.go:45-61 | one container port per declared port, in order |
| GatewayDeployment.DeploymentPorts | controllers/deployment.go:45-61 | the loop computes DeploymentPortsOf |
| GatewayDeployment.DeploymentOf | controllers/deployment.go:63-253 | a Deployment named after the service in the gateway namespace, leaving the replica count unset |
| GatewayDeployment.BuildDeployment | controllers/deployment.go:63-253 | builds DeploymentOf |
| GatewayDeployment.ConfigHashRollsPods | controllers/deployment.go:64-180 | the pod template carries the config hash and the decimal admin port, and the Deployment's own annotations do not; a different hash gives a different template |
| GatewayDeployment.GatewayPodWiring | controllers/deployment.go:176-245 | one container, probed by HTTP GET /ready on the admin port, which no TCP port uses; the ConfigMap is mounted; its ports are DeploymentPortsOf; the selector matches the template's labels |
| GatewayDeployment.ReconcileDeployment | controllers/deployment.go:23-43 | get, then create or merge-and-patch keeping replicas; the store changes as DeploymentStep says |
| GatewayDeployment.PatchKeepsReplicas | controllers/deployment.go:36-40 | the patch keeps the stored replicas and status, takes the desired spec otherwise, and keeps the name |
| GatewayDeployment.DeploymentStepSettles | controllers/deployment.go:29-42 | without faults the stored Deployment ends with the desired spec, up to replicas, at the patch's fixed point |
| GatewayDeployment.DeploymentSettledNoWrite | controllers/deployment.go:42 | a settled Deployment is not written again |
| GatewayDeployment.DeploymentStep | controllers/deployment.go:23-43 | the store transition ReconcileDeployment is proved equal to; DeploymentStepSettles and DeploymentSettledNoWrite give its fixed point |
| GatewayDeployment.PatchedDeployment | controllers/deployment.go:36-40 | the stored Deployment with metadata merged and the desired spec but the stored replicas; PatchKeepsReplicas states it |
| GatewayDeployment.MaxSkew | controllers/deployment.go:102-113 | Atoi then the int32 conversion, 1 when the text does not parse; MaxSkewValues states it |
| GatewayDeployment.PodTemplateOf | controllers/deployment.go:177-250 | the pod template; GatewayPodWiring and ConfigHashRollsPods state its probe, mount, ports, labels and annotations |
| GatewayNetworkPolicy.NetworkPolicyPortsOf | controllers/networkpolicy.go:40-56 | one policy port per declared port, in order |
| GatewayNetworkPolicy.NetworkPolicyPorts | controllers/networkpolicy.go:40-56 | the loop computes NetworkPolicyPortsOf |
| GatewayNetworkPolicy.NetworkPolicyOf | controllers/networkpolicy.go:58-87 | a NetworkPolicy named after the service in the gateway namespace |
| GatewayNetworkPolicy.BuildNetworkPolicy | controllers/networkpolicy.go:58-87 | builds NetworkPolicyOf |
| GatewayNetworkPolicy.AdmittedWhenAllowed | controllers/networkpolicy.go:40-87 | a pod labelled allowed-{name}=true is admitted on every declared port and protocol, and on every port when none is declared |
| GatewayNetworkPolicy.AllowedWhenAdmitted | controllers/networkpolicy.go:40-87 | an admitted connection comes from an allowed pod, to a declared port and protocol unless no port is declared |
| GatewayNetworkPolicy.NetworkPolicyAdmitsExactly | controllers/networkpolicy.go:40-87 | the policy selects the gateway's pods, is ingress only, allows any namespace, and admits exactly allowed pods, on the declared ports, or on every port when none is declared (a rule without ports covers all) |
| GatewayNetworkPolicy.NoPortsOpensEveryPort | controllers/networkpolicy.go:40-87 | with no declared port, every allowed pod is admitted to every protocol and port |
| GatewayNetworkPolicy.NetworkPolicyStep | controllers/networkpolicy.go:19-38 | the store transition ReconcileNetworkPolicy is proved equal to; NetworkPolicyStepSettles and NetworkPolicySettledNoWrite give its fixed point |
| GatewayNetworkPolicy.PatchedNetworkPolicy | controllers/networkpolicy.go:32-35 | the stored policy with labels and annotations merged in and the desired spec; NetworkPolicyStepSettles shows it is the patch's fixed point |
| GatewayNetworkPolicy.ReconcileNetworkPolicy | controllers/networkpolicy.go:19-38 | get, then create or merge-and-patch; the store changes as NetworkPolicyStep says |
| GatewayNetworkPolicy.NetworkPolicyStepSettles | controllers/networkpolicy.go:24-37 | without faults the stored policy ends with the desired spec at the patch's fixed point |
| GatewayNetworkPolicy.NetworkPolicySettledNoWrite | controllers/networkpolicy.go:37 | a settled policy is not written again |
| GatewayPdb.PdbOf | controllers/poddisruptionbudget.go:37-55 | the selector is the full Labels, app included, and max unavailable is the string "25%" |
| GatewayPdb.ReconcilePdb | controllers/poddisruptionbudget.go:15-35 | get, then create or merge-and-patch; the store changes as PdbStep says |
| GatewayPdb.PdbStepSettles | controllers/poddisruptionbudget.go:21-34 | without faults the stored PDB ends with the desired spec at the patch's fixed point |
| GatewayPdb.PdbSettledNoWrite | controllers/poddisruptionbudget.go:34 | a settled PDB is not written again |
| GatewayPdb.PdbStep | controllers/poddisruptionbudget.go:15-35 | the store transition ReconcilePdb is proved equal to; PdbStepSettles and PdbSettledNoWrite give its fixed point |
| GatewayPdb.PatchedPdb | controllers/poddisruptionbudget.go:29-32 | the stored PDB with metadata merged and the desired spec; PdbStepSettles shows it is the patch's fixed point |
| GatewayService.HijackTransitions | controllers/service.go:78-103 | "false" iff hijacking is off; "true" iff on and ready or already "true"; waiting iff on, not ready and absent, "false" or waiting; no label iff on, not ready and the stored label is unknown |
| GatewayService.HijackIsSticky | controllers/service.go:96-98 | once "true", the label stays "true" even when the pods are not ready |
| GatewayService.HijackTable | controllers/service_test.go:20-89 | the label for each combination of switch, readiness and previous label |
| GatewayService.HijackValue | controllers/service.go:78-103 | the hijack-label switch as written, with no default case; HijackTransitions gives each output as an if-and-only-if |
| GatewayService.ServicePortsOf | controllers/service.go:56-74 | one service port per declared port, in order |
| GatewayService.ServicePorts | controllers/service.go:56-74 | the loop computes ServicePortsOf |
| GatewayService.ServicePortsForwardUnchanged | controllers/service.go:58-69 | each service port forwards its port to the same target port, with an absent protocol as TCP, and is named name-protocol in lower case-port (name-tcp-port without a protocol) |
| GatewayService.ServiceOf | controllers/service.go:105-118 | a Service named after the service in the gateway namespace |
| GatewayService.ServiceUpsertFrame | controllers/service.go:29-53 | only the Service's key changes, and at most one write is recorded |
| GatewayService.ServiceStepFrame | controllers/service.go:21-54 | reading the Deployment writes nothing; only the Service's key changes |
| GatewayService.ReconcileService | controllers/service.go:21-54 | reads readiness, then creates or patches the Service; the store changes as ServiceStep says |
| GatewayService.UpsertService | controllers/service.go:29-53 | the create-or-patch half, as ServiceUpsert says |
| GatewayService.ServiceCreatedWhenAbsent | controllers/service.go:22-37 | with no Service stored, the desired one is created; ready is exactly "stored Deployment with ready replicas", and a missing Deployment is not ready |
| GatewayService.ServicePatchedWhenPresent | controllers/service.go:22-53 | a stored Service is patched with the desired one for that readiness, and keeps its cluster IP |
| GatewayService.PatchedHijackLabel | controllers/service.go:48-103 | the patch sets the switch's label, or keeps the stored label when the switch sets none |
| GatewayService.HijackStable | controllers/service.go:48-103 | the switch gives the same answer on the patched Service as on the stored one |
| GatewayService.HijackStableCreated | controllers/service.go:32-103 | the switch gives the same answer on a created Service as on none |
| GatewayService.PatchedServiceSettles | controllers/service.go:42-53 | patching a patched Service again changes nothing |
| GatewayService.CreatedServiceSettles | controllers/service.go:32-53 | patching a freshly created Service changes nothing |
| GatewayService.ServiceUpsertSettles | controllers/service.go:29-53 | without faults the stored Service ends at the patch's fixed point |
| GatewayService.ServiceSettledNoWrite | controllers/service.go:42-53 | a settled Service is not written again |
| GatewayService.ServiceStepIdempotent | controllers/service.go:21-54 | reconciling the Service twice without faults writes nothing the second time |
| GatewayService.ServiceStep | controllers/service.go:21-54 | the store transition ReconcileService is proved equal to; ServiceStepFrame, ServiceCreatedWhenAbsent and ServicePatchedWhenPresent state its effect |
| GatewayService.ServiceUpsert | controllers/service.go:29-53 | create when absent, else patch; ServiceUpsertFrame and ServiceUpsertSettles give its frame and fixed point |
| GatewayService.PatchedService | controllers/service.go:47-51 | the stored Service with metadata merged, the desired spec and the stored cluster IP; ServicePatchedWhenPresent and PatchedServiceSettles state it |
| Reconciler.PlanOf | controllers/externalservice_controller.go:64-98 | the plan carries the rendered ConfigMap, and a PDB iff PDBs are enabled |
| Reconciler.PlanOfWellPlanned | controllers/externalservice_controller.go:62-98 | every planned object has its kind and the request's name in the gateway namespace, and the Deployment leaves replicas unset |
| Reconciler.KindAt | controllers/externalservice_controller.go:68-98 | the object kind reconciled at each step of the sequence |
| Reconciler.StepOutcome | controllers/externalservice_controller.go:68-98 | each step keeps the store well keyed |
| Reconciler.ReconcileWithoutExternalService | controllers/externalservice_controller.go:53-60 | a missing ExternalService is success and touches nothing; a failed read returns its error and touches nothing |
| Reconciler.RenderFailureWritesNothing | controllers/externalservice_controller.go:64-67 | a rendering error is returned before anything is written |
| Reconciler.StepFrame | controllers/externalservice_controller.go:68-98 | each step changes only its own object and records at most one write to it |
| Reconciler.StepSettles | controllers/externalservice_controller.go:68-98 | without faults each step succeeds and leaves its object settled |
| Reconciler.StepSettledNoWrite | controllers/externalservice_controller.go:68-98 | a settled step writes nothing |
| Reconciler.FromSettles | controllers/externalservice_controller.go:68-100 | without faults the rest of the sequence succeeds, keeps the earlier objects, and leaves every later object settled |
| Reconciler.FromSettledNoWrite | controllers/externalservice_controller.go:68-100 | a settled rest of the sequence writes nothing |
| Reconciler.SettledStoresPlan | controllers/externalservice_controller.go:64-98 | a settled store holds every planned object's spec, the Deployment's up to replicas, and the Service |
| Reconciler.SpecIdempotent | controllers/externalservice_controller.go:62-100 | reconciling again without faults returns the same outcome and writes nothing |
| Reconciler.ReconcileIdempotent | controllers/externalservice_controller.go:50-101 | the whole Reconcile is idempotent without faults |
| Reconciler.FaultFreeReconcile | controllers/externalservice_controller.go:64-76 | without faults the ConfigMap holds the rendered text, and the Deployment's config-hash annotation parses to the FNV of that text |
| Reconciler.FaultFreeReconcileStoresGateway | controllers/externalservice_controller.go:78-98 | without faults the HPA, NetworkPolicy and, when enabled, PDB hold their templates' specs, and the Service exists |
| Reconciler.FromWritesInOrder | controllers/externalservice_controller.go:68-100 | the rest of the sequence writes gateway objects in step order only |
| Reconciler.ReconcileWritesInOrder | controllers/externalservice_controller.go:62-100 | under any faults, writes go to ConfigMap, Deployment, HPA, NetworkPolicy, Service, PDB in that order, each at most once, and earlier writes are kept |
| Reconciler.ReconcileUntil | controllers/externalservice_controller.go:68-98 | the steps before a given one, stopping at the first error; it keeps the store well keyed |
| Reconciler.FirstErrorStops | controllers/externalservice_controller.go:68-100 | a run that ends in an error ends at one step k: every earlier step succeeded and the outcome is exactly step k's, so no later step ran |
| Reconciler.UntilWritesInOrder | controllers/externalservice_controller.go:68-98 | the steps before k write only their own objects, in step order, each ranked below k |
| Reconciler.UntilKept | controllers/externalservice_controller.go:68-98 | the steps before k keep every object that is not theirs |
| Reconciler.ReconcileStopsAtFirstError | controllers/externalservice_controller.go:62-100 | a failing reconcile returns the error of one step k after every earlier step succeeded; only the objects of steps up to k were written, in order, and no other object changed |
| Reconciler.ReconcileOutcome | controllers/externalservice_controller.go:50-101 | Reconcile as a store transition; ReconcileWithoutExternalService, ReconcileIdempotent and the Reconcile method's postcondition state what it does |
| Reconciler.ReconcileSpec | controllers/externalservice_controller.go:62-100 | the reconcile once the ExternalService is read; RenderFailureWritesNothing, FaultFreeReconcile, SpecIdempotent and ReconcileWritesInOrder state it |
| Reconciler.ReconcileFrom | controllers/externalservice_controller.go:68-100 | the steps from one on, ending at the first error; FromSettles, FromWritesInOrder and FirstErrorStops state it |
| Reconciler.ExternalServiceReconciler.Reconcile | controllers/externalservice_controller.go:50-101 | the method's effect on the store and its error are ReconcileOutcome's |
| Reconciler.ExternalServiceReconciler.ReconcileStep | controllers/externalservice_controller.go:68-98 | one step of the sequence, as StepOutcome says |
| Reconciler.ExternalServiceReconciler.ReconcileSteps | controllers/externalservice_controller.go:68-100 | the rest of the sequence, stopping at the first error, as ReconcileFrom says |
| DnsController.RulesFor | coredns-plugin/controller.go:45-80 | at most one rule per item |
| DnsController.RuleFor | coredns-plugin/controller.go:48-79 | one Service's rule, if any; RuleForService and SkippedItemDropsOnlyItself state it |
| DnsController.RulesForAppend | coredns-plugin/controller.go:45-80 | the rules of two item lists are each list's rules, in order |
| DnsController.SkippedItemDropsOnlyItself | coredns-plugin/controller.go:49-67 | a nil, unannotated or uncompilable item is dropped without changing the other rules |
| DnsController.RuleForService | coredns-plugin/controller.go:53-79 | a rule exists iff the dns-name annotation is present and the target compiles; it stops, maps the normalised dns-name to the normalised {name}.{namespace}.svc.{zone}, and its response rule is active, of type name, on the target, with the dns-name as replacement |
| DnsController.QueryReachesGateway | coredns-plugin/controller.go:59-79 | a query for a Service's dns-name is rewritten to the Service's in-cluster name, and answers are renamed back |
| DnsController.Members | coredns-plugin/controller.go:85-90 | the store holds exactly the Services of the namespace labelled app=egress-gateway: every listed one is such a Service and every such Service is listed |
| DnsController.RulesIgnoreHijackLabel | coredns-plugin/controller.go:85 | relabelling hijack-dns on every Service leaves the rules unchanged |
| DnsController.DnsControl.constructor | coredns-plugin/controller.go:34-39 | a new controller is not shut down, not ready, and has delivered nothing |
| DnsController.DnsControl.OnStoreUpdate | coredns-plugin/controller.go:40-83 | closes ready on the first update only, and delivers the complete, possibly empty, rule list of the items on every update |
| DnsController.DnsControl.Stop | coredns-plugin/controller.go:116-129 | the first call closes the stop channel once and succeeds; later calls return "shutdown already in progress" and change nothing |
| DnsController.StopTwice | coredns-plugin/controller.go:116-129 | stopping twice closes the stop channel exactly once and fails the second time |
| DnsController.UpdateTwice | coredns-plugin/controller.go:40-82 | two updates close ready once and deliver two rule lists, in order |
| RewriteRule.Rewrite | coredns-plugin/rewrite_rule.go:19-27 | renames the first question in place on an exact match, as Rewritten says |
| RewriteRule.RewriteOnExactMatch | coredns-plugin/rewrite_rule.go:19-27 | RewriteDone iff from equals the request name; then only question 0's name becomes to; otherwise RewriteIgnored with nothing changed |
| RewriteRule.RewriteTwice | coredns-plugin/rewrite_rule.go:21-26 | a rewritten query is not rewritten again unless its new name reads as from |
| RewriteRule.ExactNameRule.Mode | coredns-plugin/rewrite_rule.go:30 | the rule's next action; RuleForService states that a built rule's is "stop" |
| RewriteRule.ExactNameRule.GetResponseRule | coredns-plugin/rewrite_rule.go:33 | the embedded response rule; QueryReachesGateway states it maps the rewritten name back to the query's |
| PluginMain.FirstIndex | coredns-plugin/cmd/main.go:13-16 | the first position of a directive, or none iff it is absent |
| PluginMain.InsertedAfterFirstRewrite | coredns-plugin/cmd/main.go:11-19 | no rewrite leaves the list unchanged; otherwise the plugin lands right after the first rewrite, the list grows by one, and removing it gives back the list |
| PluginMain.OnlyFirstRewrite | coredns-plugin/cmd/main.go:16 | later rewrite directives are kept as they are, after the plugin |
| PluginMain.Directives.Init | coredns-plugin/cmd/main.go:11-19 | the loop with its break leaves the directives as InsertAfterFirstRewrite says |

## Left out

- Serialisation of the bootstrap to JSON and then YAML is a parameter (`ConfigMap.Serializer`) that may fail. The
  protobuf `Any` wrapping of filter and cluster configs cannot fail in the model.
- The FNV-1a hash is a parameter (`ConfigMap.Hash32`), a function into 32-bit unsigned values (`ConfigMap.HashValue`). Its result is rendered in lower-case hex by the model.
- The access-log formats are the constant texts and field map. Building them into protobuf structs is left out.
- The Kubernetes client's reads, creates and patches become an `ApiServer` store with injected per-key faults.
  `SetControllerReference`, owner references, garbage collection and retries are left out. A merge patch is "empty"
  exactly when the patched object equals the stored one.
- Faults are injected per object, not per call: two reads of the same object in one reconcile (the Deployment is read
  by the Service step and again by the Deployment step) fail or succeed together.
- `ConfigMap.AggregateCluster`: cannot fail; the `MarshalAny` error path of `generateAggregateCluster` is left out
  with the rest of the protobuf building.
- `Common.MergeMap`: does not model the panic when the target is a nil Go map. Dafny maps are never nil, so a stored
  object without labels or annotations merges as if it had empty ones.
- Environment variables are a map parameter. `strconv.Atoi` is modelled as decimal parsing, and resource quantities
  stay text.
- `StrConv.ToLower`: does not model Unicode case folding, only ASCII, which is all protocol names need.
- The Service's `SessionAffinity` and `Type` are kept as text constants.
- The reconcile reads the ExternalService under the request's name. The request namespace is re-targeted to the
  gateway namespace by using that namespace in every object key.
- `Reconciler.ExternalServiceReconciler.ReconcileSteps`: runs the straight-line sequence of six calls as recursion
  over the step index, with the same order and the same early return.
- The CoreDNS watch machinery is left out: the reflector, the undelta store, list/watch, `Run`, and the mutex in
  coredns-plugin/egress_operator.go. The store's contents are an input to `OnStoreUpdate`. The rules callback is
  recorded as the list of delivered rule lists.
- The name normalisation, regular-expression compilation and request name of CoreDNS are parameters. A compiled
  pattern is kept as its source text, and how the rewrite plugin applies response rules is left out.
- `RewriteRule.Rewrite`: requires a request with at least one question, since CoreDNS serves only such queries;
  the library's handling of a request without questions is not modelled.
- coredns-plugin/setup.go and main.go are not part of this model. They cover directive parsing, client
  construction, the startup wait, flag parsing and manager wiring.
