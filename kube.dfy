/**
 * The Kubernetes side the operator talks to: the fields of the API objects it
 * generates, and an API server holding the stored objects. The server is a
 * map from object key to object; Get, Create and Patch read and write it, a
 * log records every write, and injected faults stand for the backend errors
 * a real client can return.
 */
module Kube {
  import opened Wrappers
  import opened ExternalServiceTypes

  /** The namespace every generated object lives in. */
  const Namespace: string := "egress-operator-system"

  /** A client error: NotFound, or any other failure. */
  datatype Error = NotFound | Failed(reason: string)

  datatype IntOrString = IntValue(intVal: int) | StringValue(strVal: string)

  datatype ObjectMeta = ObjectMeta(
    name: string,
    namespace: string,
    labels: map<string, string>,
    annotations: map<string, string>)

  // Deployment

  datatype Toleration = Toleration(key: string, value: string, effect: string)

  datatype TopologySpreadConstraint = TopologySpreadConstraint(
    topologyKey: string,
    whenUnsatisfiable: string,
    maxSkew: int,
    labelSelector: map<string, string>)

  datatype ContainerPort = ContainerPort(protocol: string, containerPort: int)

  /** A readiness probe performing an HTTP GET. */
  datatype Probe = Probe(
    path: string,
    port: IntOrString,
    scheme: string,
    failureThreshold: int,
    periodSeconds: int,
    successThreshold: int,
    timeoutSeconds: int)

  datatype VolumeMount = VolumeMount(mountName: string, mountPath: string)

  datatype EnvVar = EnvVar(envName: string, envValue: string)

  datatype Container = Container(
    containerName: string,
    image: string,
    imagePullPolicy: string,
    containerPorts: seq<ContainerPort>,
    volumeMounts: seq<VolumeMount>,
    preStopCommand: seq<string>,
    terminationMessagePath: string,
    terminationMessagePolicy: string,
    readinessProbe: Probe,
    resources: ResourceRequirements,
    env: seq<EnvVar>)

  /** A volume backed by the ConfigMap `configMapName`. */
  datatype Volume = Volume(volumeName: string, configMapName: string, defaultMode: int)

  datatype PodSpec = PodSpec(
    tolerations: seq<Toleration>,
    nodeSelector: Option<map<string, string>>,
    topologySpreadConstraints: seq<TopologySpreadConstraint>,
    containers: seq<Container>,
    restartPolicy: string,
    schedulerName: string,
    terminationGracePeriodSeconds: int,
    dnsPolicy: string,
    volumes: seq<Volume>)

  datatype PodTemplate = PodTemplate(
    templateLabels: map<string, string>,
    templateAnnotations: map<string, string>,
    podSpec: PodSpec)

  /** The RollingUpdate strategy. */
  datatype DeploymentStrategy = RollingUpdate(maxUnavailable: IntOrString, maxSurge: IntOrString)

  datatype DeploymentSpec = DeploymentSpec(
    replicas: Option<int>,
    progressDeadlineSeconds: int,
    revisionHistoryLimit: int,
    strategy: DeploymentStrategy,
    selector: map<string, string>,
    template: PodTemplate)

  // Service

  datatype ServicePort = ServicePort(
    portName: string,
    portProtocol: string,
    port: int,
    targetPort: IntOrString)

  datatype ServiceSpec = ServiceSpec(
    serviceSelector: map<string, string>,
    servicePorts: seq<ServicePort>,
    sessionAffinity: string,
    serviceType: string,
    clusterIP: string)

  // HorizontalPodAutoscaler

  datatype CrossVersionObjectReference = CrossVersionObjectReference(
    apiVersion: string,
    targetKind: string,
    targetName: string)

  datatype AutoscalerSpec = AutoscalerSpec(
    scaleTargetRef: CrossVersionObjectReference,
    minReplicas: int,
    maxReplicas: int,
    targetCPUUtilizationPercentage: int)

  // NetworkPolicy

  /** A peer; an empty namespace selector selects every namespace. */
  datatype NetworkPolicyPeer = NetworkPolicyPeer(
    podSelector: map<string, string>,
    namespaceSelector: map<string, string>)

  datatype NetworkPolicyPort = NetworkPolicyPort(policyProtocol: string, policyPort: IntOrString)

  datatype IngressRule = IngressRule(from: seq<NetworkPolicyPeer>, ingressPorts: seq<NetworkPolicyPort>)

  datatype NetworkPolicySpec = NetworkPolicySpec(
    policyPodSelector: map<string, string>,
    ingress: seq<IngressRule>,
    policyTypes: seq<string>)

  // PodDisruptionBudget

  datatype PdbSpec = PdbSpec(pdbSelector: map<string, string>, pdbMaxUnavailable: IntOrString)

  // Stored objects

  datatype Kind = ConfigMapKind | DeploymentKind | AutoscalerKind | NetworkPolicyKind | ServiceKind | PdbKind

  /** What distinguishes the kinds; a Deployment also carries its ready-replica status. */
  datatype Body =
    | ConfigMapBody(data: map<string, string>)
    | DeploymentBody(deployment: DeploymentSpec, readyReplicas: int)
    | AutoscalerBody(autoscaler: AutoscalerSpec)
    | NetworkPolicyBody(networkPolicy: NetworkPolicySpec)
    | ServiceBody(service: ServiceSpec)
    | PdbBody(pdb: PdbSpec)
  {
    function Kind(): (r: Kind) {
      match this
      case ConfigMapBody(_) => ConfigMapKind
      case DeploymentBody(_, _) => DeploymentKind
      case AutoscalerBody(_) => AutoscalerKind
      case NetworkPolicyBody(_) => NetworkPolicyKind
      case ServiceBody(_) => ServiceKind
      case PdbBody(_) => PdbKind
    }
  }

  datatype ObjectKey = ObjectKey(kind: Kind, namespace: string, name: string)

  datatype Object = Object(meta: ObjectMeta, body: Body) {
    function Key(): (r: ObjectKey) {
      ObjectKey(body.Kind(), meta.namespace, meta.name)
    }
  }

  /** One write the operator made. */
  datatype Write = Created(createdKey: ObjectKey) | Patched(patchedKey: ObjectKey)

  datatype State = State(objects: map<ObjectKey, Object>, writes: seq<Write>)

  /**
   * Backend errors, fixed for a run: a read of an ExternalService, a read of
   * an object, or a write of an object that fails with the given error. A
   * write failing with NotFound stands for the object having been deleted
   * concurrently.
   */
  datatype Faults = Faults(
    externalServiceErrors: map<string, Error>,
    getErrors: map<ObjectKey, Error>,
    writeErrors: map<ObjectKey, Error>)

  const NoFaults := Faults(map[], map[], map[])

  /** The new state after an operation, and its error if any. */
  datatype Outcome = Outcome(state: State, err: Option<Error>)

  ghost predicate WellKeyed(objects: map<ObjectKey, Object>) {
    forall k | k in objects :: objects[k].Key() == k
  }

  /** The answer of a Get. */
  function Lookup(st: State, faults: Faults, key: ObjectKey): (r: Result<Object, Error>) {
    if key in faults.getErrors then Failure(faults.getErrors[key])
    else if key in st.objects then Success(st.objects[key])
    else Failure(NotFound)
  }

  /** The effect of a Create. */
  function CreateOutcome(st: State, faults: Faults, obj: Object): (r: Outcome) {
    var key := obj.Key();
    if key in faults.writeErrors then Outcome(st, Some(faults.writeErrors[key]))
    else if key in st.objects then Outcome(st, Some(Failed("already exists")))
    else Outcome(State(st.objects[key := obj], st.writes + [Created(key)]), None)
  }

  /** The effect of a Patch that turns the stored object into `obj`. */
  function PatchOutcome(st: State, faults: Faults, obj: Object): (r: Outcome) {
    var key := obj.Key();
    if key in faults.writeErrors then Outcome(st, Some(faults.writeErrors[key]))
    else if key !in st.objects then Outcome(st, Some(NotFound))
    else Outcome(State(st.objects[key := obj], st.writes + [Patched(key)]), None)
  }

  /** The API server: stored objects, the write log and the injected faults. */
  class ApiServer {
    var objects: map<ObjectKey, Object>
    var writes: seq<Write>
    const externalServices: map<string, ExternalService>
    const faults: Faults

    ghost predicate Valid()
      reads this
    {
      WellKeyed(objects)
    }

    function Snapshot(): (r: State)
      reads this
    {
      State(objects, writes)
    }

    constructor (externalServices: map<string, ExternalService>, objects: map<ObjectKey, Object>, faults: Faults)
      requires WellKeyed(objects)
      ensures Valid()
      ensures this.externalServices == externalServices && this.faults == faults
      ensures this.objects == objects && this.writes == []
    {
      this.externalServices := externalServices;
      this.objects := objects;
      this.faults := faults;
      this.writes := [];
    }

    method GetExternalService(name: string) returns (r: Result<ExternalService, Error>)
      ensures name in faults.externalServiceErrors ==> r == Failure(faults.externalServiceErrors[name])
      ensures name !in faults.externalServiceErrors ==>
        r == if name in externalServices then Success(externalServices[name]) else Failure(NotFound)
    {
      if name in faults.externalServiceErrors {
        r := Failure(faults.externalServiceErrors[name]);
      } else if name in externalServices {
        r := Success(externalServices[name]);
      } else {
        r := Failure(NotFound);
      }
    }

    method Get(key: ObjectKey) returns (r: Result<Object, Error>)
      requires Valid()
      ensures r == Lookup(Snapshot(), faults, key)
      ensures r.Success? ==> r.value.Key() == key
    {
      if key in faults.getErrors {
        r := Failure(faults.getErrors[key]);
      } else if key in objects {
        r := Success(objects[key]);
      } else {
        r := Failure(NotFound);
      }
    }

    method Create(obj: Object) returns (err: Option<Error>)
      requires Valid()
      modifies this
      ensures Valid()
      ensures Outcome(Snapshot(), err) == CreateOutcome(old(Snapshot()), faults, obj)
    {
      var key := obj.Key();
      if key in faults.writeErrors {
        err := Some(faults.writeErrors[key]);
      } else if key in objects {
        err := Some(Failed("already exists"));
      } else {
        objects := objects[key := obj];
        writes := writes + [Created(key)];
        err := None;
      }
    }

    method Patch(obj: Object) returns (err: Option<Error>)
      requires Valid()
      modifies this
      ensures Valid()
      ensures Outcome(Snapshot(), err) == PatchOutcome(old(Snapshot()), faults, obj)
    {
      var key := obj.Key();
      if key in faults.writeErrors {
        err := Some(faults.writeErrors[key]);
      } else if key !in objects {
        err := Some(NotFound);
      } else {
        objects := objects[key := obj];
        writes := writes + [Patched(key)];
        err := None;
      }
    }
  }

  /** os.LookupEnv over an explicit environment. */
  function LookupEnv(env: map<string, string>, key: string): (r: Option<string>) {
    if key in env then Some(env[key]) else None
  }
}
