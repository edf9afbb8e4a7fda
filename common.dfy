/**
 * The helpers every reconcile step of the ExternalService controller shares:
 * the common labels and annotations, the additive map merge, the
 * create-or-patch primitive and its error filter.
 */
module Common {
  import opened Wrappers
  import opened ExternalServiceTypes
  import opened Kube

  const AppLabel := "app"
  const AppName := "egress-gateway"
  const GatewayLabel := "egress.monzo.com/gateway"
  const DnsNameAnnotation := "egress.monzo.com/dns-name"
  const TopologyModeAnnotation := "service.kubernetes.io/topology-mode"
  const TopologyModeEnv := "ENABLE_SERVICE_TOPOLOGY_MODE"

  /** The two labels every generated object carries. */
  function Labels(es: ExternalService): (l: map<string, string>)
    ensures l.Keys == {AppLabel, GatewayLabel}
    ensures l[AppLabel] == AppName && l[GatewayLabel] == es.name
  {
    map[AppLabel := AppName, GatewayLabel := es.name]
  }

  /** The selector for the gateway's pods: the gateway label alone, a part of `Labels`. */
  function LabelsToSelect(es: ExternalService): (s: map<string, string>)
    ensures s.Keys == {GatewayLabel} && s[GatewayLabel] == es.name
    ensures forall k | k in s :: k in Labels(es) && Labels(es)[k] == s[k]
  {
    map[GatewayLabel := es.name]
  }

  /** Whether ENABLE_SERVICE_TOPOLOGY_MODE is set to exactly "true". */
  predicate TopologyModeEnabled(env: map<string, string>) {
    LookupEnv(env, TopologyModeEnv) == Some("true")
  }

  /**
   * The annotations every generated object carries: the target DNS name, and
   * the topology-aware routing mode when the environment enables it.
   */
  function Annotations(es: ExternalService, env: map<string, string>): (a: map<string, string>)
    ensures DnsNameAnnotation in a && a[DnsNameAnnotation] == es.spec.dnsName
    ensures TopologyModeAnnotation in a <==> TopologyModeEnabled(env)
    ensures TopologyModeAnnotation in a ==>
      a[TopologyModeAnnotation] == if es.spec.serviceTopologyMode != "" then es.spec.serviceTopologyMode else "Auto"
    ensures a.Keys <= {DnsNameAnnotation, TopologyModeAnnotation}
  {
    var base := map[DnsNameAnnotation := es.spec.dnsName];
    if TopologyModeEnabled(env) then
      if es.spec.serviceTopologyMode != "" then base[TopologyModeAnnotation := es.spec.serviceTopologyMode]
      else base[TopologyModeAnnotation := "Auto"]
    else base
  }

  /**
   * `to` after mergeMap(from, to): every key of `from` takes its value from
   * `from`, every other key of `to` keeps its value, and no key is removed.
   */
  function Merged(from: map<string, string>, to: map<string, string>): (r: map<string, string>)
    ensures r.Keys == to.Keys + from.Keys
    ensures forall k | k in from :: r[k] == from[k]
    ensures forall k | k in to && k !in from :: r[k] == to[k]
  {
    map k | k in to.Keys + from.Keys :: if k in from then from[k] else to[k]
  }

  /** mergeMap: copies each entry of `from` into `to`, one key at a time. */
  method MergeMap(from: map<string, string>, to: map<string, string>) returns (r: map<string, string>)
    ensures r == Merged(from, to)
  {
    r := to;
    var pending := from.Keys;
    while pending != {}
      invariant pending <= from.Keys
      invariant r.Keys == to.Keys + (from.Keys - pending)
      invariant forall k | k in from.Keys - pending :: r[k] == from[k]
      invariant forall k | k in to && k !in from.Keys - pending :: r[k] == to[k]
      decreases pending
    {
      var k :| k in pending;
      r := r[k := from[k]];
      pending := pending - {k};
    }
  }

  /** Merging the same map twice changes nothing the first merge did not. */
  lemma MergedIdempotent(from: map<string, string>, to: map<string, string>)
    ensures Merged(from, Merged(from, to)) == Merged(from, to)
  {
  }

  /** A merge whose entries are already present is no change at all. */
  lemma MergedAbsorbed(from: map<string, string>, to: map<string, string>)
    requires forall k | k in from :: k in to && to[k] == from[k]
    ensures Merged(from, to) == to
  {
  }

  /** Stored metadata with the desired labels and annotations merged in additively. */
  function MergedMeta(stored: ObjectMeta, desired: ObjectMeta): (r: ObjectMeta) {
    stored.(labels := Merged(desired.labels, stored.labels),
            annotations := Merged(desired.annotations, stored.annotations))
  }

  /** The patched copy's metadata, built with mergeMap as each reconcile step does. */
  method MergeMeta(stored: ObjectMeta, desired: ObjectMeta) returns (m: ObjectMeta)
    ensures m == MergedMeta(stored, desired)
  {
    var labels := MergeMap(desired.labels, stored.labels);
    var annotations := MergeMap(desired.annotations, stored.annotations);
    m := stored.(labels := labels, annotations := annotations);
  }

  /** ignoreNotFound: NotFound becomes success; every other error is returned unchanged. */
  function IgnoreNotFound(err: Option<Error>): (r: Option<Error>)
    ensures r.None? <==> err.None? || err == Some(NotFound)
    ensures r.Some? ==> r == err
  {
    if err == Some(NotFound) then None else err
  }

  /**
   * The outcome of patchIfNecessary on a stored object and its patched copy:
   * no write at all when the patch is empty (the copy equals the stored
   * object), else a Patch.
   */
  function PatchIfNecessaryOutcome(st: State, faults: Faults, stored: Object, patched: Object): (r: Outcome) {
    if patched == stored then Outcome(st, None) else PatchOutcome(st, faults, patched)
  }

  method PatchIfNecessary(api: ApiServer, stored: Object, patched: Object) returns (err: Option<Error>)
    requires api.Valid()
    modifies api
    ensures api.Valid()
    ensures Outcome(api.Snapshot(), err) == PatchIfNecessaryOutcome(old(api.Snapshot()), api.faults, stored, patched)
  {
    if patched == stored {
      return None;
    }
    err := api.Patch(patched);
  }

  /**
   * The create-or-patch primitive every reconcile step repeats: read the
   * stored object; when it is absent create `desired`; when the read fails
   * return the error; otherwise write `patched` (the stored object with the
   * desired metadata merged in and its spec replaced) if it differs, and
   * treat NotFound from that write as success.
   */
  function Upsert(st: State, faults: Faults, desired: Object, patched: Object): (o: Outcome)
    requires patched.Key() == desired.Key()
    ensures forall k | k != desired.Key() :: (k in o.state.objects <==> k in st.objects)
    ensures forall k | k in st.objects && k != desired.Key() :: k in o.state.objects && o.state.objects[k] == st.objects[k]
    ensures WellKeyed(st.objects) ==> WellKeyed(o.state.objects)
    ensures o.state.writes == st.writes
         || o.state.writes == st.writes + [Created(desired.Key())]
         || o.state.writes == st.writes + [Patched(desired.Key())]
  {
    match Lookup(st, faults, desired.Key())
    case Failure(NotFound) => CreateOutcome(st, faults, desired)
    case Failure(e) => Outcome(st, Some(e))
    case Success(stored) =>
      var o := PatchIfNecessaryOutcome(st, faults, stored, patched);
      Outcome(o.state, IgnoreNotFound(o.err))
  }

  /**
   * Without faults, the primitive always succeeds: it creates `desired`
   * when nothing is stored, and otherwise leaves `patched` stored.
   */
  lemma UpsertFaultFree(st: State, desired: Object, patched: Object)
    requires patched.Key() == desired.Key()
    ensures var o := Upsert(st, NoFaults, desired, patched);
      && o.err.None?
      && desired.Key() in o.state.objects
      && o.state.objects[desired.Key()] == if desired.Key() in st.objects then patched else desired
  {
  }

  /** When the patched copy equals what is stored, reconciling writes nothing and succeeds. */
  lemma UpsertNoWriteWhenUnchanged(st: State, desired: Object, patched: Object)
    requires patched.Key() == desired.Key()
    requires desired.Key() in st.objects && st.objects[desired.Key()] == patched
    ensures Upsert(st, NoFaults, desired, patched) == Outcome(st, None)
  {
  }
}
