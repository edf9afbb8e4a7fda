/**
 * The gateway's HorizontalPodAutoscaler (controllers/autoscaler.go): it
 * scales the gateway Deployment between the spec's bounds, with defaults.
 */
module GatewayAutoscaler {
  import opened Wrappers
  import opened ExternalServiceTypes
  import opened Kube
  import opened Common

  /** autoscaler: the desired HPA; an omitted bound or target takes its default. */
  function AutoscalerOf(es: ExternalService, env: map<string, string>): (o: Object)
    ensures o.meta == ObjectMeta(es.name, Namespace, Labels(es), Annotations(es, env))
    ensures o.body.AutoscalerBody?
    ensures o.body.autoscaler.scaleTargetRef == CrossVersionObjectReference("apps/v1", "Deployment", es.name)
    ensures o.body.autoscaler.minReplicas == es.spec.minReplicas.GetOr(DefaultMinReplicas)
    ensures o.body.autoscaler.maxReplicas == es.spec.maxReplicas.GetOr(DefaultMaxReplicas)
    ensures o.body.autoscaler.targetCPUUtilizationPercentage ==
            es.spec.targetCPUUtilizationPercentage.GetOr(DefaultTargetCPUUtilizationPercentage)
  {
    var min := if es.spec.minReplicas.None? then DefaultMinReplicas else es.spec.minReplicas.value;
    var max := if es.spec.maxReplicas.None? then DefaultMaxReplicas else es.spec.maxReplicas.value;
    var target := if es.spec.targetCPUUtilizationPercentage.None? then DefaultTargetCPUUtilizationPercentage
                  else es.spec.targetCPUUtilizationPercentage.value;
    Object(ObjectMeta(es.name, Namespace, Labels(es), Annotations(es, env)),
           AutoscalerBody(AutoscalerSpec(CrossVersionObjectReference("apps/v1", "Deployment", es.name), min, max, target)))
  }

  /** With nothing set, the HPA scales between 3 and 12 replicas at 50% CPU. */
  lemma AutoscalerDefaults(es: ExternalService, env: map<string, string>)
    requires es.spec.minReplicas.None? && es.spec.maxReplicas.None? && es.spec.targetCPUUtilizationPercentage.None?
    ensures var a := AutoscalerOf(es, env).body.autoscaler;
      a.minReplicas == 3 && a.maxReplicas == 12 && a.targetCPUUtilizationPercentage == 50
      && a.minReplicas <= a.maxReplicas
  {
  }

  function PatchedAutoscaler(stored: Object, desired: Object): (r: Object)
    requires desired.body.AutoscalerBody?
  {
    Object(MergedMeta(stored.meta, desired.meta), desired.body)
  }

  /** reconcileAutoscaler as a state transition. */
  function AutoscalerStep(st: State, faults: Faults, desired: Object): (r: Outcome)
    requires WellKeyed(st.objects) && desired.body.AutoscalerBody?
  {
    var k := desired.Key();
    Upsert(st, faults, desired, if k in st.objects then PatchedAutoscaler(st.objects[k], desired) else desired)
  }

  /** reconcileAutoscaler: create the HPA, or patch its metadata and spec. */
  method ReconcileAutoscaler(api: ApiServer, desired: Object) returns (err: Option<Error>)
    requires api.Valid() && desired.body.AutoscalerBody?
    modifies api
    ensures api.Valid()
    ensures Outcome(api.Snapshot(), err) == AutoscalerStep(old(api.Snapshot()), api.faults, desired)
  {
    var got := api.Get(desired.Key());
    if got.Failure? {
      if got.error == NotFound {
        err := api.Create(desired);
        return;
      }
      return Some(got.error);
    }
    var meta := MergeMeta(got.value.meta, desired.meta);
    var patched := Object(meta, desired.body);
    err := PatchIfNecessary(api, got.value, patched);
    err := IgnoreNotFound(err);
  }

  /**
   * Without faults, a step succeeds and leaves the HPA stored with the
   * desired spec, at a fixed point of the patch.
   */
  lemma AutoscalerStepSettles(st: State, desired: Object)
    requires WellKeyed(st.objects) && desired.body.AutoscalerBody?
    ensures var o := AutoscalerStep(st, NoFaults, desired);
      && o.err.None?
      && desired.Key() in o.state.objects
      && o.state.objects[desired.Key()].body == desired.body
      && PatchedAutoscaler(o.state.objects[desired.Key()], desired) == o.state.objects[desired.Key()]
  {
    var k := desired.Key();
    if k in st.objects {
      UpsertFaultFree(st, desired, PatchedAutoscaler(st.objects[k], desired));
      MergedIdempotent(desired.meta.labels, st.objects[k].meta.labels);
      MergedIdempotent(desired.meta.annotations, st.objects[k].meta.annotations);
    } else {
      UpsertFaultFree(st, desired, desired);
      MergedAbsorbed(desired.meta.labels, desired.meta.labels);
      MergedAbsorbed(desired.meta.annotations, desired.meta.annotations);
    }
  }

  /** Without faults, a HPA stored at a fixed point of the patch is not written again. */
  lemma AutoscalerSettledNoWrite(st: State, desired: Object)
    requires WellKeyed(st.objects) && desired.body.AutoscalerBody?
    requires desired.Key() in st.objects
    requires PatchedAutoscaler(st.objects[desired.Key()], desired) == st.objects[desired.Key()]
    ensures AutoscalerStep(st, NoFaults, desired) == Outcome(st, None)
  {
    UpsertNoWriteWhenUnchanged(st, desired, st.objects[desired.Key()]);
  }
}
