/**
 * The gateway's PodDisruptionBudget (controllers/poddisruptionbudget.go):
 * at most a quarter of the gateway pods may be voluntarily disrupted at once.
 */
module GatewayPdb {
  import opened Wrappers
  import opened ExternalServiceTypes
  import opened Kube
  import opened Common

  const PdbMaxUnavailable := "25%"

  /** pdb: the desired PodDisruptionBudget, selecting on both common labels. */
  function PdbOf(es: ExternalService, env: map<string, string>): (o: Object)
    ensures o.meta == ObjectMeta(es.name, Namespace, Labels(es), Annotations(es, env))
    ensures o.body.PdbBody?
    ensures o.body.pdb.pdbSelector == o.meta.labels
    ensures o.body.pdb.pdbMaxUnavailable == StringValue(PdbMaxUnavailable)
  {
    Object(ObjectMeta(es.name, Namespace, Labels(es), Annotations(es, env)),
           PdbBody(PdbSpec(Labels(es), StringValue(PdbMaxUnavailable))))
  }

  function PatchedPdb(stored: Object, desired: Object): (r: Object)
    requires desired.body.PdbBody?
  {
    Object(MergedMeta(stored.meta, desired.meta), desired.body)
  }

  /** reconcilePodDisruptionBudget as a state transition. */
  function PdbStep(st: State, faults: Faults, desired: Object): (r: Outcome)
    requires WellKeyed(st.objects) && desired.body.PdbBody?
  {
    var k := desired.Key();
    Upsert(st, faults, desired, if k in st.objects then PatchedPdb(st.objects[k], desired) else desired)
  }

  /** reconcilePodDisruptionBudget: create the budget, or patch its metadata and spec. */
  method ReconcilePdb(api: ApiServer, desired: Object) returns (err: Option<Error>)
    requires api.Valid() && desired.body.PdbBody?
    modifies api
    ensures api.Valid()
    ensures Outcome(api.Snapshot(), err) == PdbStep(old(api.Snapshot()), api.faults, desired)
  {
    var got := api.Get(desired.Key());
    if got.Failure? {
      if got.error == NotFound {
        err := api.Create(desired);
        return;
      }
      return Some(got.error);
    }
    var meta := MergeMeta(got.value.meta, desired.meta);
    var patched := Object(meta, desired.body);
    err := PatchIfNecessary(api, got.value, patched);
    err := IgnoreNotFound(err);
  }

  /**
   * Without faults, a step succeeds and leaves the budget stored with the
   * desired spec, at a fixed point of the patch.
   */
  lemma PdbStepSettles(st: State, desired: Object)
    requires WellKeyed(st.objects) && desired.body.PdbBody?
    ensures var o := PdbStep(st, NoFaults, desired);
      && o.err.None?
      && desired.Key() in o.state.objects
      && o.state.objects[desired.Key()].body == desired.body
      && PatchedPdb(o.state.objects[desired.Key()], desired) == o.state.objects[desired.Key()]
  {
    var k := desired.Key();
    if k in st.objects {
      UpsertFaultFree(st, desired, PatchedPdb(st.objects[k], desired));
      MergedIdempotent(desired.meta.labels, st.objects[k].meta.labels);
      MergedIdempotent(desired.meta.annotations, st.objects[k].meta.annotations);
    } else {
      UpsertFaultFree(st, desired, desired);
      MergedAbsorbed(desired.meta.labels, desired.meta.labels);
      MergedAbsorbed(desired.meta.annotations, desired.meta.annotations);
    }
  }

  /** Without faults, a budget stored at a fixed point of the patch is not written again. */
  lemma PdbSettledNoWrite(st: State, desired: Object)
    requires WellKeyed(st.objects) && desired.body.PdbBody?
    requires desired.Key() in st.objects
    requires PatchedPdb(st.objects[desired.Key()], desired) == st.objects[desired.Key()]
    ensures PdbStep(st, NoFaults, desired) == Outcome(st, None)
  {
    UpsertNoWriteWhenUnchanged(st, desired, st.objects[desired.Key()]);
  }
}
