/** The DaemonSet reconciler: it watches the DaemonSets that carry a module-name label and
    deletes one that, a minute after its creation, still has no node to run on. */
module DaemonSetReconciler {
  import opened Common
  import opened Api
  import opened DaemonSetStore
  import ModuleReconciler

  /** One minute in nanoseconds, the unit of `creationTimestamp` and of the clock. */
  const OneMinute: int := 60_000_000_000

  /** The deletion rule: the clock is strictly past creation plus one minute and the
      DaemonSet is scheduled on no node. */
  predicate Unschedulable(o: DaemonSetObject, now: int)
  {
    now > o.creationTimestamp + OneMinute && o.desiredNumberScheduled == 0
  }

  /** Why a reconcile fails: the DaemonSet could not be read (or is gone), or its
      deletion failed. */
  datatype GcError = GetFailed(cause: StoreError) | DeleteFailed

  /** One reconcile of the DaemonSet `ns`/`name` at time `now`, over the stored
      DaemonSets: the error, if any, and the DaemonSets afterwards. The reconciler never
      asks to be requeued, so the outcome carries no requeue flag. */
  function GcStep(objects: seq<DaemonSetObject>, ns: string, name: string, now: int, readFails: bool, writeFails: bool)
    : (Option<GcError>, seq<DaemonSetObject>)
  {
    if readFails then (Some(GetFailed(ReadFailed)), objects)
    else
      match Find(objects, ns, name)
      case None => (Some(GetFailed(NotFound)), objects)
      case Some(o) =>
        if !Unschedulable(o, now) then (None, objects)
        else if writeFails then (Some(DeleteFailed), objects)
        else (None, Remove(objects, ns, name))
  }

  /** A reconcile deletes exactly when the DaemonSet is read, found unschedulable and the
      delete goes through; it then removes that DaemonSet and keeps every other one. It
      fails exactly when the read fails, the DaemonSet is missing, or the delete is needed
      and fails, and a failed reconcile changes nothing. */
  lemma GcStepDeletesIffUnschedulable(
    objects: seq<DaemonSetObject>, ns: string, name: string, now: int, readFails: bool, writeFails: bool)
    ensures var (err, after) := GcStep(objects, ns, name, now, readFails, writeFails);
      var found := Find(objects, ns, name);
      var deletes := !readFails && found.Some? && Unschedulable(found.value, now) && !writeFails;
      (err.Some? <==> readFails || found.None? || (Unschedulable(found.value, now) && writeFails)) &&
      (err.Some? ==> after == objects) &&
      (deletes ==> forall o :: o in after <==> o in objects && !HasKey(o, ns, name)) &&
      (!deletes ==> after == objects)
  {
    var found := Find(objects, ns, name);
    if !readFails && found.Some? && Unschedulable(found.value, now) && !writeFails {
      assert GcStep(objects, ns, name, now, readFails, writeFails).1 == Remove(objects, ns, name);
    }
  }

  /** A DaemonSet that is deleted was present before the reconcile and is absent after it;
      nothing else is ever added. */
  lemma GcStepOnlyRemoves(
    objects: seq<DaemonSetObject>, ns: string, name: string, now: int, readFails: bool, writeFails: bool)
    ensures var after := GcStep(objects, ns, name, now, readFails, writeFails).1;
      |after| <= |objects| &&
      (forall o :: o in after ==> o in objects) &&
      (after != objects ==> Find(objects, ns, name).Some? && Find(after, ns, name).None?)
  {
  }

  /** The one-minute grace is strict: a DaemonSet is kept at exactly one minute after its
      creation, even when no node runs it, and deleted (given a working store) one
      nanosecond later. */
  lemma GraceIsStrict(o: DaemonSetObject, others: seq<DaemonSetObject>)
    requires o.desiredNumberScheduled == 0
    requires forall p :: p in others ==> !HasKey(p, o.namespace, o.name)
    ensures GcStep([o] + others, o.namespace, o.name, o.creationTimestamp + OneMinute, false, false).1 == [o] + others
    ensures GcStep([o] + others, o.namespace, o.name, o.creationTimestamp + OneMinute + 1, false, false).1
         != [o] + others
  {
    var objects := [o] + others;
    assert Find(objects, o.namespace, o.name) == Some(o);
    var after := Remove(objects, o.namespace, o.name);
    assert o in objects && o !in after;
  }

  /** ModuleLabelNotEmptyFilter: the event filter lets through the DaemonSets whose
      module-name label is set and not empty. */
  predicate ModuleLabelNotEmptyFilter(labels: Labels)
  {
    Get(labels, ModuleNameLabel) != ""
  }

  /** The filter rejects exactly the DaemonSets without the label or with it empty, and
      it accepts every DaemonSet the module reconciler owns in its namespace, so the
      DaemonSets the operator creates are the ones this reconciler watches. */
  lemma FilterAcceptsOwned(labels: Labels, o: DaemonSetObject, namespace: string)
    ensures !ModuleLabelNotEmptyFilter(labels) <==> ModuleNameLabel !in labels || labels[ModuleNameLabel] == ""
    ensures ModuleReconciler.OwnedAccepts(namespace, o) ==> ModuleLabelNotEmptyFilter(o.labels)
    ensures ModuleLabelNotEmptyFilter(o.labels) && o.namespace == namespace ==> ModuleReconciler.OwnedAccepts(namespace, o)
  {
  }

  /** DaemonSetReconciler, with its client. */
  class DaemonSetReconciler {
    const client: Store

    constructor (client: Store)
      ensures this.client == client
    {
      this.client := client;
    }

    /** Reconcile: get the DaemonSet; delete it when it is unschedulable a minute after its
        creation, reporting the delete's error. The clock is the parameter `now`. */
    method Reconcile(ns: string, name: string, now: int) returns (err: Option<GcError>)
      modifies client
      ensures (err, client.objects) == GcStep(old(client.objects), ns, name, now, client.readFails, client.writeFails)
    {
      var got := client.Get(ns, name);
      if got.Err? {
        return Some(GetFailed(got.error));
      }
      var ds := got.value;
      if now > ds.creationTimestamp + OneMinute && ds.desiredNumberScheduled == 0 {
        var ok := client.Delete(ds.namespace, ds.name);
        if !ok {
          return Some(DeleteFailed);
        }
      }
      err := None;
    }
  }
}
