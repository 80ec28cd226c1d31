/** DaemonSets as the cluster stores them, and the client operations the reconcilers use on
    them: list by namespace and module label, get by key, create (with a generated name),
    patch and delete. */
module DaemonSetStore {
  import opened Common
  import opened Api
  import opened Kube

  /** An apps/v1 DaemonSet, reduced to the fields the operator sets or reads. `selector` is
      Spec.Selector.MatchLabels, `templateLabels` and `containers` belong to the pod
      template, `creationTimestamp` is in nanoseconds. */
  datatype DaemonSetObject = DaemonSetObject(
    name: string,
    generateName: string,
    namespace: string,
    labels: Labels,
    ownerReferences: seq<OwnerReference>,
    selector: Labels,
    templateLabels: Labels,
    containers: seq<Container>,
    nodeSelector: Labels,
    creationTimestamp: int,
    desiredNumberScheduled: int)

  /** A DaemonSet with only its name, name prefix and namespace set. */
  function Blank(name: string, generateName: string, namespace: string): DaemonSetObject
  {
    DaemonSetObject(name, generateName, namespace, map[], [], map[], map[], [], map[], 0, 0)
  }

  datatype StoreError = ReadFailed | NotFound | WriteFailed

  /** What List with InNamespace(ns) and MatchingLabels{module-name: modName} selects:
      the label must be present and carry the module's name. */
  predicate Owned(o: DaemonSetObject, ns: string, modName: string)
  {
    o.namespace == ns && ModuleNameLabel in o.labels && o.labels[ModuleNameLabel] == modName
  }

  /** The DaemonSets of `mod` in namespace `ns`, in store order. */
  function ListOwned(objects: seq<DaemonSetObject>, ns: string, modName: string): (r: seq<DaemonSetObject>)
    ensures |r| <= |objects|
    ensures forall o {:trigger o in r} :: o in r <==> o in objects && Owned(o, ns, modName)
  {
    if |objects| == 0 then []
    else
      var o := objects[|objects| - 1];
      ListOwned(objects[..|objects| - 1], ns, modName) + (if Owned(o, ns, modName) then [o] else [])
  }

  predicate HasKey(o: DaemonSetObject, ns: string, name: string)
  {
    o.namespace == ns && o.name == name
  }

  /** The first DaemonSet with the key, if any. */
  function Find(objects: seq<DaemonSetObject>, ns: string, name: string): (r: Option<DaemonSetObject>)
    ensures r.None? <==> forall o :: o in objects ==> !HasKey(o, ns, name)
    ensures r.Some? ==> r.value in objects && HasKey(r.value, ns, name)
  {
    if |objects| == 0 then None
    else if HasKey(objects[0], ns, name) then Some(objects[0])
    else Find(objects[1..], ns, name)
  }

  /** A patch: every stored DaemonSet with the patched object's key becomes that object. */
  function Replace(objects: seq<DaemonSetObject>, o: DaemonSetObject): (r: seq<DaemonSetObject>)
    ensures |r| == |objects|
    ensures forall i :: 0 <= i < |objects| ==>
      r[i] == if HasKey(objects[i], o.namespace, o.name) then o else objects[i]
  {
    seq(|objects|, i requires 0 <= i < |objects| =>
      if HasKey(objects[i], o.namespace, o.name) then o else objects[i])
  }

  /** A delete: the stored DaemonSets without the key, in store order. */
  function Remove(objects: seq<DaemonSetObject>, ns: string, name: string): (r: seq<DaemonSetObject>)
    ensures |r| <= |objects|
    ensures forall o :: o in r <==> o in objects && !HasKey(o, ns, name)
  {
    if |objects| == 0 then []
    else
      var o := objects[|objects| - 1];
      Remove(objects[..|objects| - 1], ns, name) + (if HasKey(o, ns, name) then [] else [o])
  }

  /** The API server's name generator (random in the cluster, a parameter here): the name
      it gives an object created with an empty name, from the prefix and a serial. */
  type NameGenerator = (string, nat) -> string

  /** A created object as stored: named by the generator when it has no name. */
  function Named(o: DaemonSetObject, gen: NameGenerator, serial: nat): DaemonSetObject
  {
    if o.name == "" then o.(name := gen(o.generateName, serial)) else o
  }

  /** The DaemonSets of the cluster, as seen through the client. Reads fail exactly when
      `readFails`, writes exactly when `writeFails`. */
  class Store {
    var objects: seq<DaemonSetObject>
    const readFails: bool
    const writeFails: bool
    const generate: NameGenerator

    constructor (initial: seq<DaemonSetObject>, readFails: bool, writeFails: bool, generate: NameGenerator)
      ensures objects == initial && this.readFails == readFails && this.writeFails == writeFails
      ensures this.generate == generate
    {
      objects := initial;
      this.readFails := readFails;
      this.writeFails := writeFails;
      this.generate := generate;
    }

    /** client.List with MatchingLabels{module-name: modName} and InNamespace(ns). */
    method List(ns: string, modName: string) returns (r: Option<seq<DaemonSetObject>>)
      ensures r.None? <==> readFails
      ensures r.Some? ==> r.value == ListOwned(objects, ns, modName)
    {
      if readFails {
        return None;
      }
      r := Some(ListOwned(objects, ns, modName));
    }

    /** client.Get by namespace and name. */
    method Get(ns: string, name: string) returns (r: Result<DaemonSetObject, StoreError>)
      ensures readFails ==> r == Err(ReadFailed)
      ensures !readFails ==> r == match Find(objects, ns, name)
                                   case None => Err(NotFound)
                                   case Some(o) => Ok(o)
    {
      if readFails {
        return Err(ReadFailed);
      }
      var found := Find(objects, ns, name);
      if found.None? {
        return Err(NotFound);
      }
      r := Ok(found.value);
    }

    method Create(o: DaemonSetObject) returns (ok: bool)
      modifies this
      ensures ok <==> !writeFails
      ensures objects == if ok then old(objects) + [Named(o, generate, |old(objects)|)] else old(objects)
    {
      if writeFails {
        return false;
      }
      objects := objects + [Named(o, generate, |objects|)];
      ok := true;
    }

    method Patch(o: DaemonSetObject) returns (ok: bool)
      modifies this
      ensures ok <==> !writeFails
      ensures objects == if ok then Replace(old(objects), o) else old(objects)
    {
      if writeFails {
        return false;
      }
      objects := Replace(objects, o);
      ok := true;
    }

    method Delete(ns: string, name: string) returns (ok: bool)
      modifies this
      ensures ok <==> !writeFails
      ensures objects == if ok then Remove(old(objects), ns, name) else old(objects)
    {
      if writeFails {
        return false;
      }
      objects := Remove(objects, ns, name);
      ok := true;
    }
  }
}
