/** The DaemonSet creator: the desired state of the per-kernel driver DaemonSet, written in
    place into a DaemonSet object, and the index of a module's DaemonSets by kernel. */
module DaemonSets {
  import opened Common
  import opened Api
  import opened Kube
  import opened DaemonSetStore

  const DriverContainerName := "driver-container"

  datatype DaemonSetError =
    | NilDaemonSet
    | EmptyImage
    | EmptyKernel
    | OwnerReferenceFailed
    | ListFailed
    | AmbiguousDaemonSets(kernel: string)

  /** An in-memory *appsv1.DaemonSet, whose fields SetAsDesired rewrites. */
  class DaemonSet {
    var name: string
    var generateName: string
    var namespace: string
    var labels: Labels
    var ownerReferences: seq<OwnerReference>
    var selector: Labels
    var templateLabels: Labels
    var containers: seq<Container>
    var nodeSelector: Labels
    var creationTimestamp: int
    var desiredNumberScheduled: int

    /** The object's current state as a value. */
    function Object(): DaemonSetObject
      reads this
    {
      DaemonSetObject(name, generateName, namespace, labels, ownerReferences, selector,
                      templateLabels, containers, nodeSelector, creationTimestamp, desiredNumberScheduled)
    }

    /** A copy of a stored DaemonSet (or of a blank one). */
    constructor (o: DaemonSetObject)
      ensures Object() == o
    {
      name := o.name;
      generateName := o.generateName;
      namespace := o.namespace;
      labels := o.labels;
      ownerReferences := o.ownerReferences;
      selector := o.selector;
      templateLabels := o.templateLabels;
      containers := o.containers;
      nodeSelector := o.nodeSelector;
      creationTimestamp := o.creationTimestamp;
      desiredNumberScheduled := o.desiredNumberScheduled;
    }
  }

  /** The (non-controller) owner reference to the module. */
  function OwnerReferenceTo(mod: Module): OwnerReference
  {
    OwnerReference(mod.apiVersion, mod.kind, mod.name, mod.uid, false)
  }

  /** Two references name the same owner: same API version, kind and name. */
  predicate SameOwner(a: OwnerReference, b: OwnerReference)
  {
    a.apiVersion == b.apiVersion && a.kind == b.kind && a.name == b.name
  }

  /** controllerutil.SetOwnerReference on a reference list: the first reference to the same
      owner is replaced, otherwise the reference is appended. */
  function UpsertOwner(refs: seq<OwnerReference>, ref: OwnerReference): seq<OwnerReference>
  {
    if |refs| == 0 then [ref]
    else if SameOwner(refs[0], ref) then [ref] + refs[1..]
    else [refs[0]] + UpsertOwner(refs[1..], ref)
  }

  /** The reference ends up in the list, every reference to another owner stays, the list
      grows by at most one, and setting the same reference twice changes nothing more. */
  lemma {:induction false} UpsertOwnerProperties(refs: seq<OwnerReference>, ref: OwnerReference)
    ensures ref in UpsertOwner(refs, ref)
    ensures forall r :: r in refs && !SameOwner(r, ref) ==> r in UpsertOwner(refs, ref)
    ensures |refs| <= |UpsertOwner(refs, ref)| <= |refs| + 1
    ensures UpsertOwner(UpsertOwner(refs, ref), ref) == UpsertOwner(refs, ref)
    decreases |refs|
  {
    if |refs| > 0 && !SameOwner(refs[0], ref) {
      UpsertOwnerProperties(refs[1..], ref);
      assert refs == [refs[0]] + refs[1..];
      var up := UpsertOwner(refs, ref);
      assert up[0] == refs[0] && up[1..] == UpsertOwner(refs[1..], ref);
    }
  }

  /** The labels of the DaemonSet, its selector and its pods. */
  function PodLabels(mod: Module, kernelLabel: string, kernel: string): Labels
  {
    map[ModuleNameLabel := mod.name, kernelLabel := kernel]
  }

  /** The object SetAsDesired leaves behind when it succeeds on `o`. */
  function Desired(o: DaemonSetObject, image: string, mod: Module, kernelLabel: string, kernel: string): DaemonSetObject
  {
    var podLabels := PodLabels(mod, kernelLabel, kernel);
    o.(labels := podLabels,
       ownerReferences := UpsertOwner(o.ownerReferences, OwnerReferenceTo(mod)),
       selector := podLabels,
       templateLabels := podLabels,
       containers := [Container(DriverContainerName, image, [], [])],
       nodeSelector := mod.spec.selector[kernelLabel := kernel])
  }

  /** The desired object: the DaemonSet, its selector and its pods carry the module and
      kernel labels; its pods run one driver container with the image, on the nodes of
      the module's selector extended with the kernel label; it keeps its name,
      namespace and status; on a DaemonSet without owners, the module is its only owner. */
  lemma DesiredContents(o: DaemonSetObject, image: string, mod: Module, kernelLabel: string, kernel: string)
    requires kernelLabel != ModuleNameLabel
    ensures var d := Desired(o, image, mod, kernelLabel, kernel);
      d.labels.Keys == {ModuleNameLabel, kernelLabel} &&
      d.labels[ModuleNameLabel] == mod.name && d.labels[kernelLabel] == kernel &&
      d.selector == d.labels && d.templateLabels == d.labels &&
      d.containers == [Container(DriverContainerName, image, [], [])] &&
      d.nodeSelector == mod.spec.selector[kernelLabel := kernel] &&
      d.name == o.name && d.generateName == o.generateName && d.namespace == o.namespace &&
      d.creationTimestamp == o.creationTimestamp && d.desiredNumberScheduled == o.desiredNumberScheduled &&
      OwnerReferenceTo(mod) in d.ownerReferences &&
      (o.ownerReferences == [] ==> d.ownerReferences == [OwnerReferenceTo(mod)])
  {
    UpsertOwnerProperties(o.ownerReferences, OwnerReferenceTo(mod));
  }

  /** The desired pods land exactly on the nodes the module selects whose kernel label is
      the kernel (when the module's own selector does not constrain that label). */
  lemma DesiredSchedulesOnKernel(
    o: DaemonSetObject, image: string, mod: Module, kernelLabel: string, kernel: string, node: Labels)
    requires kernelLabel !in mod.spec.selector
    ensures SelectorMatches(Desired(o, image, mod, kernelLabel, kernel).nodeSelector, node)
        <==> SelectorMatches(mod.spec.selector, node) && kernelLabel in node && node[kernelLabel] == kernel
  {
    var ns := Desired(o, image, mod, kernelLabel, kernel).nodeSelector;
    if SelectorMatches(ns, node) {
      assert kernelLabel in ns;
      forall k | k in mod.spec.selector
        ensures k in node && node[k] == mod.spec.selector[k]
      {
        assert k in ns && ns[k] == mod.spec.selector[k];
      }
    }
  }

  /** Setting a DaemonSet as desired twice with the same inputs gives the same object as
      setting it once, so a patch of an up-to-date DaemonSet changes nothing. */
  lemma DesiredIdempotent(o: DaemonSetObject, image: string, mod: Module, kernelLabel: string, kernel: string)
    ensures Desired(Desired(o, image, mod, kernelLabel, kernel), image, mod, kernelLabel, kernel)
         == Desired(o, image, mod, kernelLabel, kernel)
  {
    UpsertOwnerProperties(o.ownerReferences, OwnerReferenceTo(mod));
  }

  /** The kernel a DaemonSet is for: its kernel label, "" when it has none. */
  function KernelOf(o: DaemonSetObject, kernelLabel: string): string
  {
    Get(o.labels, kernelLabel)
  }

  predicate KernelsDistinct(listed: seq<DaemonSetObject>, kernelLabel: string)
  {
    forall i, j :: 0 <= i < j < |listed| ==> KernelOf(listed[i], kernelLabel) != KernelOf(listed[j], kernelLabel)
  }

  /** ModuleDaemonSetsByKernelVersion over the listed DaemonSets, in list order. */
  function ByKernel(listed: seq<DaemonSetObject>, kernelLabel: string): Result<map<string, DaemonSetObject>, DaemonSetError>
  {
    if |listed| == 0 then Ok(map[])
    else
      var last := listed[|listed| - 1];
      match ByKernel(listed[..|listed| - 1], kernelLabel)
      case Err(e) => Err(e)
      case Ok(m) =>
        var k := KernelOf(last, kernelLabel);
        if k in m then Err(AmbiguousDaemonSets(k)) else Ok(m[k := last])
  }

  /** The index exists exactly when no two DaemonSets share a kernel. */
  lemma ByKernelOkIffDistinct(listed: seq<DaemonSetObject>, kernelLabel: string)
    ensures ByKernel(listed, kernelLabel).Ok? <==> KernelsDistinct(listed, kernelLabel)
  {
    if KernelsDistinct(listed, kernelLabel) {
      DistinctGivesIndex(listed, kernelLabel);
    }
    if ByKernel(listed, kernelLabel).Ok? {
      IndexGivesDistinct(listed, kernelLabel);
    }
  }

  lemma {:induction false} DistinctGivesIndex(listed: seq<DaemonSetObject>, kernelLabel: string)
    requires KernelsDistinct(listed, kernelLabel)
    ensures ByKernel(listed, kernelLabel).Ok?
    decreases |listed|
  {
    if |listed| > 0 {
      var init := listed[..|listed| - 1];
      var k := KernelOf(listed[|listed| - 1], kernelLabel);
      assert KernelsDistinct(init, kernelLabel) by {
        forall i, j | 0 <= i < j < |init|
          ensures KernelOf(init[i], kernelLabel) != KernelOf(init[j], kernelLabel)
        {
          assert init[i] == listed[i] && init[j] == listed[j];
        }
      }
      DistinctGivesIndex(init, kernelLabel);
      ByKernelIndex(init, kernelLabel);
    }
  }

  lemma {:induction false} IndexGivesDistinct(listed: seq<DaemonSetObject>, kernelLabel: string)
    requires ByKernel(listed, kernelLabel).Ok?
    ensures KernelsDistinct(listed, kernelLabel)
    decreases |listed|
  {
    if |listed| > 0 {
      var init := listed[..|listed| - 1];
      var k := KernelOf(listed[|listed| - 1], kernelLabel);
      IndexGivesDistinct(init, kernelLabel);
      ByKernelIndex(init, kernelLabel);
      var m := ByKernel(init, kernelLabel).value;
      assert k !in m;
      forall i, j | 0 <= i < j < |listed|
        ensures KernelOf(listed[i], kernelLabel) != KernelOf(listed[j], kernelLabel)
      {
        assert listed[i] == init[i];
        if j < |init| {
          assert listed[j] == init[j];
        } else {
          assert KernelOf(init[i], kernelLabel) in m;
        }
      }
    }
  }

  /** When it exists, the index maps each listed DaemonSet's kernel to that DaemonSet, has
      no other key, and has one entry per DaemonSet. */
  lemma {:induction false} ByKernelIndex(listed: seq<DaemonSetObject>, kernelLabel: string)
    requires ByKernel(listed, kernelLabel).Ok?
    ensures var m := ByKernel(listed, kernelLabel).value;
      |m| == |listed| &&
      (forall k :: k in m <==> exists i :: 0 <= i < |listed| && KernelOf(listed[i], kernelLabel) == k) &&
      (forall i :: 0 <= i < |listed| ==> m[KernelOf(listed[i], kernelLabel)] == listed[i])
    decreases |listed|
  {
    if |listed| > 0 {
      var init := listed[..|listed| - 1];
      var last := listed[|listed| - 1];
      var k := KernelOf(last, kernelLabel);
      ByKernelIndex(init, kernelLabel);
      var m := ByKernel(init, kernelLabel).value;
      var m' := m[k := last];
      assert k !in m;
      forall k' | k' in m'
        ensures exists i :: 0 <= i < |listed| && KernelOf(listed[i], kernelLabel) == k'
      {
        if k' != k {
          var i :| 0 <= i < |init| && KernelOf(init[i], kernelLabel) == k';
          assert KernelOf(listed[i], kernelLabel) == k';
        } else {
          assert KernelOf(listed[|listed| - 1], kernelLabel) == k';
        }
      }
      forall i | 0 <= i < |listed|
        ensures KernelOf(listed[i], kernelLabel) in m'
        ensures m'[KernelOf(listed[i], kernelLabel)] == listed[i]
      {
        if i < |init| {
          assert listed[i] == init[i];
          assert KernelOf(init[i], kernelLabel) in m;
        }
      }
    }
  }

  /** Once a prefix of the list has two DaemonSets for one kernel, the whole list fails
      with the same error: the first repeated kernel is the one reported. */
  lemma {:induction false} ByKernelErrorPersists(listed: seq<DaemonSetObject>, kernelLabel: string, n: nat)
    requires n <= |listed| && ByKernel(listed[..n], kernelLabel).Err?
    ensures ByKernel(listed, kernelLabel) == ByKernel(listed[..n], kernelLabel)
    decreases |listed| - n
  {
    if n < |listed| {
      var init := listed[..|listed| - 1];
      assert init[..n] == listed[..n];
      ByKernelErrorPersists(init, kernelLabel, n);
    } else {
      assert listed[..n] == listed;
    }
  }

  /** The DaemonSet creator: the kernel label it writes and reads, the namespace it lists
      in, and whether the scheme knows the Module type (so that the owner reference can be
      set). */
  class DaemonSetCreator {
    const store: Store
    const kernelLabel: string
    const namespace: string
    const registersModule: bool

    constructor (store: Store, kernelLabel: string, namespace: string, registersModule: bool)
      ensures this.store == store && this.kernelLabel == kernelLabel
      ensures this.namespace == namespace && this.registersModule == registersModule
    {
      this.store := store;
      this.kernelLabel := kernelLabel;
      this.namespace := namespace;
      this.registersModule := registersModule;
    }

    /** SetAsDesired: a missing DaemonSet, an empty image, an empty kernel or an owner
        reference that cannot be set is an error and leaves the DaemonSet as it was;
        otherwise the DaemonSet becomes the desired one. */
    method SetAsDesired(ds: DaemonSet?, image: string, mod: Module, kernel: string) returns (err: Option<DaemonSetError>)
      modifies ds
      ensures err.None? <==> ds != null && image != "" && kernel != "" && registersModule
      ensures ds == null ==> err == Some(NilDaemonSet)
      ensures ds != null && image == "" ==> err == Some(EmptyImage)
      ensures ds != null && image != "" && kernel == "" ==> err == Some(EmptyKernel)
      ensures ds != null && image != "" && kernel != "" && !registersModule ==> err == Some(OwnerReferenceFailed)
      ensures ds != null ==>
        ds.Object() == if err.None? then Desired(old(ds.Object()), image, mod, kernelLabel, kernel) else old(ds.Object())
    {
      if ds == null {
        return Some(NilDaemonSet);
      }
      if image == "" {
        return Some(EmptyImage);
      }
      if kernel == "" {
        return Some(EmptyKernel);
      }
      if !registersModule {
        return Some(OwnerReferenceFailed);
      }
      ds.ownerReferences := UpsertOwner(ds.ownerReferences, OwnerReferenceTo(mod));
      var podLabels := PodLabels(mod, kernelLabel, kernel);
      ds.labels := podLabels;
      ds.selector := podLabels;
      ds.templateLabels := podLabels;
      ds.containers := [Container(DriverContainerName, image, [], [])];
      ds.nodeSelector := mod.spec.selector[kernelLabel := kernel];
      err := None;
    }

    /** ModuleDaemonSetsByKernelVersion: the module's DaemonSets in the creator's namespace,
        indexed by kernel, or an error on a failed list or a kernel with two DaemonSets. */
    method ModuleDaemonSetsByKernelVersion(mod: Module) returns (r: Result<map<string, DaemonSetObject>, DaemonSetError>)
      ensures r == if store.readFails then Err(ListFailed)
                   else ByKernel(ListOwned(store.objects, namespace, mod.name), kernelLabel)
    {
      var items := store.List(namespace, mod.name);
      if items.None? {
        return Err(ListFailed);
      }
      var listed := items.value;
      var m: map<string, DaemonSetObject> := map[];
      for i := 0 to |listed|
        invariant ByKernel(listed[..i], kernelLabel) == Ok(m)
      {
        assert listed[..i + 1][..i] == listed[..i];
        var k := KernelOf(listed[i], kernelLabel);
        if k in m {
          ByKernelErrorPersists(listed, kernelLabel, i + 1);
          return Err(AmbiguousDaemonSets(k));
        }
        m := m[k := listed[i]];
      }
      assert listed[..|listed|] == listed;
      r := Ok(m);
    }
  }
}
