/** The Module reconciler's pass, as its tests describe it: for every kernel of the nodes the
    module selects, find the kernel mapping, run the build when the mapping has one, then
    set the kernel's DaemonSet as desired, creating it or patching the existing one; and
    the two event filters that decide which DaemonSet and Node events trigger a pass. */
module ModuleReconciler {
  import opened Common
  import opened Api
  import opened Kube
  import opened BuildResult
  import opened DaemonSetStore
  import opened DaemonSets

  /** KernelMapper.FindMappingForKernel, which is not part of this model: the mapping of
      the module for a kernel, if any. */
  type KernelMapper = (seq<KernelMapping>, string) -> Option<KernelMapping>

  /** build.Manager.Sync, by its outcome; its effect on the job store is that of the build
      managers' Sync. */
  type BuildSync = (Module, KernelMapping, string) -> SyncOutcome

  /** The collaborator calls of a pass, in order. */
  datatype Call =
    | FindMapping(kernel: string)
    | SyncBuild(kernel: string)
    | ListDaemonSets
    | SetDesired(kernel: string)

  datatype ReconcileError =
    | BuildFailed(buildError: SyncError)
    | DaemonSetFailed(daemonSetError: DaemonSetError)
    | DaemonSetWriteFailed

  /** The kernels of the nodes the selector matches, each once, in node order. */
  function MatchingKernels(nodes: seq<Node>, selector: Labels): (ks: seq<string>)
    ensures forall i, j :: 0 <= i < j < |ks| ==> ks[i] != ks[j]
  {
    if |nodes| == 0 then []
    else
      var n := nodes[|nodes| - 1];
      var ks := MatchingKernels(nodes[..|nodes| - 1], selector);
      if SelectorMatches(selector, n.labels) && n.kernelVersion !in ks then ks + [n.kernelVersion] else ks
  }

  /** A kernel is reconciled exactly when some node the selector matches runs it; no
      matching node means no kernel at all. */
  lemma {:induction false} MatchingKernelsExact(nodes: seq<Node>, selector: Labels)
    ensures forall k :: k in MatchingKernels(nodes, selector) <==>
      exists i :: 0 <= i < |nodes| && SelectorMatches(selector, nodes[i].labels) && nodes[i].kernelVersion == k
    ensures MatchingKernels(nodes, selector) == [] <==>
      forall i :: 0 <= i < |nodes| ==> !SelectorMatches(selector, nodes[i].labels)
    decreases |nodes|
  {
    if |nodes| > 0 {
      var init := nodes[..|nodes| - 1];
      MatchingKernelsExact(init, selector);
      forall k | k in MatchingKernels(nodes, selector)
        ensures exists i :: 0 <= i < |nodes| && SelectorMatches(selector, nodes[i].labels) && nodes[i].kernelVersion == k
      {
        if k in MatchingKernels(init, selector) {
          var i :| 0 <= i < |init| && SelectorMatches(selector, init[i].labels) && init[i].kernelVersion == k;
          assert nodes[i] == init[i];
        } else {
          assert SelectorMatches(selector, nodes[|nodes| - 1].labels) && nodes[|nodes| - 1].kernelVersion == k;
        }
      }
      forall i | 0 <= i < |nodes| && SelectorMatches(selector, nodes[i].labels)
        ensures nodes[i].kernelVersion in MatchingKernels(nodes, selector)
      {
        if i < |init| {
          assert nodes[i] == init[i];
        }
      }
    }
  }

  /** The kernels of the nodes the selector matches, collected node by node, each once. */
  method CollectKernels(nodes: seq<Node>, selector: Labels) returns (kernels: seq<string>)
    ensures kernels == MatchingKernels(nodes, selector)
  {
    kernels := [];
    for i := 0 to |nodes|
      invariant kernels == MatchingKernels(nodes[..i], selector)
    {
      assert nodes[..i + 1][..i] == nodes[..i];
      if SelectorMatches(selector, nodes[i].labels) && nodes[i].kernelVersion !in kernels {
        kernels := kernels + [nodes[i].kernelVersion];
      }
    }
    assert nodes[..|nodes|] == nodes;
  }

  /** The calls of a complete kernel step: the mapping, the build when the mapping has
      one, the DaemonSet index, and SetAsDesired. */
  function FullCalls(kernel: string, hasBuild: bool): seq<Call>
  {
    [FindMapping(kernel)] + (if hasBuild then [SyncBuild(kernel)] else []) + [ListDaemonSets, SetDesired(kernel)]
  }

  /** The error SetAsDesired reports for a (present) DaemonSet, if any. */
  function SetAsDesiredError(image: string, kernel: string, registersModule: bool): Option<DaemonSetError>
  {
    if image == "" then Some(EmptyImage)
    else if kernel == "" then Some(EmptyKernel)
    else if !registersModule then Some(DaemonSetError.OwnerReferenceFailed)
    else None
  }

  /** ModuleReconcilerOwnedPredicate(namespace) on a created DaemonSet: it is in the
      operator's namespace and carries a module-name label. */
  predicate OwnedAccepts(namespace: string, ds: DaemonSetObject)
  {
    ds.namespace == namespace && Get(ds.labels, ModuleNameLabel) != ""
  }

  /** A Node event. */
  datatype NodeEvent = NodeCreated(node: Node) | NodeUpdated(oldNode: Node, newNode: Node) | NodeDeleted(node: Node)

  /** ModuleReconcilerNodePredicate(kernelLabel). */
  predicate NodeAccepts(kernelLabel: string, e: NodeEvent)
  {
    match e
    case NodeCreated(_) => true
    case NodeUpdated(_, n) => kernelLabel in n.labels
    case NodeDeleted(_) => false
  }

  /** Every created Node triggers a pass, no deleted one does, and an update does exactly
      when the updated Node carries the kernel label. */
  lemma NodeAcceptsExact(kernelLabel: string, e: NodeEvent)
    ensures e.NodeCreated? ==> NodeAccepts(kernelLabel, e)
    ensures e.NodeDeleted? ==> !NodeAccepts(kernelLabel, e)
    ensures e.NodeUpdated? ==> (NodeAccepts(kernelLabel, e) <==> kernelLabel in e.newNode.labels)
  {
  }

  /** The desired DaemonSet of a module is one the owned predicate accepts when it lives in
      the operator's namespace and the module has a name. */
  lemma DesiredIsOwned(o: DaemonSetObject, image: string, mod: Module, kernelLabel: string, kernel: string, namespace: string)
    requires kernelLabel != ModuleNameLabel && mod.name != "" && o.namespace == namespace
    ensures OwnedAccepts(namespace, Desired(o, image, mod, kernelLabel, kernel))
    ensures !OwnedAccepts(namespace, o.(labels := map[]))
  {
  }

  class ModuleReconciler {
    const namespace: string
    const mapper: KernelMapper
    const buildSync: BuildSync
    const creator: DaemonSetCreator

    constructor (namespace: string, mapper: KernelMapper, buildSync: BuildSync, creator: DaemonSetCreator)
      ensures this.namespace == namespace && this.mapper == mapper
      ensures this.buildSync == buildSync && this.creator == creator
    {
      this.namespace := namespace;
      this.mapper := mapper;
      this.buildSync := buildSync;
      this.creator := creator;
    }

    /** The DaemonSet part of a kernel's step, once its build (if any) has completed with
        `requeue`: index the module's DaemonSets, set the kernel's one (or a fresh one
        named after the module) as desired, then patch or create it. Returns the outcome,
        the calls made and the DaemonSets afterwards. */
    function DaemonSetStep(mod: Module, km: KernelMapping, kernel: string, requeue: bool, objects: seq<DaemonSetObject>)
      : (Result<bool, ReconcileError>, seq<Call>, seq<DaemonSetObject>)
    {
      var index := if creator.store.readFails then Err(DaemonSetError.ListFailed)
                   else ByKernel(ListOwned(objects, creator.namespace, mod.name), creator.kernelLabel);
      if index.Err? then (Err(DaemonSetFailed(index.error)), [ListDaemonSets], objects)
      else WriteDesired(mod, km, kernel, requeue, objects, index.value)
    }

    /** The write half of a DaemonSet step, given the kernel index: set the kernel's
        DaemonSet (or a fresh one named after the module) as desired, then patch or
        create it. */
    function WriteDesired(mod: Module, km: KernelMapping, kernel: string, requeue: bool, objects: seq<DaemonSetObject>,
                          index: map<string, DaemonSetObject>)
      : (Result<bool, ReconcileError>, seq<Call>, seq<DaemonSetObject>)
    {
      var existing := kernel in index;
      var base := if existing then index[kernel] else Blank("", mod.name + "-", namespace);
      var err := SetAsDesiredError(km.containerImage, kernel, creator.registersModule);
      var calls := [ListDaemonSets, SetDesired(kernel)];
      if err.Some? then (Err(DaemonSetFailed(err.value)), calls, objects)
      else if creator.store.writeFails then (Err(DaemonSetWriteFailed), calls, objects)
      else
        var d := Desired(base, km.containerImage, mod, creator.kernelLabel, kernel);
        (Ok(requeue), calls,
         if existing then Replace(objects, d) else objects + [Named(d, creator.store.generate, |objects|)])
    }

    /** One kernel of a pass over the DaemonSets `objects`: the outcome (whether to requeue,
        or the error), the calls made and the DaemonSets afterwards. A kernel without a
        mapping is skipped; a build that has not completed skips the DaemonSet. */
    function KernelStep(mod: Module, kernel: string, objects: seq<DaemonSetObject>)
      : (Result<bool, ReconcileError>, seq<Call>, seq<DaemonSetObject>)
    {
      match mapper(mod.spec.kernelMappings, kernel)
      case None => (Ok(false), [FindMapping(kernel)], objects)
      case Some(km) =>
        var built := if km.build.Some? then buildSync(mod, km, kernel) else Ok(StageResult(Completed, false));
        var calls := [FindMapping(kernel)] + (if km.build.Some? then [SyncBuild(kernel)] else []);
        if built.Err? then (Err(BuildFailed(built.error)), calls, objects)
        else if built.value.status != Completed then (Ok(built.value.requeue), calls, objects)
        else
          var (r, dsCalls, after) := DaemonSetStep(mod, km, kernel, built.value.requeue, objects);
          (r, calls + dsCalls, after)
    }

    /** Call order: every kernel step makes a prefix of the full call sequence (mapping,
        build exactly when the mapping has one, index, SetAsDesired), and it changes the
        DaemonSets only after making all of them. A kernel without a mapping, or whose
        build fails or is not complete, leaves the DaemonSets alone. */
    lemma KernelStepCallOrder(mod: Module, kernel: string, objects: seq<DaemonSetObject>)
      ensures var (r, calls, after) := KernelStep(mod, kernel, objects);
        var km := mapper(mod.spec.kernelMappings, kernel);
        (km.None? ==> calls == [FindMapping(kernel)] && r == Ok(false) && after == objects) &&
        (km.Some? ==>
           calls == FullCalls(kernel, km.value.build.Some?)[..|calls|] &&
           (after != objects ==> calls == FullCalls(kernel, km.value.build.Some?) && r.Ok?) &&
           (km.value.build.None? ==> SyncBuild(kernel) !in calls) &&
           ((km.value.build.Some? &&
             (buildSync(mod, km.value, kernel).Err? || buildSync(mod, km.value, kernel).value.status != Completed))
            ==> after == objects))
    {
      var km := mapper(mod.spec.kernelMappings, kernel);
      if km.Some? {
        var full := FullCalls(kernel, km.value.build.Some?);
        if km.value.build.Some? {
          assert full[..2] == [FindMapping(kernel), SyncBuild(kernel)];
          assert full[..3] == [FindMapping(kernel), SyncBuild(kernel), ListDaemonSets];
        } else {
          assert full[..1] == [FindMapping(kernel)];
          assert full[..2] == [FindMapping(kernel), ListDaemonSets];
        }
      }
    }

    /** The write half succeeds exactly when SetAsDesired accepts the kernel's DaemonSet
        and the store accepts the write; it then returns the build's requeue. On failure
        the DaemonSets are left as they were. Either way it calls the index and then
        SetAsDesired. */
    lemma WriteDesiredOutcome(mod: Module, km: KernelMapping, kernel: string, requeue: bool, objects: seq<DaemonSetObject>,
                              index: map<string, DaemonSetObject>)
      ensures var (r, calls, after) := WriteDesired(mod, km, kernel, requeue, objects, index);
        (r.Ok? <==> SetAsDesiredError(km.containerImage, kernel, creator.registersModule).None? && !creator.store.writeFails) &&
        (r.Ok? ==> r.value == requeue) &&
        (r.Err? ==> after == objects) &&
        calls == [ListDaemonSets, SetDesired(kernel)]
    {
    }

    /** A DaemonSet step succeeds exactly when the store lists, the index is unambiguous
        and the write half succeeds; a failed step leaves the DaemonSets as they were. */
    lemma DaemonSetStepOutcome(mod: Module, km: KernelMapping, kernel: string, requeue: bool, objects: seq<DaemonSetObject>)
      ensures var (r, _, after) := DaemonSetStep(mod, km, kernel, requeue, objects);
        (r.Ok? <==> !creator.store.readFails &&
                    ByKernel(ListOwned(objects, creator.namespace, mod.name), creator.kernelLabel).Ok? &&
                    SetAsDesiredError(km.containerImage, kernel, creator.registersModule).None? &&
                    !creator.store.writeFails) &&
        (r.Err? ==> after == objects)
    {
      if !creator.store.readFails && ByKernel(ListOwned(objects, creator.namespace, mod.name), creator.kernelLabel).Ok? {
        var index := ByKernel(ListOwned(objects, creator.namespace, mod.name), creator.kernelLabel).value;
        assert DaemonSetStep(mod, km, kernel, requeue, objects) == WriteDesired(mod, km, kernel, requeue, objects, index);
        WriteDesiredOutcome(mod, km, kernel, requeue, objects, index);
      }
    }

    /** Create when absent: when the kernel has no DaemonSet yet, a DaemonSet step that
        succeeds appends exactly one DaemonSet, the desired one under a generated
        "<module>-" name in the reconciler's namespace (CreatedIsIndexed: the next pass's
        index then finds it as the kernel's one DaemonSet, so that pass patches it). */
    lemma DaemonSetStepCreatesOnce(mod: Module, km: KernelMapping, kernel: string, requeue: bool, objects: seq<DaemonSetObject>)
      requires !creator.store.readFails
      requires ByKernel(ListOwned(objects, creator.namespace, mod.name), creator.kernelLabel).Ok?
      requires kernel !in ByKernel(ListOwned(objects, creator.namespace, mod.name), creator.kernelLabel).value
      ensures DaemonSetStep(mod, km, kernel, requeue, objects).0.Ok? ==>
          DaemonSetStep(mod, km, kernel, requeue, objects).2 == objects + [Named(Desired(Blank("", mod.name + "-", namespace), km.containerImage, mod, creator.kernelLabel, kernel),
                                    creator.store.generate, |objects|)]
    {
      var index := ByKernel(ListOwned(objects, creator.namespace, mod.name), creator.kernelLabel).value;
      WriteDesiredCreates(mod, km, kernel, requeue, objects, index);
    }

    /** Without an indexed DaemonSet for the kernel, the write half, when it succeeds,
        appends the desired DaemonSet under a generated "<module>-" name. */
    lemma WriteDesiredCreates(mod: Module, km: KernelMapping, kernel: string, requeue: bool, objects: seq<DaemonSetObject>,
                              index: map<string, DaemonSetObject>)
      requires kernel !in index
      ensures WriteDesired(mod, km, kernel, requeue, objects, index).0.Ok? ==>
          WriteDesired(mod, km, kernel, requeue, objects, index).2 == objects + [Named(Desired(Blank("", mod.name + "-", namespace), km.containerImage, mod, creator.kernelLabel, kernel),
                                    creator.store.generate, |objects|)]
    {
    }

    /** Patch when present: when the kernel already has its DaemonSet, a DaemonSet step
        that succeeds keeps the number of DaemonSets and turns the one under that
        DaemonSet's name into the desired object, leaving every DaemonSet under another
        name as it was. */
    lemma DaemonSetStepPatchesExisting(mod: Module, km: KernelMapping, kernel: string, requeue: bool, objects: seq<DaemonSetObject>)
      requires !creator.store.readFails
      requires ByKernel(ListOwned(objects, creator.namespace, mod.name), creator.kernelLabel).Ok?
      requires kernel in ByKernel(ListOwned(objects, creator.namespace, mod.name), creator.kernelLabel).value
      ensures DaemonSetStep(mod, km, kernel, requeue, objects).0.Ok? ==>
        var after := DaemonSetStep(mod, km, kernel, requeue, objects).2;
        var prior := ByKernel(ListOwned(objects, creator.namespace, mod.name), creator.kernelLabel).value[kernel];
        |after| == |objects| &&
        Find(after, prior.namespace, prior.name) == Some(Desired(prior, km.containerImage, mod, creator.kernelLabel, kernel)) &&
        (forall i :: 0 <= i < |objects| && !HasKey(objects[i], prior.namespace, prior.name) ==> after[i] == objects[i])
    {
      var listed := ListOwned(objects, creator.namespace, mod.name);
      var index := ByKernel(listed, creator.kernelLabel).value;
      assert DaemonSetStep(mod, km, kernel, requeue, objects) == WriteDesired(mod, km, kernel, requeue, objects, index);
      IndexedIsListed(listed, creator.kernelLabel, kernel);
      assert index[kernel] in objects;
      WriteDesiredPatches(mod, km, kernel, requeue, objects, index);
    }

    /** With the kernel's DaemonSet indexed, the write half, when it succeeds, patches that
        DaemonSet in place into the desired object and leaves the others alone. */
    lemma WriteDesiredPatches(mod: Module, km: KernelMapping, kernel: string, requeue: bool, objects: seq<DaemonSetObject>,
                              index: map<string, DaemonSetObject>)
      requires kernel in index && index[kernel] in objects
      ensures WriteDesired(mod, km, kernel, requeue, objects, index).0.Ok? ==>
        var after := WriteDesired(mod, km, kernel, requeue, objects, index).2;
        var prior := index[kernel];
        |after| == |objects| &&
        Find(after, prior.namespace, prior.name) == Some(Desired(prior, km.containerImage, mod, creator.kernelLabel, kernel)) &&
        (forall i :: 0 <= i < |objects| && !HasKey(objects[i], prior.namespace, prior.name) ==> after[i] == objects[i])
    {
      PatchedIsFound(objects, index[kernel], km.containerImage, mod, creator.kernelLabel, kernel);
    }

    /** The DaemonSet part of a kernel's step, through the creator and the store. */
    method ReconcileDaemonSet(mod: Module, km: KernelMapping, kernel: string, requeue: bool)
      returns (r: Result<bool, ReconcileError>, calls: seq<Call>)
      modifies creator.store
      ensures (r, calls, creator.store.objects) == DaemonSetStep(mod, km, kernel, requeue, old(creator.store.objects))
    {
      var index := creator.ModuleDaemonSetsByKernelVersion(mod);
      calls := [ListDaemonSets];
      if index.Err? {
        return Err(DaemonSetFailed(index.error)), calls;
      }
      var existing := kernel in index.value;
      var ds: DaemonSet;
      if existing {
        ds := new DaemonSet(index.value[kernel]);
      } else {
        ds := new DaemonSet(Blank("", mod.name + "-", namespace));
      }
      var err := creator.SetAsDesired(ds, km.containerImage, mod, kernel);
      calls := calls + [SetDesired(kernel)];
      assert calls == [ListDaemonSets, SetDesired(kernel)];
      assert err == SetAsDesiredError(km.containerImage, kernel, creator.registersModule);
      if err.Some? {
        return Err(DaemonSetFailed(err.value)), calls;
      }
      var ok;
      if existing {
        ok := creator.store.Patch(ds.Object());
      } else {
        ok := creator.store.Create(ds.Object());
      }
      if !ok {
        return Err(DaemonSetWriteFailed), calls;
      }
      r := Ok(requeue);
    }

    /** One kernel of a pass: the steps KernelStep describes, through the collaborators. */
    method ReconcileKernel(mod: Module, kernel: string) returns (r: Result<bool, ReconcileError>, calls: seq<Call>)
      modifies creator.store
      ensures (r, calls, creator.store.objects) == KernelStep(mod, kernel, old(creator.store.objects))
    {
      var found := mapper(mod.spec.kernelMappings, kernel);
      calls := [FindMapping(kernel)];
      if found.None? {
        return Ok(false), calls;
      }
      var km := found.value;
      var requeue := false;
      if km.build.Some? {
        var built := buildSync(mod, km, kernel);
        calls := calls + [SyncBuild(kernel)];
        if built.Err? {
          return Err(BuildFailed(built.error)), calls;
        }
        if built.value.status != Completed {
          return Ok(built.value.requeue), calls;
        }
        requeue := built.value.requeue;
      } else {
        assert calls == [FindMapping(kernel)] + [];
      }
      var dsCalls;
      r, dsCalls := ReconcileDaemonSet(mod, km, kernel, requeue);
      calls := calls + dsCalls;
    }

    /** The pass over the kernels `ks`: requeue when some kernel asks for it; the first
        error ends the pass. */
    function Pass(mod: Module, ks: seq<string>, objects: seq<DaemonSetObject>)
      : (Result<bool, ReconcileError>, seq<Call>, seq<DaemonSetObject>)
    {
      if |ks| == 0 then (Ok(false), [], objects)
      else
        var (r0, calls0, objects0) := Pass(mod, ks[..|ks| - 1], objects);
        if r0.Err? then (r0, calls0, objects0)
        else
          var (r1, calls1, objects1) := KernelStep(mod, ks[|ks| - 1], objects0);
          (if r1.Err? then r1 else Ok(r0.value || r1.value), calls0 + calls1, objects1)
    }

    /** Once a prefix of the kernels has failed, the pass has failed the same way. */
    lemma {:induction false} PassErrorPersists(mod: Module, ks: seq<string>, objects: seq<DaemonSetObject>, n: nat)
      requires n <= |ks| && Pass(mod, ks[..n], objects).0.Err?
      ensures Pass(mod, ks, objects) == Pass(mod, ks[..n], objects)
      decreases |ks| - n
    {
      if n < |ks| {
        var init := ks[..|ks| - 1];
        assert init[..n] == ks[..n];
        PassErrorPersists(mod, init, objects, n);
      } else {
        assert ks[..n] == ks;
      }
    }

    /** No node matches the module's selector: the pass succeeds without requeue, calls
        no collaborator and changes no DaemonSet. */
    lemma NoMatchingNodeIsNoOp(mod: Module, nodes: seq<Node>, objects: seq<DaemonSetObject>)
      requires forall i :: 0 <= i < |nodes| ==> !SelectorMatches(mod.spec.selector, nodes[i].labels)
      ensures Pass(mod, MatchingKernels(nodes, mod.spec.selector), objects) == (Ok(false), [], objects)
    {
      MatchingKernelsExact(nodes, mod.spec.selector);
    }

    /** The per-kernel loop of Reconcile: reconcile each kernel in order, stopping at the
        first error; requeue when some kernel asks for it. */
    method ReconcileKernels(mod: Module, ks: seq<string>) returns (r: Result<bool, ReconcileError>, calls: seq<Call>)
      modifies creator.store
      ensures (r, calls, creator.store.objects) == Pass(mod, ks, old(creator.store.objects))
    {
      r := Ok(false);
      calls := [];
      for i := 0 to |ks|
        invariant (r, calls, creator.store.objects) == Pass(mod, ks[..i], old(creator.store.objects))
        invariant r.Ok?
      {
        assert ks[..i + 1][..i] == ks[..i];
        ghost var before := creator.store.objects;
        var ri, callsi := ReconcileKernel(mod, ks[i]);
        assert (ri, callsi, creator.store.objects) == KernelStep(mod, ks[i], before);
        calls := calls + callsi;
        if ri.Err? {
          r := ri;
          PassErrorPersists(mod, ks, old(creator.store.objects), i + 1);
          return;
        }
        r := Ok(r.value || ri.value);
      }
      assert ks[..|ks|] == ks;
    }

    /** Reconcile, from the listed nodes on: collect the kernels of the matching nodes,
        then reconcile each. The result carries no requeue request unless a build asked
        for one. */
    method Reconcile(mod: Module, nodes: seq<Node>) returns (r: Result<bool, ReconcileError>, calls: seq<Call>)
      modifies creator.store
      ensures (r, calls, creator.store.objects) ==
        Pass(mod, MatchingKernels(nodes, mod.spec.selector), old(creator.store.objects))
    {
      var kernels := CollectKernels(nodes, mod.spec.selector);
      r, calls := ReconcileKernels(mod, kernels);
    }
  }

  /** Listing after an append lists the appended DaemonSet last, when it is the module's. */
  lemma ListOwnedAppend(objects: seq<DaemonSetObject>, ns: string, modName: string, o: DaemonSetObject)
    ensures ListOwned(objects + [o], ns, modName) == ListOwned(objects, ns, modName) +
      (if Owned(o, ns, modName) then [o] else [])
  {
    assert (objects + [o])[..|objects|] == objects;
  }

  /** Indexing one more DaemonSet for a kernel not yet indexed adds it under that kernel. */
  lemma ByKernelAppend(listed: seq<DaemonSetObject>, kernelLabel: string, o: DaemonSetObject)
    requires ByKernel(listed, kernelLabel).Ok? && KernelOf(o, kernelLabel) !in ByKernel(listed, kernelLabel).value
    ensures ByKernel(listed + [o], kernelLabel) == Ok(ByKernel(listed, kernelLabel).value[KernelOf(o, kernelLabel) := o])
  {
    assert (listed + [o])[..|listed|] == listed;
  }

  /** The DaemonSet created for a kernel not yet indexed is, after the create, the
      index's DaemonSet for that kernel. */
  lemma CreatedIsIndexed(mod: Module, kernelLabel: string, namespace: string, image: string, kernel: string,
                         gen: NameGenerator, objects: seq<DaemonSetObject>)
    requires kernelLabel != ModuleNameLabel
    requires ByKernel(ListOwned(objects, namespace, mod.name), kernelLabel).Ok?
    requires kernel !in ByKernel(ListOwned(objects, namespace, mod.name), kernelLabel).value
    ensures var d := Named(Desired(Blank("", mod.name + "-", namespace), image, mod, kernelLabel, kernel), gen, |objects|);
      ByKernel(ListOwned(objects + [d], namespace, mod.name), kernelLabel)
        == Ok(ByKernel(ListOwned(objects, namespace, mod.name), kernelLabel).value[kernel := d])
  {
    var base := Blank("", mod.name + "-", namespace);
    var desired := Desired(base, image, mod, kernelLabel, kernel);
    var d := Named(desired, gen, |objects|);
    DesiredContents(base, image, mod, kernelLabel, kernel);
    assert d.labels == desired.labels && d.namespace == namespace;
    ListOwnedAppend(objects, namespace, mod.name, d);
    ByKernelAppend(ListOwned(objects, namespace, mod.name), kernelLabel, d);
  }

  /** Patching a stored DaemonSet into its desired form: the patched store has the same
      length, finds the desired object under the DaemonSet's key and keeps every other. */
  lemma PatchedIsFound(objects: seq<DaemonSetObject>, prior: DaemonSetObject, image: string, mod: Module,
                       kernelLabel: string, kernel: string)
    requires prior in objects
    ensures var d := Desired(prior, image, mod, kernelLabel, kernel);
      var after := Replace(objects, d);
      |after| == |objects| && Find(after, prior.namespace, prior.name) == Some(d) &&
      (forall i :: 0 <= i < |objects| && !HasKey(objects[i], prior.namespace, prior.name) ==> after[i] == objects[i])
  {
    var d := Desired(prior, image, mod, kernelLabel, kernel);
    assert d.namespace == prior.namespace && d.name == prior.name;
    assert HasKey(prior, d.namespace, d.name);
    FindReplaced(objects, d);
  }

  /** Every DaemonSet of the index is one of the listed ones. */
  lemma IndexedIsListed(listed: seq<DaemonSetObject>, kernelLabel: string, kernel: string)
    requires ByKernel(listed, kernelLabel).Ok? && kernel in ByKernel(listed, kernelLabel).value
    ensures ByKernel(listed, kernelLabel).value[kernel] in listed
  {
    ByKernelIndex(listed, kernelLabel);
    var i :| 0 <= i < |listed| && KernelOf(listed[i], kernelLabel) == kernel;
  }

  /** After a patch, the patched key finds the patched object. */
  lemma {:induction false} FindReplaced(objects: seq<DaemonSetObject>, d: DaemonSetObject)
    requires exists o :: o in objects && HasKey(o, d.namespace, d.name)
    ensures Find(Replace(objects, d), d.namespace, d.name) == Some(d)
    decreases |objects|
  {
    var r := Replace(objects, d);
    if HasKey(objects[0], d.namespace, d.name) {
      assert r[0] == d;
    } else {
      assert r[1..] == Replace(objects[1..], d);
      var o :| o in objects && HasKey(o, d.namespace, d.name);
      assert o in objects[1..];
      FindReplaced(objects[1..], d);
    }
  }
}
