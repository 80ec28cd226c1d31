/** The first build manager (package controllers/build): a kaniko job per (module, kernel)
    in the operator's namespace, labelled by module and kernel only, after a registry
    check of the mapping's container image. */
module LegacyBuild {
  import opened Common
  import opened Api
  import opened Kube
  import opened BuildResult
  import opened Correlation
  import opened Jobs
  import Builder

  /** GetJobLabels. */
  function JobLabels(mod: Module, kernel: string): Labels
  {
    map[ModuleNameLabel := mod.name, TargetKernelLabel := kernel]
  }

  /** Two entries, module name and kernel; and since they are a part of the stage-aware
      triple, this lookup also lists the jobs of both stages of the stage-aware manager
      for the same module and kernel. */
  lemma JobLabelsExact(mod: Module, kernel: string, stage: string)
    ensures JobLabels(mod, kernel).Keys == {ModuleNameLabel, TargetKernelLabel}
    ensures |JobLabels(mod, kernel)| == 2
    ensures JobLabels(mod, kernel)[ModuleNameLabel] == mod.name
    ensures JobLabels(mod, kernel)[TargetKernelLabel] == kernel
    ensures SelectorMatches(JobLabels(mod, kernel), StageLabels(mod, kernel, stage))
  {
    var keys := JobLabels(mod, kernel).Keys;
    assert keys == {ModuleNameLabel} + {TargetKernelLabel};
  }

  /** The kaniko arguments: destination, the kernel version, then the two insecure flags. */
  function KanikoArgs(km: KernelMapping, kernel: string): seq<string>
    requires km.build.Some?
  {
    ["--destination", km.containerImage, "--build-arg", Builder.KernelVersionArg + "=" + kernel] +
    (if km.build.value.pull.insecure then ["--insecure-pull"] else []) +
    (if km.build.value.push.insecure then ["--insecure"] else [])
  }

  /** MakeJob: the job, in namespace `ns`, or the owner-reference failure. */
  function KanikoJob(mod: Module, km: KernelMapping, kernel: string, ns: string, registersModule: bool)
    : Result<Job, MakeError>
    requires km.build.Some?
  {
    if !registersModule then Err(OwnerReferenceFailed)
    else
      Ok(Job(
        mod.name + "-build-", ns, JobLabels(mod, kernel), [ControllerReference(mod)], 1,
        map["Dockerfile" := km.build.value.dockerfile],
        [Container("kaniko", Builder.KanikoImage, KanikoArgs(km, kernel), [Builder.DockerfileMount])],
        OnFailure, [Builder.DockerfileVolume], JobStatus(0, 0, 0)))
  }

  /** The made job: found by this manager's own lookup in the namespace it was made in,
      pushing to the mapping's container image, with the kernel version as the only build
      argument, the insecure flags exactly as the mapping asks, and the Dockerfile handed
      over through the annotation. */
  lemma KanikoJobShape(mod: Module, km: KernelMapping, kernel: string, ns: string, registersModule: bool)
    requires km.build.Some?
    ensures KanikoJob(mod, km, kernel, ns, registersModule).Err? <==> !registersModule
    ensures KanikoJob(mod, km, kernel, ns, registersModule).Ok? ==>
      var j := KanikoJob(mod, km, kernel, ns, registersModule).value;
      var args := j.containers[0].args;
      JobMatches(j, JobLabels(mod, kernel), ns) &&
      j.labels == JobLabels(mod, kernel) && j.namespace == ns &&
      j.generateName == mod.name + "-build-" && j.ownerReferences == [ControllerReference(mod)] &&
      j.completions == 1 && j.restartPolicy == OnFailure &&
      j.status == JobStatus(0, 0, 0) && |j.containers| == 1 &&
      args[..4] == ["--destination", km.containerImage, "--build-arg", "KERNEL_VERSION=" + kernel] &&
      args[4..] == (if km.build.value.pull.insecure then ["--insecure-pull"] else []) +
                   (if km.build.value.push.insecure then ["--insecure"] else []) &&
      ("--insecure-pull" in args[4..] <==> km.build.value.pull.insecure) &&
      ("--insecure" in args[4..] <==> km.build.value.push.insecure) &&
      j.annotations["Dockerfile"] == km.build.value.dockerfile &&
      j.volumes == [Builder.DockerfileVolume] && j.containers[0].volumeMounts == [Builder.DockerfileMount]
  {
    if registersModule {
      var args := KanikoJob(mod, km, kernel, ns, registersModule).value.containers[0].args;
      var a := if km.build.value.pull.insecure then ["--insecure-pull"] else [];
      var b := if km.build.value.push.insecure then ["--insecure"] else [];
      var head := ["--destination", km.containerImage, "--build-arg", Builder.KernelVersionArg + "=" + kernel];
      assert Builder.KernelVersionArg + "=" + kernel == "KERNEL_VERSION=" + kernel;
      assert args == head + (a + b);
      assert args[..4] == head;
      assert args[4..] == a + b;
      assert "--insecure-pull" != "--insecure";
    }
  }

  /** The stage-aware builder is a generalisation of this job: with no pull secret, no build
      secrets, no TLS-skipping, no extra build argument, no signing section and the same
      build configuration, it makes the same job except for its namespace and labels. */
  lemma BuilderGeneralisesKanikoJob(helper: Builder.Helper, mod: Module, km: KernelMapping, kernel: string, ns: string)
    requires km.build.Some? && helper.relevantBuild(mod, km) == km.build.value
    requires km.build.value.secrets == [] && mod.spec.imagePullSecret.None?
    requires !km.build.value.pull.insecureSkipTlsVerify && !km.build.value.push.insecureSkipTlsVerify
    requires helper.applyBuildArgOverrides(km.build.value.buildArgs, BuildArg(Builder.KernelVersionArg, kernel))
             == [BuildArg(Builder.KernelVersionArg, kernel)]
    requires km.sign.None? && km.containerImage != ""
    ensures Builder.BuildJob(helper, mod, km, kernel, true).Ok?
    ensures Builder.BuildJob(helper, mod, km, kernel, true).value ==
      KanikoJob(mod, km, kernel, ns, true).value.(namespace := mod.namespace, labels := StageLabels(mod, kernel, Builder.Name))
  {
    var bc := km.build.value;
    var buildArgs := [BuildArg(Builder.KernelVersionArg, kernel)];
    assert Builder.BuildArgFlags(buildArgs) == ["--build-arg", Builder.KernelVersionArg + "=" + kernel];
    assert Builder.KanikoArgs(km.containerImage, buildArgs, bc) == KanikoArgs(km, kernel);
    assert Builder.BuildVolumes(mod, bc) == [Builder.DockerfileVolume];
    assert Builder.BuildMounts(mod, bc) == [Builder.DockerfileMount];
  }

  /** What remote.Get answered for a parsed or unparseable image reference. */
  datatype RegistryAnswer = Unparseable | Manifest | TransportError(statusCode: int) | OtherError

  /** The registry transport is not part of this model: its answer for an image name,
      parsed insecurely or not, is a parameter. */
  type Remote = (string, bool) -> RegistryAnswer

  /** IsImageAvailable's classification of the registry's answer. */
  function Classify(a: RegistryAnswer): ProbeOutcome
  {
    match a
    case Manifest => ImagePresent
    case TransportError(code) => if code == 404 then ImageAbsent else ProbeError
    case _ => ProbeError
  }

  /** Only a 404 from the registry means "absent" (and leads to a build); only a fetched
      manifest means "present"; every other answer, including an unparseable name, is an
      error. */
  lemma ClassifyExact(a: RegistryAnswer)
    ensures Classify(a) == ImageAbsent <==> a == TransportError(404)
    ensures Classify(a) == ImagePresent <==> a == Manifest
    ensures Classify(a) == ProbeError <==> a != Manifest && a != TransportError(404)
  {
  }

  /** Sync after the registry probe: the outcome and the jobs afterwards, for the lookup
      namespace `ns` and the job `made` that MakeJob would return. A succeeded job is
      reported Completed with a requeue. */
  function SyncStep(
    probe: ProbeOutcome, mod: Module, kernel: string, ns: string, made: Result<Job, MakeError>,
    jobs: seq<Job>, listFails: bool, createFails: bool): (SyncOutcome, seq<Job>)
  {
    match probe
    case ProbeError => (Err(ProbeFailed), jobs)
    case ImagePresent => (Ok(StageResult(Completed, false)), jobs)
    case ImageAbsent => Correlate(jobs, JobLabels(mod, kernel), ns, listFails, made, createFails, true)
  }

  /** When the made job is one this lookup finds: Sync creates only when no job matches,
      keeps at most one match, and a second Sync with the same answers creates nothing
      more and reports the status of the job the first one created (for a fresh job, an
      unknown-status error). A present image is Completed without requeue, a succeeded job
      Completed with one. */
  lemma SyncFindBeforeCreate(
    probe: ProbeOutcome, mod: Module, kernel: string, ns: string, made: Result<Job, MakeError>,
    jobs: seq<Job>, listFails: bool, createFails: bool)
    requires made.Ok? ==> JobMatches(made.value, JobLabels(mod, kernel), ns)
    ensures var (r, after) := SyncStep(probe, mod, kernel, ns, made, jobs, listFails, createFails);
      var sel := JobLabels(mod, kernel);
      (after == jobs ||
       (probe == ImageAbsent && r == Ok(StageResult(Created, true)) && made.Ok? &&
        (forall j :: j in jobs ==> !JobMatches(j, sel, ns)) && after == jobs + [made.value])) &&
      (|Filter(jobs, sel, ns)| <= 1 ==> |Filter(after, sel, ns)| <= 1) &&
      (probe == ImagePresent ==> r == Ok(StageResult(Completed, false)))
    ensures var (r1, after1) := SyncStep(probe, mod, kernel, ns, made, jobs, listFails, createFails);
      var (r2, after2) := SyncStep(probe, mod, kernel, ns, made, after1, listFails, createFails);
      after2 == after1 &&
      (r1 == Ok(StageResult(Created, true)) ==> r2 == JobStatusOutcome(made.value.status, true))
    ensures (!listFails && LookupJob(jobs, JobLabels(mod, kernel), ns, false).Found? &&
             LookupJob(jobs, JobLabels(mod, kernel), ns, false).job.status.succeeded == 1 &&
             probe == ImageAbsent) ==>
      SyncStep(probe, mod, kernel, ns, made, jobs, listFails, createFails).0 == Ok(StageResult(Completed, true))
  {
    var sel := JobLabels(mod, kernel);
    if probe == ImageAbsent {
      CorrelateCreatesOnlyWhenNoneMatch(jobs, sel, ns, listFails, made, createFails, true);
      CorrelateKeepsAtMostOne(jobs, sel, ns, listFails, made, createFails, true);
      CorrelateIdempotent(jobs, sel, ns, listFails, made, createFails, true);
    }
  }

  /** The converse of find before create: an absent image with no matching job always
      leads to the create, or to the make or create failure, which change nothing. */
  lemma SyncCreatesWhenNoneMatch(
    mod: Module, kernel: string, ns: string, made: Result<Job, MakeError>,
    jobs: seq<Job>, createFails: bool)
    requires forall j :: j in jobs ==> !JobMatches(j, JobLabels(mod, kernel), ns)
    ensures var (r, after) := SyncStep(ImageAbsent, mod, kernel, ns, made, jobs, false, createFails);
      (made.Err? ==> r == Err(MakeJobFailed(made.error)) && after == jobs) &&
      (made.Ok? && createFails ==> r == Err(CreateFailed) && after == jobs) &&
      (made.Ok? && !createFails ==> r == Ok(StageResult(Created, true)) && after == jobs + [made.value])
  {
    CorrelateOutcomes(jobs, JobLabels(mod, kernel), ns, false, made, createFails, true);
  }

  /** jobManager of controllers/build. */
  class JobManager {
    const client: JobStore
    const namespace: string
    const registersModule: bool
    const remote: Remote

    constructor (client: JobStore, namespace: string, registersModule: bool, remote: Remote)
      ensures this.client == client && this.namespace == namespace
      ensures this.registersModule == registersModule && this.remote == remote
    {
      this.client := client;
      this.namespace := namespace;
      this.registersModule := registersModule;
      this.remote := remote;
    }

    /** GetJob: the job of (module, kernel) in the operator's namespace. */
    method GetJob(mod: Module, kernel: string) returns (l: Lookup)
      ensures l == LookupJob(client.jobs, JobLabels(mod, kernel), namespace, client.listFails)
    {
      l := Jobs.GetJob(client, JobLabels(mod, kernel), namespace);
    }

    method MakeJob(mod: Module, km: KernelMapping, kernel: string) returns (r: Result<Job, MakeError>)
      requires km.build.Some?
      ensures r == KanikoJob(mod, km, kernel, namespace, registersModule)
    {
      var args := ["--destination", km.containerImage, "--build-arg", Builder.KernelVersionArg + "=" + kernel];
      if km.build.value.pull.insecure {
        args := args + ["--insecure-pull"];
      }
      if km.build.value.push.insecure {
        args := args + ["--insecure"];
      }
      var job := Job(
        mod.name + "-build-", namespace, JobLabels(mod, kernel), [], 1,
        map["Dockerfile" := km.build.value.dockerfile],
        [Container("kaniko", Builder.KanikoImage, args, [Builder.DockerfileMount])],
        OnFailure, [Builder.DockerfileVolume], JobStatus(0, 0, 0));
      if !registersModule {
        return Err(OwnerReferenceFailed);
      }
      assert args == KanikoArgs(km, kernel);
      job := job.(ownerReferences := job.ownerReferences + [ControllerReference(mod)]);
      assert job.ownerReferences == [ControllerReference(mod)];
      r := Ok(job);
    }

    /** IsImageAvailable: the image name is parsed insecurely when the pull options say so. */
    method IsImageAvailable(image: string, po: PullOptions) returns (p: ProbeOutcome)
      ensures p == Classify(remote(image, po.insecure))
    {
      var answer := remote(image, po.insecure);
      if answer.Unparseable? {
        return ProbeError;
      }
      if answer.Manifest? {
        return ImagePresent;
      }
      if answer.TransportError? && answer.statusCode == 404 {
        return ImageAbsent;
      }
      p := ProbeError;
    }

    method Sync(mod: Module, km: KernelMapping, kernel: string) returns (r: SyncOutcome)
      requires km.build.Some?
      modifies client
      ensures (r, client.jobs) == SyncStep(
        Classify(remote(km.containerImage, km.build.value.pull.insecure)), mod, kernel, namespace,
        KanikoJob(mod, km, kernel, namespace, registersModule),
        old(client.jobs), client.listFails, client.createFails)
    {
      var probe := IsImageAvailable(km.containerImage, km.build.value.pull);
      if probe == ProbeError {
        return Err(ProbeFailed);
      }
      if probe == ImagePresent {
        return Ok(StageResult(Completed, false));
      }
      var l := GetJob(mod, kernel);
      match l
      case ListError =>
        return Err(ListFailed);
      case Ambiguous(n) =>
        return Err(AmbiguousJobs(n));
      case Found(j) =>
        return JobStatusOutcome(j.status, true);
      case NoMatchingJob =>
        var made := MakeJob(mod, km, kernel);
        if made.Err? {
          return Err(MakeJobFailed(made.error));
        }
        var ok := client.Create(made.value);
        if !ok {
          return Err(CreateFailed);
        }
        return Ok(StageResult(Created, true));
    }
  }
}
