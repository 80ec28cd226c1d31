/** The second build manager (package controllers/build/job): the same kaniko job and Sync
    as package controllers/build, with the job's construction and the registry check
    delegated to a Maker and a Getter, and with two namespaces of its own, the lookup's
    and the maker's. */
module LegacyBuildJob {
  import opened Common
  import opened Api
  import opened Kube
  import opened BuildResult
  import opened Jobs
  import opened Correlation
  import Builder
  import LegacyBuild

  /** maker: builds the kaniko job in its own namespace. */
  class Maker {
    const namespace: string
    const registersModule: bool

    constructor (namespace: string, registersModule: bool)
      ensures this.namespace == namespace && this.registersModule == registersModule
    {
      this.namespace := namespace;
      this.registersModule := registersModule;
    }

    /** The job is the one package controllers/build makes, in the maker's namespace. */
    method MakeJob(mod: Module, km: KernelMapping, kernel: string) returns (r: Result<Job, MakeError>)
      requires km.build.Some?
      ensures r == LegacyBuild.KanikoJob(mod, km, kernel, namespace, registersModule)
    {
      var args := ["--destination", km.containerImage, "--build-arg", "KERNEL_VERSION=" + kernel];
      if km.build.value.pull.insecure {
        args := args + ["--insecure-pull"];
      }
      if km.build.value.push.insecure {
        args := args + ["--insecure"];
      }
      assert "KERNEL_VERSION=" + kernel == Builder.KernelVersionArg + "=" + kernel;
      assert args == LegacyBuild.KanikoArgs(km, kernel);
      var dockerfileMount := VolumeMount("dockerfile", true, "/workspace");
      var dockerfileVolume := Volume("dockerfile",
        DownwardApi([DownwardApiFile("Dockerfile", "metadata.annotations['Dockerfile']")]));
      var job := Job(
        mod.name + "-build-", namespace, LegacyBuild.JobLabels(mod, kernel), [], 1,
        map["Dockerfile" := km.build.value.dockerfile],
        [Container("kaniko", "gcr.io/kaniko-project/executor:latest", args, [dockerfileMount])],
        OnFailure, [dockerfileVolume], JobStatus(0, 0, 0));
      if !registersModule {
        return Err(OwnerReferenceFailed);
      }
      r := Ok(job.(ownerReferences := [ControllerReference(mod)]));
    }
  }

  /** build.Getter: whether an image exists, given the mapping's pull options. The registry
      is not part of this model. */
  type Getter = (string, PullOptions) -> ProbeOutcome

  /** With the maker's namespace differing from the lookup namespace, the job Sync creates
      is never found by the next Sync's lookup: with the image still absent and a working
      store, every Sync creates one more job. */
  lemma SplitNamespacesRecreate(
    mod: Module, km: KernelMapping, kernel: string, lookupNs: string, makerNs: string, jobs: seq<Job>)
    requires km.build.Some? && lookupNs != makerNs
    requires forall j :: j in jobs ==> !JobMatches(j, LegacyBuild.JobLabels(mod, kernel), lookupNs)
    ensures
      var made := LegacyBuild.KanikoJob(mod, km, kernel, makerNs, true);
      var (r1, after1) := LegacyBuild.SyncStep(ImageAbsent, mod, kernel, lookupNs, made, jobs, false, false);
      var (r2, after2) := LegacyBuild.SyncStep(ImageAbsent, mod, kernel, lookupNs, made, after1, false, false);
      r1 == Ok(StageResult(Created, true)) && r2 == Ok(StageResult(Created, true)) &&
      after2 == jobs + [made.value, made.value]
  {
    var sel := LegacyBuild.JobLabels(mod, kernel);
    var made := LegacyBuild.KanikoJob(mod, km, kernel, makerNs, true);
    LookupJobCardinality(jobs, sel, lookupNs);
    var after1 := jobs + [made.value];
    assert forall j :: j in after1 ==> !JobMatches(j, sel, lookupNs) by {
      forall j | j in after1
        ensures !JobMatches(j, sel, lookupNs)
      {
        if j !in jobs {
          assert j == made.value;
        }
      }
    }
    LookupJobCardinality(after1, sel, lookupNs);
  }

  /** jobManager of package controllers/build/job. */
  class JobManager {
    const client: JobStore
    const getter: Getter
    const maker: Maker
    const namespace: string

    constructor (client: JobStore, getter: Getter, maker: Maker, namespace: string)
      ensures this.client == client && this.getter == getter
      ensures this.maker == maker && this.namespace == namespace
    {
      this.client := client;
      this.getter := getter;
      this.maker := maker;
      this.namespace := namespace;
    }

    /** GetJob: the job of (module, kernel) in the manager's namespace. */
    method GetJob(mod: Module, kernel: string) returns (l: Lookup)
      ensures l == LookupJob(client.jobs, LegacyBuild.JobLabels(mod, kernel), namespace, client.listFails)
    {
      l := Jobs.GetJob(client, LegacyBuild.JobLabels(mod, kernel), namespace);
    }

    /** Sync: the Sync of package controllers/build with the getter's answer as the probe,
        the lookup in the manager's namespace and the job made in the maker's. */
    method Sync(mod: Module, km: KernelMapping, kernel: string) returns (r: SyncOutcome)
      requires km.build.Some?
      modifies client
      ensures (r, client.jobs) == LegacyBuild.SyncStep(
        getter(km.containerImage, km.build.value.pull), mod, kernel, namespace,
        LegacyBuild.KanikoJob(mod, km, kernel, maker.namespace, maker.registersModule),
        old(client.jobs), client.listFails, client.createFails)
    {
      var probe := getter(km.containerImage, km.build.value.pull);
      if probe == ProbeError {
        return Err(ProbeFailed);
      }
      if probe == ImagePresent {
        return Ok(StageResult(Completed, false));
      }
      var l := GetJob(mod, kernel);
      match l
      case ListError =>
        return Err(ListFailed);
      case Ambiguous(n) =>
        return Err(AmbiguousJobs(n));
      case Found(j) =>
        return JobStatusOutcome(j.status, true);
      case NoMatchingJob =>
        var made := maker.MakeJob(mod, km, kernel);
        if made.Err? {
          return Err(MakeJobFailed(made.error));
        }
        var ok := client.Create(made.value);
        if !ok {
          return Err(CreateFailed);
        }
        return Ok(StageResult(Created, true));
    }
  }
}
