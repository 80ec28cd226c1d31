/** The stage-aware job manager: one Sync brings one stage (build or sign) of one
    (module, kernel) pair a step closer to a pushed image. */
module Manager {
  import opened Common
  import opened Api
  import opened Kube
  import opened BuildResult
  import opened Correlation
  import opened Jobs
  import opened Stages

  /** The pull secret the registry probe authenticates with: the module's image pull
      secret, looked up in the module's namespace. */
  datatype RegistryAuth = RegistryAuth(secretName: string, namespace: string)

  function AuthFor(mod: Module): (a: Option<RegistryAuth>)
    ensures a.Some? <==> mod.spec.imagePullSecret.Some?
    ensures a.Some? ==> a.value == RegistryAuth(mod.spec.imagePullSecret.value.name, mod.namespace)
  {
    if mod.spec.imagePullSecret.Some? then Some(RegistryAuth(mod.spec.imagePullSecret.value.name, mod.namespace))
    else None
  }

  /** registry.ImageExists: the registry is not part of this model, so its answer for an
      image, pull options and credentials is a parameter. */
  type Registry = (string, PullOptions, Option<RegistryAuth>) -> ProbeOutcome

  /** Sync reaches MakeJob: an output image is named, the registry reports it absent and
      no job carries the stage's labels. */
  predicate ReachesMakeJob(
    m: Maker, registry: Registry, mod: Module, km: KernelMapping, kernel: string,
    jobs: seq<Job>, listFails: bool)
    requires CanQuery(m, km)
  {
    OutputImage(m, km).Ok? &&
    registry(OutputImage(m, km).value, Stages.PullOptions(m, mod, km), AuthFor(mod)) == ImageAbsent &&
    LookupJob(jobs, StageLabels(mod, kernel, Name(m)), mod.namespace, listFails) == NoMatchingJob
  }

  /** One Sync: its outcome and the jobs afterwards. The job is made only when no job
      matched, which is the only case in which `made` is consulted; MakeJob's own
      requirements are demanded on that path only. */
  function SyncStep(
    m: Maker, registry: Registry, mod: Module, km: KernelMapping, kernel: string,
    jobs: seq<Job>, listFails: bool, createFails: bool): (SyncOutcome, seq<Job>)
    requires CanQuery(m, km)
    requires ReachesMakeJob(m, registry, mod, km, kernel, jobs, listFails) ==> CanMake(m, km)
  {
    match OutputImage(m, km)
    case Err(e) => (Err(OutputImageFailed(e)), jobs)
    case Ok(image) =>
      match registry(image, Stages.PullOptions(m, mod, km), AuthFor(mod))
      case ProbeError => (Err(ProbeFailed), jobs)
      case ImagePresent => (Ok(StageResult(Completed, false)), jobs)
      case ImageAbsent =>
        var made := if CanMake(m, km) then JobFor(m, mod, km, kernel) else Err(NoOutputImage);
        Correlate(jobs, StageLabels(mod, kernel, Name(m)), mod.namespace, listFails, made, createFails, false)
  }

  /** The outcome, case by case: a missing output image is reported before anything else
      and changes nothing; a registry error or a present image ends the step before any
      job is listed; MakeJob can then only fail on the owner reference; and this
      generation never asks for a requeue once the stage is complete. */
  lemma SyncOutcomes(
    m: Maker, registry: Registry, mod: Module, km: KernelMapping, kernel: string,
    jobs: seq<Job>, listFails: bool, createFails: bool)
    requires CanQuery(m, km)
    requires ReachesMakeJob(m, registry, mod, km, kernel, jobs, listFails) ==> CanMake(m, km)
    ensures var (r, after) := SyncStep(m, registry, mod, km, kernel, jobs, listFails, createFails);
      (OutputImage(m, km).Err? ==> r == Err(OutputImageFailed(OutputImage(m, km).error)) && after == jobs) &&
      (OutputImage(m, km).Ok? ==>
         var probe := registry(OutputImage(m, km).value, Stages.PullOptions(m, mod, km), AuthFor(mod));
         (probe == ProbeError ==> r == Err(ProbeFailed) && after == jobs) &&
         (probe == ImagePresent ==> r == Ok(StageResult(Completed, false)) && after == jobs)) &&
      r != Err(MakeJobFailed(NoOutputImage)) &&
      (r.Ok? && r.value.status == Completed ==> !r.value.requeue) &&
      (r.Ok? && r.value.status != Completed ==> r.value.requeue)
  {
    var (r, after) := SyncStep(m, registry, mod, km, kernel, jobs, listFails, createFails);
    if OutputImage(m, km).Ok? && CanMake(m, km) {
      JobForCorrelates(m, mod, km, kernel);
    }
    var sel := StageLabels(mod, kernel, Name(m));
    match LookupJob(jobs, sel, mod.namespace, listFails)
    case Found(j) => JobStatusPrecedence(j.status, false);
    case _ =>
  }

  /** Find before create: Sync adds at most the one job MakeJob made, only on the path that
      reaches MakeJob, and exactly when it reports Created. */
  lemma SyncCreatesOnlyWhenNoneMatch(
    m: Maker, registry: Registry, mod: Module, km: KernelMapping, kernel: string,
    jobs: seq<Job>, listFails: bool, createFails: bool)
    requires CanQuery(m, km)
    requires ReachesMakeJob(m, registry, mod, km, kernel, jobs, listFails) ==> CanMake(m, km)
    ensures var (r, after) := SyncStep(m, registry, mod, km, kernel, jobs, listFails, createFails);
      (after == jobs && r != Ok(StageResult(Created, true))) ||
      (r == Ok(StageResult(Created, true)) && !createFails &&
       ReachesMakeJob(m, registry, mod, km, kernel, jobs, listFails) &&
       JobFor(m, mod, km, kernel).Ok? &&
       (forall j :: j in jobs ==> !JobMatches(j, StageLabels(mod, kernel, Name(m)), mod.namespace)) &&
       after == jobs + [JobFor(m, mod, km, kernel).value])
  {
    var sel := StageLabels(mod, kernel, Name(m));
    if OutputImage(m, km).Ok? {
      var made := if CanMake(m, km) then JobFor(m, mod, km, kernel) else Err(NoOutputImage);
      CorrelateCreatesOnlyWhenNoneMatch(jobs, sel, mod.namespace, listFails, made, createFails, false);
      LookupJobCardinality(jobs, sel, mod.namespace);
    }
  }

  /** The converse: once Sync reaches MakeJob it creates the made job and reports
      Created, unless making or creating it fails, in which case it reports that failure
      and leaves the store as it was. */
  lemma SyncCreatesWhenNoneMatch(
    m: Maker, registry: Registry, mod: Module, km: KernelMapping, kernel: string,
    jobs: seq<Job>, listFails: bool, createFails: bool)
    requires CanQuery(m, km)
    requires ReachesMakeJob(m, registry, mod, km, kernel, jobs, listFails)
    requires CanMake(m, km)
    ensures !listFails
    ensures var (r, after) := SyncStep(m, registry, mod, km, kernel, jobs, listFails, createFails);
      (JobFor(m, mod, km, kernel).Err? ==> r == Err(MakeJobFailed(JobFor(m, mod, km, kernel).error)) && after == jobs) &&
      (JobFor(m, mod, km, kernel).Ok? && createFails ==> r == Err(CreateFailed) && after == jobs) &&
      (JobFor(m, mod, km, kernel).Ok? && !createFails ==>
         r == Ok(StageResult(Created, true)) && after == jobs + [JobFor(m, mod, km, kernel).value])
  {
    var sel := StageLabels(mod, kernel, Name(m));
    LookupJobCardinality(jobs, sel, mod.namespace);
    CorrelateOutcomes(jobs, sel, mod.namespace, listFails, JobFor(m, mod, km, kernel), createFails, false);
  }

  /** At most one job per (module, kernel, stage): a store holding at most one matching
      job still does after Sync, and after Created the made job is the one match. */
  lemma SyncKeepsAtMostOne(
    m: Maker, registry: Registry, mod: Module, km: KernelMapping, kernel: string,
    jobs: seq<Job>, listFails: bool, createFails: bool)
    requires CanQuery(m, km)
    requires ReachesMakeJob(m, registry, mod, km, kernel, jobs, listFails) ==> CanMake(m, km)
    ensures var (r, after) := SyncStep(m, registry, mod, km, kernel, jobs, listFails, createFails);
      var sel := StageLabels(mod, kernel, Name(m));
      (|Filter(jobs, sel, mod.namespace)| <= 1 ==> |Filter(after, sel, mod.namespace)| <= 1) &&
      (r == Ok(StageResult(Created, true)) ==>
         Filter(after, sel, mod.namespace) == [JobFor(m, mod, km, kernel).value])
  {
    var sel := StageLabels(mod, kernel, Name(m));
    if OutputImage(m, km).Ok? &&
       registry(OutputImage(m, km).value, Stages.PullOptions(m, mod, km), AuthFor(mod)) == ImageAbsent {
      var made := if CanMake(m, km) then JobFor(m, mod, km, kernel) else Err(NoOutputImage);
      assert SyncStep(m, registry, mod, km, kernel, jobs, listFails, createFails)
          == Correlate(jobs, sel, mod.namespace, listFails, made, createFails, false);
      if CanMake(m, km) {
        JobForCorrelates(m, mod, km, kernel);
      }
      if made.Ok? {
        CorrelateKeepsAtMostOne(jobs, sel, mod.namespace, listFails, made, createFails, false);
      } else {
        CorrelateCreatesOnlyWhenNoneMatch(jobs, sel, mod.namespace, listFails, made, createFails, false);
      }
    }
  }

  /** A second Sync with the same registry answer and client behaviour creates nothing
      more. Right after Created, the job it finds has no counters yet, so that second Sync
      reports an unknown status (an error) rather than "in progress". */
  lemma SyncIdempotent(
    m: Maker, registry: Registry, mod: Module, km: KernelMapping, kernel: string,
    jobs: seq<Job>, listFails: bool, createFails: bool)
    requires CanMake(m, km)
    ensures CanQuery(m, km)
    ensures var (r1, after1) := SyncStep(m, registry, mod, km, kernel, jobs, listFails, createFails);
      var (r2, after2) := SyncStep(m, registry, mod, km, kernel, after1, listFails, createFails);
      after2 == after1 &&
      (r1 == Ok(StageResult(Created, true)) ==> r2 == Err(UnknownJobStatus))
  {
    ShouldRunGuardsQueries(m, mod, km);
    var sel := StageLabels(mod, kernel, Name(m));
    JobForCorrelates(m, mod, km, kernel);
    if OutputImage(m, km).Ok? {
      var made := JobFor(m, mod, km, kernel);
      CorrelateIdempotent(jobs, sel, mod.namespace, listFails, made, createFails, false);
      JobStatusPrecedence(JobStatus(0, 0, 0), false);
    }
  }

  /** Sync of one stage never changes what another stage's lookup sees, for any module
      and kernel. */
  lemma SyncLeavesOtherStagesAlone(
    m: Maker, registry: Registry, mod: Module, km: KernelMapping, kernel: string,
    jobs: seq<Job>, listFails: bool, createFails: bool,
    mod': Module, kernel': string, stage': string)
    requires CanQuery(m, km)
    requires ReachesMakeJob(m, registry, mod, km, kernel, jobs, listFails) ==> CanMake(m, km)
    requires stage' != Name(m)
    ensures var (r, after) := SyncStep(m, registry, mod, km, kernel, jobs, listFails, createFails);
      Filter(after, StageLabels(mod', kernel', stage'), mod'.namespace) ==
      Filter(jobs, StageLabels(mod', kernel', stage'), mod'.namespace)
  {
    SyncCreatesOnlyWhenNoneMatch(m, registry, mod, km, kernel, jobs, listFails, createFails);
    var (r, after) := SyncStep(m, registry, mod, km, kernel, jobs, listFails, createFails);
    if after != jobs {
      var j := JobFor(m, mod, km, kernel).value;
      JobForCorrelates(m, mod, km, kernel);
      StageLabelsSelectExactlyTheirTriple(mod, kernel, Name(m), mod', kernel', stage');
      FilterAppend(jobs, j, StageLabels(mod', kernel', stage'), mod'.namespace);
    }
  }

  /** jobManager: the client behind it, the registry and the stage it drives. */
  class JobManager {
    const client: JobStore
    const registry: Registry
    const maker: Maker

    constructor (client: JobStore, registry: Registry, maker: Maker)
      ensures this.client == client && this.registry == registry && this.maker == maker
    {
      this.client := client;
      this.registry := registry;
      this.maker := maker;
    }

    /** getJob: the stage's job for (module, kernel) in the module's namespace. */
    method GetJob(mod: Module, kernel: string) returns (l: Lookup)
      ensures l == LookupJob(client.jobs, StageLabels(mod, kernel, Name(maker)), mod.namespace, client.listFails)
    {
      l := Jobs.GetJob(client, StageLabels(mod, kernel, Name(maker)), mod.namespace);
    }

    /** Sync, in the source's order: output image, registry probe, lookup, then create or
        report the found job's status. */
    method Sync(mod: Module, km: KernelMapping, kernel: string) returns (r: SyncOutcome)
      requires CanQuery(maker, km)
      requires ReachesMakeJob(maker, registry, mod, km, kernel, client.jobs, client.listFails) ==> CanMake(maker, km)
      modifies client
      ensures (r, client.jobs) ==
        SyncStep(maker, registry, mod, km, kernel, old(client.jobs), client.listFails, client.createFails)
    {
      var image := OutputImage(maker, km);
      if image.Err? {
        return Err(OutputImageFailed(image.error));
      }
      var pullOptions := Stages.PullOptions(maker, mod, km);
      var probe := registry(image.value, pullOptions, AuthFor(mod));
      if probe == ProbeError {
        return Err(ProbeFailed);
      }
      if probe == ImagePresent {
        return Ok(StageResult(Completed, false));
      }
      var l := GetJob(mod, kernel);
      match l
      case ListError =>
        return Err(ListFailed);
      case Ambiguous(n) =>
        return Err(AmbiguousJobs(n));
      case Found(j) =>
        return JobStatusOutcome(j.status, false);
      case NoMatchingJob =>
        var made := MakeJob(maker, mod, km, kernel);
        if made.Err? {
          return Err(MakeJobFailed(made.error));
        }
        var ok := client.Create(made.value);
        if !ok {
          return Err(CreateFailed);
        }
        return Ok(StageResult(Created, true));
    }
  }
}
