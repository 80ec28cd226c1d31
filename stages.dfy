/** The Job interface of the stage-aware job manager, closed over its two implementations:
    the builder and the signer. */
module Stages {
  import opened Common
  import opened Api
  import opened Kube
  import opened BuildResult
  import opened Correlation
  import Jobs
  import Builder
  import Signer

  datatype Maker = BuildMaker(builder: Builder.Builder) | SignMaker(signer: Signer.Signer)

  /** GetName. */
  function Name(m: Maker): string
  {
    match m
    case BuildMaker(_) => Builder.Name
    case SignMaker(_) => Signer.Name
  }

  predicate ShouldRun(m: Maker, mod: Module, km: KernelMapping)
  {
    match m
    case BuildMaker(_) => Builder.ShouldRun(mod, km)
    case SignMaker(_) => Signer.ShouldRun(km)
  }

  /** What the modelled GetOutputImage and PullOptions need: the signer's read km.Sign.
      The builder's are the corrected, total ones; as written they also dereference
      km.Build and km.Sign (BuildQueriesAsWritten says where the two agree). */
  predicate CanQuery(m: Maker, km: KernelMapping)
  {
    m.SignMaker? ==> km.sign.Some?
  }

  /** What MakeJob dereferences. */
  predicate CanMake(m: Maker, km: KernelMapping)
  {
    m.SignMaker? ==> Signer.CanMakeJob(km)
  }

  function PullOptions(m: Maker, mod: Module, km: KernelMapping): PullOptions
    requires CanQuery(m, km)
  {
    match m
    case BuildMaker(b) => Builder.PullOptions(b.helper, mod, km)
    case SignMaker(_) => Signer.PullOptions(km)
  }

  function OutputImage(m: Maker, km: KernelMapping): Result<string, MakeError>
    requires CanQuery(m, km)
  {
    match m
    case BuildMaker(_) => Builder.OutputImage(km)
    case SignMaker(_) => Signer.OutputImage(km)
  }

  function JobFor(m: Maker, mod: Module, km: KernelMapping, kernel: string): Result<Job, MakeError>
    requires CanMake(m, km)
  {
    match m
    case BuildMaker(b) => Builder.BuildJob(b.helper, mod, km, kernel, b.registersModule)
    case SignMaker(s) => Signer.SignJob(mod, km, kernel, s.registersModule)
  }

  /** Whichever stage, a stage the caller would run can be asked for its modelled output
      image and pull options, and making its job also needs the signing secrets. The
      signer runs exactly when it can be asked. The builder's modelled queries are total;
      its queries as written are not, since ShouldRun lets through a mapping without its
      own build section or without a signing section. */
  lemma ShouldRunGuardsQueries(m: Maker, mod: Module, km: KernelMapping)
    ensures ShouldRun(m, mod, km) ==> CanQuery(m, km)
    ensures m.SignMaker? ==> (ShouldRun(m, mod, km) <==> CanQuery(m, km))
    ensures m.BuildMaker? ==> CanQuery(m, km) && CanMake(m, km)
    ensures CanMake(m, km) ==> CanQuery(m, km)
  {
  }

  /** Where the build stage's queries agree with the code as written: its pull options on
      a mapping with its own build section, its output image on a mapping with a signing
      section. Only on the two inputs the code as written dereferences as nil do they
      differ. */
  lemma BuildQueriesAsWritten(b: Builder.Builder, mod: Module, km: KernelMapping)
    ensures km.build.Some? ==> PullOptions(BuildMaker(b), mod, km) == Builder.PullOptionsAsWritten(km)
    ensures km.sign.Some? ==> OutputImage(BuildMaker(b), km) == Builder.OutputImageAsWritten(km)
  {
  }

  /** Whichever stage: MakeJob fails exactly when the output image or the owner reference
      fails, its output-image error is the stage's GetOutputImage error, and the job it
      makes carries the stage's own label triple in the module's namespace. */
  lemma JobForCorrelates(m: Maker, mod: Module, km: KernelMapping, kernel: string)
    requires CanMake(m, km)
    ensures JobFor(m, mod, km, kernel).Err? <==>
      OutputImage(m, km).Err? || !(match m case BuildMaker(b) => b.registersModule case SignMaker(s) => s.registersModule)
    ensures OutputImage(m, km).Err? ==> JobFor(m, mod, km, kernel) == Err(OutputImage(m, km).error)
    ensures JobFor(m, mod, km, kernel).Ok? ==>
      Jobs.JobMatches(JobFor(m, mod, km, kernel).value, StageLabels(mod, kernel, Name(m)), mod.namespace) &&
      JobFor(m, mod, km, kernel).value.status == JobStatus(0, 0, 0)
  {
    match m
    case BuildMaker(b) =>
      Builder.BuildJobFailure(b.helper, mod, km, kernel, b.registersModule);
      if JobFor(m, mod, km, kernel).Ok? {
        Builder.BuildJobIdentity(b.helper, mod, km, kernel, b.registersModule);
      }
    case SignMaker(s) =>
      Signer.SignJobFailure(mod, km, kernel, s.registersModule);
      if JobFor(m, mod, km, kernel).Ok? {
        Signer.SignJobIdentity(mod, km, kernel, s.registersModule);
      }
  }

  /** The two stages never see each other's jobs: a job made by one stage is never listed
      by the other stage's lookup, for any module and kernel. */
  lemma StagesDoNotShareJobs(mod: Module, kernel: string, j: Job, mod': Module, kernel': string)
    requires j.labels == StageLabels(mod, kernel, Builder.Name) || j.labels == StageLabels(mod, kernel, Signer.Name)
    ensures j.labels == StageLabels(mod, kernel, Builder.Name) ==>
      !Jobs.JobMatches(j, StageLabels(mod', kernel', Signer.Name), mod'.namespace)
    ensures j.labels == StageLabels(mod, kernel, Signer.Name) ==>
      !Jobs.JobMatches(j, StageLabels(mod', kernel', Builder.Name), mod'.namespace)
  {
    StageLabelsSelectExactlyTheirTriple(mod, kernel, Builder.Name, mod', kernel', Signer.Name);
    StageLabelsSelectExactlyTheirTriple(mod, kernel, Signer.Name, mod', kernel', Builder.Name);
  }

  /** MakeJob through the interface. */
  method MakeJob(m: Maker, mod: Module, km: KernelMapping, kernel: string) returns (r: Result<Job, MakeError>)
    requires CanMake(m, km)
    ensures r == JobFor(m, mod, km, kernel)
  {
    match m
    case BuildMaker(b) =>
      r := b.MakeJob(mod, km, kernel);
    case SignMaker(s) =>
      r := s.MakeJob(mod, km, kernel);
  }
}
