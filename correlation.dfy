/** Job correlation: the label triple that identifies the job of one (module, kernel, stage),
    and the "find by label before create" step that every generation of Sync performs once
    its registry probe has reported the image absent. */
module Correlation {
  import opened Common
  import opened Api
  import opened Kube
  import opened Jobs
  import opened BuildResult

  /** labels(mod, targetKernel, jobname) of the stage-aware job manager. */
  function StageLabels(mod: Module, kernel: string, stage: string): Labels
  {
    map[ModuleNameLabel := mod.name, TargetKernelLabel := kernel, BuildStageLabel := stage]
  }

  /** Exactly three entries: module name, target kernel and stage name. */
  lemma StageLabelsExact(mod: Module, kernel: string, stage: string)
    ensures StageLabels(mod, kernel, stage).Keys == {ModuleNameLabel, TargetKernelLabel, BuildStageLabel}
    ensures |StageLabels(mod, kernel, stage)| == 3
    ensures StageLabels(mod, kernel, stage)[ModuleNameLabel] == mod.name
    ensures StageLabels(mod, kernel, stage)[TargetKernelLabel] == kernel
    ensures StageLabels(mod, kernel, stage)[BuildStageLabel] == stage
  {
    var keys := StageLabels(mod, kernel, stage).Keys;
    assert keys == {ModuleNameLabel} + {TargetKernelLabel} + {BuildStageLabel};
  }

  /** The triple is the whole correlation key: the selector of one triple lists a job
      labelled for another triple exactly when the two triples agree. */
  lemma StageLabelsSelectExactlyTheirTriple(
    mod: Module, kernel: string, stage: string, mod': Module, kernel': string, stage': string)
    ensures SelectorMatches(StageLabels(mod', kernel', stage'), StageLabels(mod, kernel, stage))
        <==> mod'.name == mod.name && kernel' == kernel && stage' == stage
  {
    var sel := StageLabels(mod', kernel', stage');
    var lab := StageLabels(mod, kernel, stage);
    if SelectorMatches(sel, lab) {
      assert ModuleNameLabel in sel && TargetKernelLabel in sel && BuildStageLabel in sel;
      assert lab[ModuleNameLabel] == sel[ModuleNameLabel];
      assert lab[TargetKernelLabel] == sel[TargetKernelLabel];
      assert lab[BuildStageLabel] == sel[BuildStageLabel];
    }
  }

  /** The switch over the single matching job's counters. `succeededRequeue` is the
      requeue flag the generation returns for a succeeded job. */
  function JobStatusOutcome(st: JobStatus, succeededRequeue: bool): SyncOutcome
  {
    if st.succeeded == 1 then Ok(StageResult(Completed, succeededRequeue))
    else if st.active == 1 then Ok(StageResult(InProgress, true))
    else if st.failed == 1 then Err(JobFailed)
    else Err(UnknownJobStatus)
  }

  /** Counter precedence: succeeded wins over active, active over failed; a job in none of
      the three states (for instance one the job controller has not yet picked up) is an
      error, not "in progress"; and a job's status is never reported as Created. */
  lemma JobStatusPrecedence(st: JobStatus, succeededRequeue: bool)
    ensures JobStatusOutcome(st, succeededRequeue).Ok?
        <==> st.succeeded == 1 || st.active == 1
    ensures JobStatusOutcome(st, succeededRequeue).Ok? ==>
        JobStatusOutcome(st, succeededRequeue).value.status != Created
    ensures st.succeeded == 1 ==>
        JobStatusOutcome(st, succeededRequeue) == Ok(StageResult(Completed, succeededRequeue))
    ensures st.succeeded != 1 && st.active == 1 ==>
        JobStatusOutcome(st, succeededRequeue) == Ok(StageResult(InProgress, true))
    ensures JobStatusOutcome(JobStatus(0, 0, 0), succeededRequeue) == Err(UnknownJobStatus)
  {
  }

  /** Lines after "image not available": look the job up by its labels; create the one
      `made` when none exists; report the single existing job's status otherwise.
      Returns the outcome and the jobs of the store afterwards. */
  function Correlate(
    jobs: seq<Job>, sel: Labels, ns: string, listFails: bool,
    made: Result<Job, MakeError>, createFails: bool, succeededRequeue: bool): (SyncOutcome, seq<Job>)
  {
    match LookupJob(jobs, sel, ns, listFails)
    case ListError => (Err(ListFailed), jobs)
    case Ambiguous(n) => (Err(AmbiguousJobs(n)), jobs)
    case Found(j) => (JobStatusOutcome(j.status, succeededRequeue), jobs)
    case NoMatchingJob =>
      if made.Err? then (Err(MakeJobFailed(made.error)), jobs)
      else if createFails then (Err(CreateFailed), jobs)
      else (Ok(StageResult(Created, true)), jobs + [made.value])
  }

  /** Find before create: the store changes only by appending the made job, only when no
      job carries the labels in the namespace, and exactly when the outcome is Created. */
  lemma CorrelateCreatesOnlyWhenNoneMatch(
    jobs: seq<Job>, sel: Labels, ns: string, listFails: bool,
    made: Result<Job, MakeError>, createFails: bool, succeededRequeue: bool)
    ensures
      var (r, after) := Correlate(jobs, sel, ns, listFails, made, createFails, succeededRequeue);
      (after == jobs && r != Ok(StageResult(Created, true))) ||
      (r == Ok(StageResult(Created, true)) && !listFails && !createFails && made.Ok? &&
       (forall j :: j in jobs ==> !JobMatches(j, sel, ns)) &&
       after == jobs + [made.value])
  {
    LookupJobCardinality(jobs, sel, ns);
    match LookupJob(jobs, sel, ns, listFails)
    case Found(j) => JobStatusPrecedence(j.status, succeededRequeue);
    case _ =>
  }

  /** Every branch of the step, read from the store: a failed list is reported as such;
      with no matching job the made job is created, unless making or creating it fails;
      several matches are an error; a single match reports its status. Only the create
      branch changes the store. */
  lemma CorrelateOutcomes(
    jobs: seq<Job>, sel: Labels, ns: string, listFails: bool,
    made: Result<Job, MakeError>, createFails: bool, succeededRequeue: bool)
    ensures listFails ==>
      Correlate(jobs, sel, ns, listFails, made, createFails, succeededRequeue) == (Err(ListFailed), jobs)
    ensures !listFails && (forall j :: j in jobs ==> !JobMatches(j, sel, ns)) ==>
      var (r, after) := Correlate(jobs, sel, ns, listFails, made, createFails, succeededRequeue);
      (made.Err? ==> r == Err(MakeJobFailed(made.error)) && after == jobs) &&
      (made.Ok? && createFails ==> r == Err(CreateFailed) && after == jobs) &&
      (made.Ok? && !createFails ==> r == Ok(StageResult(Created, true)) && after == jobs + [made.value])
    ensures !listFails && TwoMatch(jobs, sel, ns) ==>
      var (r, after) := Correlate(jobs, sel, ns, listFails, made, createFails, succeededRequeue);
      r.Err? && r.error.AmbiguousJobs? && after == jobs
    ensures !listFails && LookupJob(jobs, sel, ns, false).Found? ==>
      Correlate(jobs, sel, ns, listFails, made, createFails, succeededRequeue) ==
        (JobStatusOutcome(LookupJob(jobs, sel, ns, false).job.status, succeededRequeue), jobs)
  {
    LookupJobCardinality(jobs, sel, ns);
  }

  /** When the made job carries the looked-up labels in the looked-up namespace, the store
      never holds more matching jobs afterwards than one, if it held at most one before,
      and after a Created outcome the made job is the one and only match. */
  lemma CorrelateKeepsAtMostOne(
    jobs: seq<Job>, sel: Labels, ns: string, listFails: bool,
    made: Result<Job, MakeError>, createFails: bool, succeededRequeue: bool)
    requires made.Ok? ==> JobMatches(made.value, sel, ns)
    ensures
      var (r, after) := Correlate(jobs, sel, ns, listFails, made, createFails, succeededRequeue);
      (|Filter(jobs, sel, ns)| <= 1 ==> |Filter(after, sel, ns)| <= 1) &&
      (r == Ok(StageResult(Created, true)) ==>
         Filter(after, sel, ns) == [made.value] &&
         LookupJob(after, sel, ns, false) == Found(made.value))
  {
    CorrelateCreatesOnlyWhenNoneMatch(jobs, sel, ns, listFails, made, createFails, succeededRequeue);
    var (r, after) := Correlate(jobs, sel, ns, listFails, made, createFails, succeededRequeue);
    if r == Ok(StageResult(Created, true)) {
      FilterAppend(jobs, made.value, sel, ns);
    }
  }

  /** Repeating the step with the same inputs leaves the store as the first step left it:
      a second Sync finds the job the first one created and creates none. Its outcome is
      then the status of that job. */
  lemma CorrelateIdempotent(
    jobs: seq<Job>, sel: Labels, ns: string, listFails: bool,
    made: Result<Job, MakeError>, createFails: bool, succeededRequeue: bool)
    requires made.Ok? ==> JobMatches(made.value, sel, ns)
    ensures
      var (r1, after1) := Correlate(jobs, sel, ns, listFails, made, createFails, succeededRequeue);
      var (r2, after2) := Correlate(after1, sel, ns, listFails, made, createFails, succeededRequeue);
      after2 == after1 &&
      (r1 == Ok(StageResult(Created, true)) ==>
         r2 == JobStatusOutcome(made.value.status, succeededRequeue))
  {
    CorrelateCreatesOnlyWhenNoneMatch(jobs, sel, ns, listFails, made, createFails, succeededRequeue);
    CorrelateKeepsAtMostOne(jobs, sel, ns, listFails, made, createFails, succeededRequeue);
    var (r1, after1) := Correlate(jobs, sel, ns, listFails, made, createFails, succeededRequeue);
    CorrelateCreatesOnlyWhenNoneMatch(after1, sel, ns, listFails, made, createFails, succeededRequeue);
    if after1 != jobs {
      assert r1 == Ok(StageResult(Created, true));
      assert made.value in after1;
      assert JobMatches(made.value, sel, ns);
    }
  }
}
