/** What one synchronisation of a pipeline stage reports (the build.Result and build.Status
    types), and the errors it can return instead. */
module BuildResult {
  import opened Common

  datatype Status = Completed | Created | InProgress

  /** build.Result: the stage's status and whether the caller should requeue. */
  datatype StageResult = StageResult(status: Status, requeue: bool)

  /** Why MakeJob or GetOutputImage failed. */
  datatype MakeError = NoOutputImage | OwnerReferenceFailed

  /** The errors a Sync returns; each corresponds to one `return ..., err` of the source. */
  datatype SyncError =
    | OutputImageFailed(cause: MakeError)
    | ProbeFailed
    | ListFailed
    | AmbiguousJobs(count: nat)
    | MakeJobFailed(cause: MakeError)
    | CreateFailed
    | JobFailed
    | UnknownJobStatus

  type SyncOutcome = Result<StageResult, SyncError>

  /** What the registry probe of a stage answered. */
  datatype ProbeOutcome = ImagePresent | ImageAbsent | ProbeError
}
