/**
 * Values shared by the job store, the worker and the subscriber set:
 * an optional value, the job status and the events the worker publishes.
 */
module Types {

  /** Python's `Optional[T]`: `None` or a value. */
  datatype Option<+T> = None | Some(value: T)

  /** The four values the core ever writes into `InstallJob.status`. */
  datatype Status = Queued | Running | Finished | Failed

  /**
   * The messages the worker hands to the broadcaster. The wall-clock
   * `timestamp` every message carries is not modelled.
   */
  datatype Event =
    | JobStarted(jobId: string, package: string)
    | Stdout(jobId: string, line: string)
    | Progress(jobId: string, percent: int)
    | JobFinished(jobId: string, success: bool, exitCode: int)
}
