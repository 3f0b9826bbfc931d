/** The status column of the jobs table. */
module Jobs {
  /** Jobs are added active; workers make them done or failed, a terminate request cancels them. */
  datatype JobStatus = Active | Done | Failed | Canceled
}
