/** The status of an outbound job. */
module Jobs {
  datatype JobStatus = Queued | Retry | Sending | Sent | Failed

  /** The statuses a claim starts from. */
  predicate Claimable(status: JobStatus) {
    status == Queued || status == Retry
  }
}
