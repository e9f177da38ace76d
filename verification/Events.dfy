/** The events a job appends to its log (server/jobs.py, server/runtime.py). */
module Events {

  datatype Event =
    | JobQueued
    | JobStarted
    | JobCompleted
    | JobFailed
    | JobInterrupted
    | NodeStarted(nid: string)
    | NodeCached(nid: string)
    | NodeSkipped(nid: string)
    | NodeProgress(nid: string, fraction: real)
    | NodeWarning(nid: string, message: string)
    | NodeCompleted(nid: string)
    | NodeFailed(nid: string)

  predicate Terminal(e: Event) {
    e.JobCompleted? || e.JobFailed? || e.JobInterrupted?
  }

  predicate FromNode(e: Event) {
    !Terminal(e) && !e.JobQueued? && !e.JobStarted?
  }
}
