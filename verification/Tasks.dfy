/** What each statement of the job repository does to the database. */
module Tasks {
  import opened Schema

  function NewJob(spec: Spec, state: JobState, now: int): Job {
    Job(spec, state, 0, 0, 0, 0, 0.0, None, now, if state == Skipped then Some(now) else None, None)
  }

  /** The foreign key of a job row: no document, or one that exists. */
  predicate DocumentExists(db: Db, d: Option<DocId>) {
    d.Some? ==> d.value in db.documents
  }

  /** Both inserts, `enqueue` (pending) and `record_skipped` (skipped); the key is `db.next`. */
  function InsertJob(db: Db, spec: Spec, state: JobState): Db
    requires DocumentExists(db, spec.documentId)
  {
    db.(jobs := db.jobs[db.next := NewJob(spec, state, db.now)], next := db.next + 1)
  }

  predicate Claimable(db: Db, t: TaskId) {
    && t in db.jobs
    && (|| db.jobs[t].state == Pending
        || (&& InFlight(db.jobs[t].state)
            && db.jobs[t].leaseUntil.Some?
            && db.jobs[t].leaseUntil.value < db.now))
  }

  /** No claimable job was created earlier. Ties may go either way. */
  predicate Oldest(db: Db, t: TaskId) {
    && Claimable(db, t)
    && forall u | u in db.jobs :: Claimable(db, u) ==> db.jobs[t].createdAt <= db.jobs[u].createdAt
  }

  function LeasedState(jobType: JobType): JobState {
    if jobType == Rebuild then Embedding else Extracting
  }

  function Lease(db: Db, t: TaskId, seconds: int): Db
    requires t in db.jobs
  {
    var j := db.jobs[t];
    db.(jobs := db.jobs[t := j.(state := LeasedState(j.spec.jobType),
                                leaseUntil := Some(db.now + seconds),
                                attempts := j.attempts + 1)])
  }

  /** The row a claim returns to the worker. */
  function Claimed(db: Db, t: TaskId): ClaimedJob
    requires t in db.jobs
  {
    var j := db.jobs[t];
    ClaimedJob(t, j.spec, j.attempts + 1, LeasedState(j.spec.jobType))
  }

  function SetState(db: Db, t: TaskId, state: JobState): Db {
    if t in db.jobs then db.(jobs := db.jobs[t := db.jobs[t].(state := state)]) else db
  }

  function SetChunkCount(db: Db, t: TaskId, n: int): Db {
    if t in db.jobs then db.(jobs := db.jobs[t := db.jobs[t].(chunkCount := n)]) else db
  }

  function AddUsage(db: Db, t: TaskId, n: int, tokens: int, cost: real): Db {
    if t !in db.jobs then db else
    var j := db.jobs[t];
    db.(jobs := db.jobs[t := j.(embeddingCount := j.embeddingCount + n,
                                tokens := j.tokens + tokens,
                                cost := j.cost + cost)])
  }

  function MarkDone(db: Db, t: TaskId, state: JobState): Db {
    if t !in db.jobs then db else
    db.(jobs := db.jobs[t := db.jobs[t].(state := state, finishedAt := Some(db.now), fault := None)])
  }

  const TRANSIENT: set<string> := {
    "RateLimitError", "APITimeoutError", "APIConnectionError", "InternalServerError", "APIError",
    "EndpointConnectionError", "ConnectTimeoutError", "ReadTimeoutError", "ConnectionClosedError"}

  predicate IsRetryable(e: Exc) {
    e.Timeout? || e.ConnectionLost? || (e.Named? && e.name in TRANSIENT)
  }

  /** Uses the attempt number of the worker's copy, not of the row. */
  function FailureOutcome(job: ClaimedJob, e: Exc): JobState {
    if IsRetryable(e) && job.attempts < MAX_ATTEMPTS then Pending else Failed
  }

  function MarkFailed(db: Db, job: ClaimedJob, fault: Fault): Db {
    if job.taskId !in db.jobs then db else
    var outcome := FailureOutcome(job, fault.exc);
    var j := db.jobs[job.taskId];
    db.(jobs := db.jobs[job.taskId := j.(state := outcome, fault := Some(fault), leaseUntil := None,
                                         finishedAt := if outcome == Failed then Some(db.now) else j.finishedAt)])
  }
}
