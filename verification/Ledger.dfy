/** The shared state of the leased-work protocol: database rows, blobs, a clock, and the operations
    that are under way somewhere between two of their atomic steps. */
module Ledger {
  import opened Text

  type JobId = nat
  type DocId = nat
  type Token = nat

  datatype JobStatus =
    JUploading | JVerifying | JQueued | JProcessing | JSucceeded | JPartialSuccess | JFailed | JDeleting

  datatype DocStatus = Uploading | Queued | Processing | RetryWait | Succeeded | Failed

  /** jobs/<job>/results/<doc>/<token>.json */
  datatype Key = Key(job: JobId, doc: DocId, token: Token)

  datatype Job = Job(
    owner: nat, idempotencyKey: string, manifestHash: string,
    status: JobStatus, generation: nat, checker: Option<Token>, checkUntil: Option<int>,
    created: int, updated: int)

  datatype Doc = Doc(
    job: JobId, version: Option<nat>, verified: int, resultKey: Option<Key>,
    status: DocStatus, attempts: nat, token: Option<Token>, lease: Option<int>,
    available: int, lastEnqueued: Option<int>, error: Option<string>)

  /** What a worker holds, for as long as it likes. */
  datatype Claim = Claim(doc: DocId, job: JobId, version: Option<nat>, attempt: nat)

  /** How far a complete() call has come. */
  datatype Phase = Opened | Locked | Recorded(at: int) | Uploaded(at: int) | Committed

  /** lockAt is when its first lock() read the job. */
  datatype Complete = Complete(lockAt: int, phase: Phase)

  datatype Stage = Claimed | Picked(docs: set<DocId>) | Finished

  /** A call of chunk(), past its claim. */
  datatype Verifier = Verifier(job: JobId, generation: nat, stage: Stage)

  /** What HEAD found. */
  datatype Check = Valid(version: nat) | Invalid(code: string)

  /** deletePrefix of a job under way: the keys its listing still has to delete. */
  datatype Sweep = Sweep(job: JobId, remaining: set<Key>)

  datatype Verdict = Listed | Condemned | Spared | Swept

  /** The cleanup of one orphaned key under way. */
  datatype Collection = Collection(key: Key, verdict: Verdict)

  datatype State = State(
    now: int,
    jobs: map<JobId, Job>,
    docs: map<DocId, Doc>,
    outbox: map<DocId, int>,
    orphans: map<Key, int>,
    blobs: set<Key>,
    usedJobs: set<JobId>,
    usedDocs: set<DocId>,
    claims: map<Token, Claim>,
    completes: map<Token, Complete>,
    verifiers: map<Token, Verifier>,
    expired: set<JobId>,
    dispatches: map<nat, map<DocId, int>>,
    doomed: set<JobId>,
    sweeps: map<nat, Sweep>,
    collections: map<nat, Collection>)

  const LEASE := 120
  const CHECK_LEASE := 90
  const MAX_ATTEMPTS := 3
  const GRACE := 1200
  const UPLOAD_LIMIT := 86400
  const MAX_DOCUMENTS := 4000
  const BATCH := 100
  const RECOVER_BATCH := 10

  predicate Terminal(st: DocStatus) {
    st.Succeeded? || st.Failed?
  }

  predicate Waiting(st: DocStatus) {
    st.Queued? || st.RetryWait?
  }

  predicate Working(st: JobStatus) {
    st.JQueued? || st.JProcessing?
  }

  function DocsOf(docs: map<DocId, Doc>, j: JobId): set<DocId> {
    set d | d in docs && docs[d].job == j
  }

  function Statuses(docs: map<DocId, Doc>, j: JobId): set<DocStatus> {
    set d | d in docs && docs[d].job == j :: docs[d].status
  }

  /** refresh()'s CASE expression. */
  function Summary(sts: set<DocStatus>): JobStatus {
    if exists st :: st in sts && !Terminal(st) then JProcessing
    else if forall st :: st in sts ==> st.Succeeded? then JSucceeded
    else if Succeeded !in sts then JFailed
    else JPartialSuccess
  }

  function Refresh(jobs: map<JobId, Job>, docs: map<DocId, Doc>, j: JobId, now: int): map<JobId, Job> {
    if j in jobs && !jobs[j].status.JDeleting?
    then jobs[j := jobs[j].(status := Summary(Statuses(docs, j)), updated := now)]
    else jobs
  }
}
