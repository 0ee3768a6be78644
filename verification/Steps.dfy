/** One function per atomic step: a transaction, a single statement, or a single call to the object
    store. Steps of different operations interleave freely. */
module Steps {
  import opened Text
  import opened Ledger

  // ---------------------------------------------------------------- batches

  function NewDoc(j: JobId, now: int): Doc {
    Doc(j, None, -1, None, Uploading, 0, None, None, now, None, None)
  }

  function NewJob(owner: nat, key: string, hash: string, now: int): Job {
    Job(owner, key, hash, JUploading, 0, None, None, now, now)
  }

  predicate Owns(job: Job, owner: nat, key: string) {
    job.owner == owner && job.idempotencyKey == key
  }

  /** The job this owner already created under this key. */
  function Existing(jobs: map<JobId, Job>, owner: nat, key: string): set<JobId> {
    set j | j in jobs && Owns(jobs[j], owner, key)
  }

  /** create(): j and ds are the fresh ids drawn for the job and its files. */
  function Create(s: State, owner: nat, key: string, hash: string, j: JobId, ds: set<DocId>): State {
    if Existing(s.jobs, owner, key) == {} && j !in s.usedJobs && ds !! s.usedDocs && 1 <= |ds| <= MAX_DOCUMENTS
    then s.(jobs := s.jobs[j := NewJob(owner, key, hash, s.now)],
            docs := s.docs + map d | d in ds :: NewDoc(j, s.now),
            usedJobs := s.usedJobs + {j}, usedDocs := s.usedDocs + ds)
    else s
  }

  function Submit(s: State, j: JobId): State {
    if j in s.jobs && s.jobs[j].status.JUploading?
    then s.(jobs := s.jobs[j := s.jobs[j].(status := JVerifying, generation := s.jobs[j].generation + 1,
                                           checker := None, checkUntil := None, updated := s.now)])
    else s
  }

  function Delete(s: State, j: JobId): State {
    if j in s.jobs
    then s.(jobs := if s.jobs[j].status.JDeleting? then s.jobs
                    else s.jobs[j := s.jobs[j].(status := JDeleting, updated := s.now)],
            outbox := s.outbox - DocsOf(s.docs, j))
    else s
  }

  // ---------------------------------------------------------------- verification

  predicate CanCheck(job: Job, now: int) {
    job.status.JVerifying? && (job.checkUntil.None? || job.checkUntil.value < now)
  }

  function ClaimCheck(s: State, j: JobId, t: Token): State {
    if j in s.jobs && CanCheck(s.jobs[j], s.now) && t !in s.verifiers
    then s.(jobs := s.jobs[j := s.jobs[j].(checker := Some(t), checkUntil := Some(s.now + CHECK_LEASE))],
            verifiers := s.verifiers[t := Verifier(j, s.jobs[j].generation, Claimed)])
    else s
  }

  /** Documents of j not yet checked in this generation. */
  function Unchecked(docs: map<DocId, Doc>, j: JobId, generation: nat): set<DocId> {
    set d | d in docs && docs[d].job == j && docs[d].verified != generation
  }

  /** ORDER BY id LIMIT 100. */
  predicate FirstBatch(ds: set<DocId>, all: set<DocId>) {
    ds <= all && |ds| == (if |all| < BATCH then |all| else BATCH) && forall d, e :: d in ds && e in all - ds ==> d < e
  }

  function PickDocs(s: State, t: Token, ds: set<DocId>): State {
    if t in s.verifiers && s.verifiers[t].stage.Claimed? &&
       FirstBatch(ds, Unchecked(s.docs, s.verifiers[t].job, s.verifiers[t].generation))
    then s.(verifiers := s.verifiers[t := s.verifiers[t].(stage := Picked(ds))])
    else s
  }

  function CheckedDoc(d: Doc, c: Check, generation: nat): Doc {
    match c
    case Valid(x) => d.(version := Some(x), error := None, verified := generation)
    case Invalid(e) => d.(version := None, error := Some(e), verified := generation)
  }

  function CheckedDocs(docs: map<DocId, Doc>, j: JobId, generation: nat, found: map<DocId, Check>): map<DocId, Doc> {
    map d | d in docs :: if docs[d].job == j && d in found then CheckedDoc(docs[d], found[d], generation) else docs[d]
  }

  predicate AnyInvalid(docs: map<DocId, Doc>, j: JobId) {
    exists d :: d in docs && docs[d].job == j && docs[d].error.Some?
  }

  function QueuedDocs(docs: map<DocId, Doc>, j: JobId): map<DocId, Doc> {
    map d | d in docs :: if docs[d].job == j then docs[d].(status := Queued) else docs[d]
  }

  /** The fence: still VERIFYING, same generation, own token, lease not over. */
  predicate HoldsCheck(s: State, t: Token) {
    t in s.verifiers && var x := s.verifiers[t];
    x.job in s.jobs && var job := s.jobs[x.job];
    job.status.JVerifying? && job.generation == x.generation && job.checker == Some(t) &&
    job.checkUntil.Some? && job.checkUntil.value > s.now
  }

  function FinishCheck(s: State, t: Token): map<Token, Verifier>
    requires t in s.verifiers
  {
    s.verifiers[t := s.verifiers[t].(stage := Finished)]
  }

  function Rejected(s: State, j: JobId): State
    requires j in s.jobs
  {
    s.(jobs := s.jobs[j := s.jobs[j].(status := JUploading, updated := s.now)])
  }

  /** INSERT INTO outbox ... ON CONFLICT DO NOTHING keeps the rows already there. */
  function AllQueued(s: State, j: JobId): State
    requires j in s.jobs
  {
    s.(docs := QueuedDocs(s.docs, j), outbox := (map d | d in DocsOf(s.docs, j) :: s.now) + s.outbox,
       jobs := s.jobs[j := s.jobs[j].(status := JQueued, updated := s.now)])
  }

  /** After the last unchecked document: back to UPLOADING if any is invalid, else everything is queued. */
  function Conclude(s: State, j: JobId): State
    requires j in s.jobs
  {
    if Unchecked(s.docs, j, s.jobs[j].generation) != {} then s
    else if AnyInvalid(s.docs, j) then Rejected(s, j)
    else AllQueued(s, j)
  }

  function CommitCheck(s: State, t: Token, found: map<DocId, Check>): State {
    if t !in s.verifiers || s.verifiers[t].stage != Picked(found.Keys) then s
    else if !HoldsCheck(s, t) then s.(verifiers := FinishCheck(s, t))
    else
      var j, g := s.verifiers[t].job, s.verifiers[t].generation;
      Conclude(s.(docs := CheckedDocs(s.docs, j, g, found), verifiers := FinishCheck(s, t)), j)
  }

  /** The finally block. */
  function EndCheck(s: State, t: Token): State {
    if t !in s.verifiers then s
    else
      var j := s.verifiers[t].job;
      s.(verifiers := FinishCheck(s, t),
         jobs := if j in s.jobs && s.jobs[j].checker == Some(t)
                 then s.jobs[j := s.jobs[j].(checker := None, checkUntil := None)] else s.jobs)
  }

  // ---------------------------------------------------------------- leases

  predicate Claimable(d: Doc, job: Job, now: int) {
    Working(job.status) && Waiting(d.status) && d.available <= now && d.attempts < MAX_ATTEMPTS
  }

  function ClaimDoc(s: State, d: DocId, t: Token): State {
    if d in s.docs && s.docs[d].job in s.jobs && Claimable(s.docs[d], s.jobs[s.docs[d].job], s.now) && t !in s.claims
    then
      var x := s.docs[d];
      s.(docs := s.docs[d := x.(status := Processing, attempts := x.attempts + 1, token := Some(t),
                                lease := Some(s.now + LEASE))],
         jobs := s.jobs[x.job := s.jobs[x.job].(status := JProcessing, updated := s.now)],
         claims := s.claims[t := Claim(d, x.job, x.version, x.attempts + 1)])
    else s
  }

  /** The row is still this claim's: PROCESSING under its token, lease not over. */
  predicate Held(d: Doc, t: Token, now: int) {
    d.token == Some(t) && d.status.Processing? && d.lease.Some? && d.lease.value > now
  }

  /** lock(): the claim may still act. */
  predicate Passes(s: State, t: Token) {
    t in s.claims && var c := s.claims[t];
    c.job in s.jobs && !s.jobs[c.job].status.JDeleting? && c.doc in s.docs && Held(s.docs[c.doc], t, s.now)
  }

  function Heartbeat(s: State, t: Token): State {
    if t in s.claims && s.claims[t].doc in s.docs &&
       var d := s.docs[s.claims[t].doc];
       Held(d, t, s.now) && d.job in s.jobs && !s.jobs[d.job].status.JDeleting?
    then s.(docs := s.docs[s.claims[t].doc := s.docs[s.claims[t].doc].(lease := Some(s.now + LEASE))])
    else s
  }

  // ---------------------------------------------------------------- complete(), in five steps

  function KeyOf(s: State, t: Token): Key
    requires t in s.claims
  {
    Key(s.claims[t].job, s.claims[t].doc, t)
  }

  predicate InPhase(s: State, t: Token) {
    t in s.claims && t in s.completes
  }

  function WithPhase(s: State, t: Token, p: Phase): map<Token, Complete>
    requires t in s.completes
  {
    s.completes[t := s.completes[t].(phase := p)]
  }

  predicate JobLives(s: State, t: Token) {
    t in s.claims && s.claims[t].job in s.jobs && !s.jobs[s.claims[t].job].status.JDeleting?
  }

  /** The first lock() is not in a transaction: its SELECT on the job, and later that on the document.
      A worker calls complete() at most once for a claim. */
  function ReadJob(s: State, t: Token): State {
    if JobLives(s, t) && t !in s.completes
    then s.(completes := s.completes[t := Complete(s.now, Opened)])
    else s
  }

  function LockResult(s: State, t: Token): State {
    if InPhase(s, t) && s.completes[t].phase.Opened? && s.claims[t].doc in s.docs && Held(s.docs[s.claims[t].doc], t, s.now)
    then s.(completes := WithPhase(s, t, Locked))
    else s
  }

  /** INSERT INTO orphan_results ... ON CONFLICT DO NOTHING. */
  function RecordResult(s: State, t: Token): State {
    if InPhase(s, t) && s.completes[t].phase.Locked?
    then s.(orphans := if KeyOf(s, t) in s.orphans then s.orphans else s.orphans[KeyOf(s, t) := s.now],
            completes := WithPhase(s, t, Recorded(s.now)))
    else s
  }

  function UploadResult(s: State, t: Token): State {
    if InPhase(s, t) && s.completes[t].phase.Recorded?
    then s.(blobs := s.blobs + {KeyOf(s, t)}, completes := WithPhase(s, t, Uploaded(s.completes[t].phase.at)))
    else s
  }

  function SucceededDoc(d: Doc, k: Key): Doc {
    d.(status := Succeeded, resultKey := Some(k), error := None, lease := None)
  }

  function CommitResult(s: State, t: Token): State {
    if InPhase(s, t) && s.completes[t].phase.Uploaded? && Passes(s, t)
    then
      var c := s.claims[t];
      var docs := s.docs[c.doc := SucceededDoc(s.docs[c.doc], KeyOf(s, t))];
      s.(docs := docs, jobs := Refresh(s.jobs, docs, c.job, s.now), orphans := s.orphans - {KeyOf(s, t)},
         completes := WithPhase(s, t, Committed))
    else s
  }

  // ---------------------------------------------------------------- fail() and recover()

  function Delay(attempt: nat): int {
    if attempt == 1 then 30 else 120
  }

  function FailedDoc(d: Doc, code: string, retry: bool, due: int): Doc {
    d.(status := if retry then RetryWait else Failed, error := Some(code), lease := None, available := due)
  }

  function Retries(c: Claim, retryable: bool): bool {
    retryable && c.attempt < MAX_ATTEMPTS
  }

  /** The document stops, to be tried again when due or not at all. */
  function Stop(s: State, c: Claim, code: string, retry: bool, due: int): State
    requires c.doc in s.docs
  {
    var docs := s.docs[c.doc := FailedDoc(s.docs[c.doc], code, retry, due)];
    s.(docs := docs, outbox := if retry then s.outbox[c.doc := due] else s.outbox, jobs := Refresh(s.jobs, docs, c.job, s.now))
  }

  function Fail(s: State, t: Token, code: string, retryable: bool): State {
    if Passes(s, t) then
      var c := s.claims[t];
      Stop(s, c, code, Retries(c, retryable), s.now + Delay(c.attempt))
    else s
  }

  predicate Expired(d: Doc, now: int) {
    d.status.Processing? && d.lease.Some? && d.lease.value < now
  }

  /** recover()'s first SELECT: jobs with an expired lease, at most ten. */
  function ListExpired(s: State, js: set<JobId>): State {
    if |js| <= RECOVER_BATCH && forall j :: j in js ==> exists d :: d in s.docs && s.docs[d].job == j && Expired(s.docs[d], s.now)
    then s.(expired := s.expired + js)
    else s
  }

  function RecoveredDoc(d: Doc, now: int): Doc {
    d.(status := if d.attempts >= MAX_ATTEMPTS then Failed else RetryWait,
       error := Some("LEASE_EXPIRED"), lease := None, available := now)
  }

  function RecoveredDocs(docs: map<DocId, Doc>, j: JobId, now: int): map<DocId, Doc> {
    map d | d in docs :: if docs[d].job == j && Expired(docs[d], now) then RecoveredDoc(docs[d], now) else docs[d]
  }

  /** One job of the list, possibly listed long ago. */
  function RecoverJob(s: State, j: JobId): State {
    if j in s.expired && j in s.jobs && !s.jobs[j].status.JDeleting?
    then
      var docs := RecoveredDocs(s.docs, j, s.now);
      s.(docs := docs, jobs := Refresh(s.jobs, docs, j, s.now))
    else s
  }

  /** Waiting, of a working job, and not put on the stream within the last lease time. */
  predicate Overdue(jobs: map<JobId, Job>, x: Doc, now: int) {
    x.job in jobs && Working(jobs[x.job].status) && Waiting(x.status) &&
    (x.lastEnqueued.None? || x.lastEnqueued.value < now - LEASE)
  }

  /** recover()'s last statement. */
  function Enqueue(s: State): State {
    s.(outbox := (map d | d in s.docs && Overdue(s.jobs, s.docs[d], s.now) :: s.docs[d].available) + s.outbox)
  }

  // ---------------------------------------------------------------- dispatch(): read, publish, commit

  /** The due rows, earliest first, at most 100. */
  predicate DueBatch(s: State, ds: set<DocId>) {
    |ds| <= BATCH && (forall d :: d in ds ==> d in s.outbox && s.outbox[d] <= s.now) &&
    forall e :: e in s.outbox && s.outbox[e] <= s.now && e !in ds ==>
      |ds| == BATCH && forall d :: d in ds ==> s.outbox[d] <= s.outbox[e]
  }

  function ReadOutbox(s: State, i: nat, ds: set<DocId>): State {
    if i !in s.dispatches && DueBatch(s, ds)
    then s.(dispatches := s.dispatches[i := map d | d in ds && d in s.outbox :: s.outbox[d]])
    else s
  }

  /** Rows of the outbox that are still as they were read. */
  function Delivered(outbox: map<DocId, int>, rows: map<DocId, int>): set<DocId> {
    set d | d in rows && d in outbox && outbox[d] == rows[d]
  }

  function CommitOutbox(s: State, i: nat): State {
    if i in s.dispatches
    then
      var rows := s.dispatches[i];
      s.(docs := map d | d in s.docs :: if d in rows then s.docs[d].(lastEnqueued := Some(s.now)) else s.docs[d],
         outbox := s.outbox - Delivered(s.outbox, rows), dispatches := s.dispatches - {i})
    else s
  }

  // ---------------------------------------------------------------- cleanup()

  function ExpireUploads(s: State): State {
    s.(jobs := map j | j in s.jobs ::
         if s.jobs[j].status.JUploading? && s.jobs[j].created < s.now - UPLOAD_LIMIT
         then s.jobs[j].(status := JDeleting, updated := s.now) else s.jobs[j])
  }

  function ListDeleting(s: State, j: JobId): State {
    if j in s.jobs && s.jobs[j].status.JDeleting? && s.jobs[j].updated < s.now - GRACE
    then s.(doomed := s.doomed + {j})
    else s
  }

  function BlobsOf(blobs: set<Key>, j: JobId): set<Key> {
    set k | k in blobs && k.job == j
  }

  function StartSweep(s: State, i: nat, j: JobId): State {
    if j in s.doomed && i !in s.sweeps then s.(sweeps := s.sweeps[i := Sweep(j, BlobsOf(s.blobs, j))]) else s
  }

  function SweepBlob(s: State, i: nat, k: Key): State {
    if i in s.sweeps && k in s.sweeps[i].remaining
    then s.(blobs := s.blobs - {k}, sweeps := s.sweeps[i := s.sweeps[i].(remaining := s.sweeps[i].remaining - {k})])
    else s
  }

  /** The rows of a job and everything that hangs from them are gone. */
  function Without(s: State, j: JobId): State {
    s.(jobs := s.jobs - {j}, docs := s.docs - DocsOf(s.docs, j), outbox := s.outbox - DocsOf(s.docs, j))
  }

  /** DELETE FROM jobs ... AND status='DELETING', once the prefix is empty. */
  function DeleteRows(s: State, i: nat): State {
    if i in s.sweeps && s.sweeps[i].remaining == {}
    then
      var j := s.sweeps[i].job;
      var rest := s.(sweeps := s.sweeps - {i});
      if j in s.jobs && s.jobs[j].status.JDeleting? then Without(rest, j) else rest
    else s
  }

  function ListOrphan(s: State, i: nat, k: Key): State {
    if k in s.orphans && s.orphans[k] < s.now - GRACE && i !in s.collections
    then s.(collections := s.collections[i := Collection(k, Listed)])
    else s
  }

  predicate Referenced(docs: map<DocId, Doc>, k: Key) {
    exists d :: d in docs && docs[d].resultKey == Some(k)
  }

  function WithVerdict(s: State, i: nat, v: Verdict): map<nat, Collection>
    requires i in s.collections
  {
    s.collections[i := s.collections[i].(verdict := v)]
  }

  function CheckOrphan(s: State, i: nat): State {
    if i in s.collections && s.collections[i].verdict.Listed?
    then s.(collections := WithVerdict(s, i, if Referenced(s.docs, s.collections[i].key) then Spared else Condemned))
    else s
  }

  function SweepOrphan(s: State, i: nat): State {
    if i in s.collections && s.collections[i].verdict.Condemned?
    then s.(blobs := s.blobs - {s.collections[i].key}, collections := WithVerdict(s, i, Swept))
    else s
  }

  function DeleteOrphan(s: State, i: nat): State {
    if i in s.collections && (s.collections[i].verdict.Swept? || s.collections[i].verdict.Spared?)
    then s.(orphans := s.orphans - {s.collections[i].key}, collections := s.collections - {i})
    else s
  }

  // ---------------------------------------------------------------- all steps

  datatype Op =
    | Tick(seconds: nat)
    | CreateOp(owner: nat, key: string, hash: string, job: JobId, docs: set<DocId>)
    | SubmitOp(job: JobId)
    | DeleteOp(job: JobId)
    | ClaimCheckOp(job: JobId, token: Token)
    | PickDocsOp(token: Token, docs: set<DocId>)
    | CommitCheckOp(token: Token, found: map<DocId, Check>)
    | EndCheckOp(token: Token)
    | ClaimDocOp(doc: DocId, token: Token)
    | HeartbeatOp(token: Token)
    | ReadJobOp(token: Token)
    | LockResultOp(token: Token)
    | RecordResultOp(token: Token)
    | UploadResultOp(token: Token)
    | CommitResultOp(token: Token)
    | FailOp(token: Token, code: string, retryable: bool)
    | ListExpiredOp(listed: set<JobId>)
    | RecoverJobOp(job: JobId)
    | EnqueueOp
    | ReadOutboxOp(id: nat, docs: set<DocId>)
    | CommitOutboxOp(id: nat)
    | ExpireUploadsOp
    | ListDeletingOp(job: JobId)
    | StartSweepOp(id: nat, job: JobId)
    | SweepBlobOp(id: nat, blob: Key)
    | DeleteRowsOp(id: nat)
    | ListOrphanOp(id: nat, blob: Key)
    | CheckOrphanOp(id: nat)
    | SweepOrphanOp(id: nat)
    | DeleteOrphanOp(id: nat)

  /** The state after one step; a step that is not enabled changes nothing. */
  function Apply(op: Op, s: State): State {
    match op
    case Tick(n) => s.(now := s.now + n)
    case CreateOp(o, k, h, j, ds) => Create(s, o, k, h, j, ds)
    case SubmitOp(j) => Submit(s, j)
    case DeleteOp(j) => Delete(s, j)
    case ClaimCheckOp(j, t) => ClaimCheck(s, j, t)
    case PickDocsOp(t, ds) => PickDocs(s, t, ds)
    case CommitCheckOp(t, found) => CommitCheck(s, t, found)
    case EndCheckOp(t) => EndCheck(s, t)
    case ClaimDocOp(d, t) => ClaimDoc(s, d, t)
    case HeartbeatOp(t) => Heartbeat(s, t)
    case ReadJobOp(t) => ReadJob(s, t)
    case LockResultOp(t) => LockResult(s, t)
    case RecordResultOp(t) => RecordResult(s, t)
    case UploadResultOp(t) => UploadResult(s, t)
    case CommitResultOp(t) => CommitResult(s, t)
    case FailOp(t, code, retryable) => Fail(s, t, code, retryable)
    case ListExpiredOp(js) => ListExpired(s, js)
    case RecoverJobOp(j) => RecoverJob(s, j)
    case EnqueueOp => Enqueue(s)
    case ReadOutboxOp(i, ds) => ReadOutbox(s, i, ds)
    case CommitOutboxOp(i) => CommitOutbox(s, i)
    case ExpireUploadsOp => ExpireUploads(s)
    case ListDeletingOp(j) => ListDeleting(s, j)
    case StartSweepOp(i, j) => StartSweep(s, i, j)
    case SweepBlobOp(i, k) => SweepBlob(s, i, k)
    case DeleteRowsOp(i) => DeleteRows(s, i)
    case ListOrphanOp(i, k) => ListOrphan(s, i, k)
    case CheckOrphanOp(i) => CheckOrphan(s, i)
    case SweepOrphanOp(i) => SweepOrphan(s, i)
    case DeleteOrphanOp(i) => DeleteOrphan(s, i)
  }

  /** Nothing has happened yet. */
  function Start(now: int): State {
    State(now, map[], map[], map[], map[], {}, {}, {}, map[], map[], map[], {}, map[], {}, map[], map[])
  }

  function Run(ops: seq<Op>, s: State): State {
    if ops == [] then s else Run(ops[1..], Apply(ops[0], s))
  }
}
