/** What every step of the leased-work protocol keeps, whatever the interleaving. */
module Invariants {
  import opened Text
  import opened Ledger
  import opened Steps

  // ---------------------------------------------------------------- rows refer to rows

  ghost predicate Linked(jobs: map<JobId, Job>, docs: map<DocId, Doc>, outbox: map<DocId, int>,
                         usedJobs: set<JobId>, usedDocs: set<DocId>) {
    (forall d :: d in docs ==> docs[d].job in jobs) && outbox.Keys <= docs.Keys &&
    jobs.Keys <= usedJobs && docs.Keys <= usedDocs &&
    forall j :: j in jobs ==> DocsOf(docs, j) != {}
  }

  /** One job for each owner and idempotency key. */
  ghost predicate Distinct(jobs: map<JobId, Job>) {
    forall i, j :: i in jobs && j in jobs && Owns(jobs[i], jobs[j].owner, jobs[j].idempotencyKey) ==> i == j
  }

  // ---------------------------------------------------------------- a document and its job

  predicate Early(st: JobStatus) {
    st.JUploading? || st.JVerifying?
  }

  predicate AttemptsFit(st: DocStatus, n: nat) {
    match st
    case Uploading => n == 0
    case Queued => n == 0
    case RetryWait => 1 <= n < MAX_ATTEMPTS
    case Processing => 1 <= n <= MAX_ATTEMPTS
    case Succeeded => 1 <= n <= MAX_ATTEMPTS
    case Failed => 1 <= n <= MAX_ATTEMPTS
  }

  /** Before it is queued a document belongs to a job still being uploaded or verified. */
  predicate EarlyDoc(d: Doc, job: Job, queued: bool) {
    (Early(job.status) || job.status.JDeleting?) && d.token.None? && !queued &&
    (d.verified == job.generation ==> (d.version.Some? <==> d.error.None?))
  }

  /** From then on it was verified in the job's current generation, and while the job lives it is
      in the outbox or has been delivered to the stream. */
  predicate LateDoc(d: Doc, job: Job, queued: bool) {
    !Early(job.status) && d.verified == job.generation && d.version.Some? &&
    (job.status.JQueued? ==> d.status.Queued?) && (d.status.Queued? ==> d.error.None?) &&
    (job.status.JDeleting? || queued || d.lastEnqueued.Some?)
  }

  predicate Lifecycle(d: Doc, job: Job, queued: bool) {
    AttemptsFit(d.status, d.attempts) && d.verified <= job.generation &&
    (d.status.Processing? ==> d.token.Some? && d.lease.Some?) &&
    (d.status.Succeeded? <==> d.resultKey.Some?) &&
    if d.status.Uploading? then EarlyDoc(d, job, queued) else LateDoc(d, job, queued)
  }

  ghost predicate Lives(jobs: map<JobId, Job>, docs: map<DocId, Doc>, outbox: map<DocId, int>) {
    forall d :: d in docs && docs[d].job in jobs ==> Lifecycle(docs[d], jobs[docs[d].job], d in outbox)
  }

  // ---------------------------------------------------------------- a job and its documents

  predicate Settled(st: JobStatus) {
    st.JProcessing? || st.JSucceeded? || st.JPartialSuccess? || st.JFailed?
  }

  /** Once work has begun, a job's status is the summary of its documents'. */
  ghost predicate Agrees(jobs: map<JobId, Job>, docs: map<DocId, Doc>) {
    forall j :: j in jobs && Settled(jobs[j].status) ==> jobs[j].status == Summary(Statuses(docs, j))
  }

  // ---------------------------------------------------------------- verification

  /** A job's checker works in the job's generation, on the first hundred unchecked documents. */
  ghost predicate CheckerFits(j: JobId, job: Job, docs: map<DocId, Doc>, verifiers: map<Token, Verifier>) {
    (job.status.JVerifying? ==> Unchecked(docs, j, job.generation) != {}) &&
    (job.checker.Some? ==>
      job.checker.value in verifiers && var x := verifiers[job.checker.value];
      x.job == j && x.generation == job.generation &&
      (job.status.JVerifying? && x.stage.Picked? ==> FirstBatch(x.stage.docs, Unchecked(docs, j, job.generation))))
  }

  ghost predicate Checks(jobs: map<JobId, Job>, docs: map<DocId, Doc>, verifiers: map<Token, Verifier>) {
    forall j :: j in jobs ==> CheckerFits(j, jobs[j], docs, verifiers)
  }

  // ---------------------------------------------------------------- claims

  /** A claim knows no more attempts than the row, and as many only if the row carries its token. */
  predicate ClaimFits(t: Token, c: Claim, docs: map<DocId, Doc>, usedDocs: set<DocId>) {
    c.doc in usedDocs && c.attempt >= 1 && c.version.Some? &&
    (c.doc in docs ==>
      var d := docs[c.doc];
      d.job == c.job && c.attempt <= d.attempts && d.version == c.version && !d.status.Uploading? &&
      (c.attempt == d.attempts ==> d.token == Some(t)))
  }

  ghost predicate Claims(claims: map<Token, Claim>, docs: map<DocId, Doc>, usedDocs: set<DocId>) {
    forall t :: t in claims ==> ClaimFits(t, claims[t], docs, usedDocs)
  }

  /** A row's token is that of its latest claim. */
  predicate TokenFits(d: DocId, x: Doc, claims: map<Token, Claim>) {
    x.token.Some? ==> x.token.value in claims && claims[x.token.value].doc == d && claims[x.token.value].attempt == x.attempts
  }

  ghost predicate Tokens(docs: map<DocId, Doc>, claims: map<Token, Claim>) {
    forall d :: d in docs ==> TokenFits(d, docs[d], claims)
  }

  predicate Won(completes: map<Token, Complete>, t: Token) {
    t in completes && completes[t].phase.Committed?
  }

  /** A committed result is the row's, and a row's result was committed by its token's holder. */
  ghost predicate Results(docs: map<DocId, Doc>, claims: map<Token, Claim>, completes: map<Token, Complete>) {
    completes.Keys <= claims.Keys &&
    (forall t :: Won(completes, t) && claims[t].doc in docs ==>
      docs[claims[t].doc].status.Succeeded? && docs[claims[t].doc].token == Some(t)) &&
    (forall d :: d in docs && docs[d].status.Succeeded? ==>
      docs[d].token.Some? && Won(completes, docs[d].token.value) &&
      docs[d].resultKey == Some(Key(docs[d].job, d, docs[d].token.value)))
  }

  /** No two complete() calls for one document have succeeded. */
  ghost predicate OneWinner(claims: map<Token, Claim>, completes: map<Token, Complete>) {
    completes.Keys <= claims.Keys &&
    forall t, u :: Won(completes, t) && Won(completes, u) && claims[t].doc == claims[u].doc ==> t == u
  }

  // ---------------------------------------------------------------- lists read earlier

  /** A job once listed by recover() is past its queue. */
  ghost predicate ListedJobs(expired: set<JobId>, jobs: map<JobId, Job>) {
    forall j :: j in expired && j in jobs ==> Settled(jobs[j].status) || jobs[j].status.JDeleting?
  }

  ghost predicate RowsRead(dispatches: map<nat, map<DocId, int>>, now: int) {
    forall i, d :: i in dispatches && d in dispatches[i] ==> dispatches[i][d] <= now
  }

  /** Jobs, documents and outbox. */
  ghost predicate Rows(s: State) {
    Linked(s.jobs, s.docs, s.outbox, s.usedJobs, s.usedDocs) && Distinct(s.jobs) &&
    Lives(s.jobs, s.docs, s.outbox) && Agrees(s.jobs, s.docs) &&
    ListedJobs(s.expired, s.jobs) && s.expired <= s.usedJobs
  }

  /** Claims and their outcomes. */
  ghost predicate Fenced(s: State) {
    Claims(s.claims, s.docs, s.usedDocs) && Tokens(s.docs, s.claims) &&
    Results(s.docs, s.claims, s.completes) && OneWinner(s.claims, s.completes)
  }

  ghost predicate Inv(s: State) {
    Rows(s) && Fenced(s) && Checks(s.jobs, s.docs, s.verifiers) && RowsRead(s.dispatches, s.now)
  }

  lemma StartInv(now: int)
    ensures Inv(Start(now))
  {
  }

  // ---------------------------------------------------------------- summaries

  lemma StatusesSame(docs: map<DocId, Doc>, docs2: map<DocId, Doc>, j: JobId)
    requires forall d :: (d in docs && docs[d].job == j) <==> (d in docs2 && docs2[d].job == j)
    requires forall d :: d in docs && docs[d].job == j ==> docs2[d].status == docs[d].status
    ensures Statuses(docs2, j) == Statuses(docs, j)
  {
    forall st ensures st in Statuses(docs2, j) <==> st in Statuses(docs, j) {
      if st in Statuses(docs, j) {
        var d :| d in docs && docs[d].job == j && docs[d].status == st;
        assert d in docs2;
      }
      if st in Statuses(docs2, j) {
        var d :| d in docs2 && docs2[d].job == j && docs2[d].status == st;
        assert d in docs;
      }
    }
  }

  /** A refresh after changing documents of one job only. */
  lemma RefreshAgrees(jobs: map<JobId, Job>, docs: map<DocId, Doc>, docs2: map<DocId, Doc>, j: JobId, now: int)
    requires Agrees(jobs, docs)
    requires docs2.Keys == docs.Keys && forall d :: d in docs ==> docs2[d].job == docs[d].job
    requires forall d :: d in docs && docs[d].job != j ==> docs2[d].status == docs[d].status
    requires j in jobs && (jobs[j].status.JDeleting? || Settled(jobs[j].status))
    ensures Agrees(Refresh(jobs, docs2, j, now), docs2)
  {
    hide Statuses, Summary;
    var jobs2 := Refresh(jobs, docs2, j, now);
    forall i | i in jobs2 && Settled(jobs2[i].status) ensures jobs2[i].status == Summary(Statuses(docs2, i)) {
      if i != j { StatusesSame(docs, docs2, i); }
    }
  }

  lemma SummarySettles(sts: set<DocStatus>)
    ensures Settled(Summary(sts))
  {
  }
}
