/** What one step may do to a job and a document: results are final, versions are fixed once queued,
    every change of status uses up measure, and nothing happens below DELETING. */
module Progress {
  import opened Text
  import opened Ledger
  import opened Steps
  import opened Invariants
  import opened Frames
  import opened BatchSteps
  import opened CheckSteps
  import opened LeaseSteps

  /** Attempts left, then whether one is running. */
  function Measure(d: Doc): int {
    2 * (MAX_ATTEMPTS - d.attempts) + if d.status.Processing? then 1 else 0
  }

  predicate DocMoves(x: Doc, y: Doc, deleting: bool) {
    y.job == x.job &&
    (Terminal(x.status) || deleting ==> y.status == x.status && y.resultKey == x.resultKey) &&
    (deleting ==> y.lease == x.lease) &&
    (!x.status.Uploading? ==>
      y.version == x.version && !y.status.Uploading? &&
      if y.status == x.status then y.attempts == x.attempts else Measure(y) < Measure(x))
  }

  predicate Over(st: JobStatus) {
    st.JSucceeded? || st.JPartialSuccess? || st.JFailed?
  }

  predicate JobMoves(a: Job, b: Job, now: int) {
    b.owner == a.owner && b.idempotencyKey == a.idempotencyKey && b.manifestHash == a.manifestHash &&
    a.generation <= b.generation &&
    (a.status.JDeleting? ==> b.status.JDeleting? && b.updated == a.updated) &&
    (b.status.JDeleting? && !a.status.JDeleting? ==> b.updated == now) &&
    (Over(a.status) ==> b.status == a.status || b.status.JDeleting?) &&
    (!Early(a.status) ==> !Early(b.status))
  }

  predicate Deleting(jobs: map<JobId, Job>, d: Doc) {
    d.job in jobs && jobs[d.job].status.JDeleting?
  }

  ghost predicate DocsMove(jobs: map<JobId, Job>, docs: map<DocId, Doc>, docs2: map<DocId, Doc>, usedDocs: set<DocId>) {
    (forall d :: d in docs && d in docs2 ==> DocMoves(docs[d], docs2[d], Deleting(jobs, docs[d]))) &&
    (forall d :: d in docs2 && d !in docs ==> d !in usedDocs)
  }

  ghost predicate JobsMove(jobs: map<JobId, Job>, jobs2: map<JobId, Job>, usedJobs: set<JobId>, now: int) {
    (forall j :: j in jobs && j in jobs2 ==> JobMoves(jobs[j], jobs2[j], now)) &&
    (forall j :: j in jobs2 && j !in jobs ==> j !in usedJobs)
  }

  /** Rows only move forward; ids are never reused. */
  ghost predicate Moves(s: State, r: State) {
    s.now <= r.now && s.usedDocs <= r.usedDocs && s.usedJobs <= r.usedJobs &&
    DocsMove(s.jobs, s.docs, r.docs, s.usedDocs) && JobsMove(s.jobs, r.jobs, s.usedJobs, s.now)
  }

  // ---------------------------------------------------------------- small moves

  lemma SameDocMoves(d: Doc, deleting: bool)
    ensures DocMoves(d, d, deleting)
  {
  }

  lemma NoDocsMove(jobs: map<JobId, Job>, docs: map<DocId, Doc>, usedDocs: set<DocId>)
    ensures DocsMove(jobs, docs, docs, usedDocs)
  {
    hide Measure;
  }

  lemma OneDocMoves(jobs: map<JobId, Job>, docs: map<DocId, Doc>, usedDocs: set<DocId>, d: DocId, x: Doc)
    requires d in docs && DocMoves(docs[d], x, Deleting(jobs, docs[d]))
    ensures DocsMove(jobs, docs, docs[d := x], usedDocs)
  {
    hide DocMoves, Deleting;
    forall e | e in docs ensures DocMoves(docs[e], docs[d := x][e], Deleting(jobs, docs[e])) {
      SameDocMoves(docs[e], Deleting(jobs, docs[e]));
    }
  }

  lemma NoJobsMove(jobs: map<JobId, Job>, usedJobs: set<JobId>, now: int)
    ensures JobsMove(jobs, jobs, usedJobs, now)
  {
  }

  lemma OneJobMoves(jobs: map<JobId, Job>, usedJobs: set<JobId>, now: int, j: JobId, job: Job)
    requires j in jobs && JobMoves(jobs[j], job, now)
    ensures JobsMove(jobs, jobs[j := job], usedJobs, now)
  {
  }

  lemma FewerRows(s: State, r: State)
    requires forall d :: d in r.docs ==> d in s.docs && r.docs[d] == s.docs[d]
    requires forall j :: j in r.jobs ==> j in s.jobs && r.jobs[j] == s.jobs[j]
    requires r.now == s.now && r.usedDocs == s.usedDocs && r.usedJobs == s.usedJobs
    ensures Moves(s, r)
  {
    hide Measure;
  }

  lemma SubmitMoves(s: State, j: JobId)
    ensures Moves(s, Submit(s, j))
  {
    hide DocsMove, JobsMove;
    NoDocsMove(s.jobs, s.docs, s.usedDocs);
    NoJobsMove(s.jobs, s.usedJobs, s.now);
    if Submit(s, j) != s { OneJobMoves(s.jobs, s.usedJobs, s.now, j, Submit(s, j).jobs[j]); }
  }

  lemma DeleteMoves(s: State, j: JobId)
    ensures Moves(s, Delete(s, j))
  {
    hide DocsMove, JobsMove, DocsOf;
    NoDocsMove(s.jobs, s.docs, s.usedDocs);
    NoJobsMove(s.jobs, s.usedJobs, s.now);
    if j in s.jobs && !s.jobs[j].status.JDeleting? { OneJobMoves(s.jobs, s.usedJobs, s.now, j, Delete(s, j).jobs[j]); }
  }

  lemma NewDocsMove(jobs: map<JobId, Job>, docs: map<DocId, Doc>, usedDocs: set<DocId>, ds: set<DocId>, x: Doc)
    requires ds !! usedDocs && docs.Keys <= usedDocs
    ensures DocsMove(jobs, docs, WithNew(docs, ds, x), usedDocs)
  {
    hide DocMoves, Deleting;
    forall d | d in docs ensures DocMoves(docs[d], WithNew(docs, ds, x)[d], Deleting(jobs, docs[d])) {
      SameDocMoves(docs[d], Deleting(jobs, docs[d]));
    }
  }

  lemma NewJobMoves(jobs: map<JobId, Job>, usedJobs: set<JobId>, now: int, j: JobId, job: Job)
    requires j !in usedJobs && jobs.Keys <= usedJobs
    ensures JobsMove(jobs, jobs[j := job], usedJobs, now)
  {
  }

  lemma CreateMoves(s: State, owner: nat, key: string, hash: string, j: JobId, ds: set<DocId>)
    requires Rows(s)
    ensures Moves(s, Create(s, owner, key, hash, j, ds))
  {
    hide Distinct, Lives, Agrees, ListedJobs, Existing, Linked, DocsMove, JobsMove, WithNew;
    NoMoves(s);
    if Create(s, owner, key, hash, j, ds) != s {
      AllUsed(s);
      SameNew(s.docs, ds, j, s.now);
      NewDocsMove(s.jobs, s.docs, s.usedDocs, ds, NewDoc(j, s.now));
      NewJobMoves(s.jobs, s.usedJobs, s.now, j, NewJob(owner, key, hash, s.now));
    }
  }

  lemma CheckRowMoves(job: Job, checker: Option<Token>, until: Option<int>, now: int)
    ensures JobMoves(job, job.(checker := checker, checkUntil := until), now)
  {
  }

  lemma ClaimCheckMoves(s: State, j: JobId, t: Token)
    ensures Moves(s, ClaimCheck(s, j, t))
  {
    hide DocsMove, JobsMove, JobMoves, CanCheck;
    NoMoves(s);
    if ClaimCheck(s, j, t) != s {
      CheckRowMoves(s.jobs[j], Some(t), Some(s.now + CHECK_LEASE), s.now);
      OneJobMoves(s.jobs, s.usedJobs, s.now, j, ClaimCheck(s, j, t).jobs[j]);
    }
  }

  lemma PickDocsMoves(s: State, t: Token, ds: set<DocId>)
    ensures Moves(s, PickDocs(s, t, ds))
  {
    hide Unchecked, FirstBatch, DocsMove, JobsMove;
    NoMoves(s);
  }

  lemma EndCheckMoves(s: State, t: Token)
    ensures Moves(s, EndCheck(s, t))
  {
    hide DocsMove, JobsMove, JobMoves;
    NoMoves(s);
    if t in s.verifiers && s.verifiers[t].job in s.jobs {
      var j := s.verifiers[t].job;
      CheckRowMoves(s.jobs[j], None, None, s.now);
      OneJobMoves(s.jobs, s.usedJobs, s.now, j, s.jobs[j].(checker := None, checkUntil := None));
    }
  }

  // ---------------------------------------------------------------- work on a job

  lemma AgreedOver(s: State, j: JobId, d: DocId)
    requires Agrees(s.jobs, s.docs) && j in s.jobs && d in s.docs && s.docs[d].job == j && !Terminal(s.docs[d].status)
    ensures !Over(s.jobs[j].status)
  {
    assert s.docs[d].status in Statuses(s.docs, j);
  }

  lemma FilesJobs(docs: map<DocId, Doc>, docs2: map<DocId, Doc>)
    requires SameFiles(docs, docs2)
    ensures docs2.Keys == docs.Keys && forall d :: d in docs ==> docs2[d].job == docs[d].job
  {
  }

  /** A refresh moves a job forward, and leaves a finished one alone. */
  lemma RefreshMoves(s: State, docs2: map<DocId, Doc>, j: JobId)
    requires Agrees(s.jobs, s.docs) && j in s.jobs && Settled(s.jobs[j].status) && SameFiles(s.docs, docs2)
    requires forall d :: d in s.docs && s.docs[d].job == j ==>
               docs2[d].status == s.docs[d].status || !Terminal(s.docs[d].status)
    ensures JobMoves(s.jobs[j], Refresh(s.jobs, docs2, j, s.now)[j], s.now)
  {
    hide Summary, Statuses, SameFiles;
    FilesJobs(s.docs, docs2);
    SummarySettles(Statuses(docs2, j));
    if Over(s.jobs[j].status) {
      if d :| d in s.docs && s.docs[d].job == j && docs2[d].status != s.docs[d].status {
        AgreedOver(s, j, d);
      } else {
        StatusesSame(s.docs, docs2, j);
      }
    }
  }

  lemma RefreshShape(jobs: map<JobId, Job>, docs: map<DocId, Doc>, j: JobId, now: int)
    requires j in jobs
    ensures Refresh(jobs, docs, j, now) == jobs[j := Refresh(jobs, docs, j, now)[j]]
  {
    hide Summary, Statuses;
  }

  lemma MovedStatus(x: Doc, y: Doc, deleting: bool)
    requires DocMoves(x, y, deleting)
    ensures y.status == x.status || !Terminal(x.status)
  {
  }

  /** Documents of one working job change; the job is refreshed. */
  lemma WorkMoves(s: State, r: State, j: JobId)
    requires Rows(s) && j in s.jobs && Settled(s.jobs[j].status) && SameFiles(s.docs, r.docs)
    requires r.jobs == Refresh(s.jobs, r.docs, j, s.now) && r.now == s.now && r.usedDocs == s.usedDocs && r.usedJobs == s.usedJobs
    requires forall d :: d in s.docs && s.docs[d].job != j ==> r.docs[d] == s.docs[d]
    requires forall d :: d in s.docs && s.docs[d].job == j ==> DocMoves(s.docs[d], r.docs[d], false)
    ensures Moves(s, r)
  {
    hide Linked, Distinct, Lives, Agrees, ListedJobs, Summary, Statuses, Refresh, DocMoves, JobsMove, SameFiles;
    FilesJobs(s.docs, r.docs);
    forall d | d in s.docs && s.docs[d].job == j ensures r.docs[d].status == s.docs[d].status || !Terminal(s.docs[d].status) {
      MovedStatus(s.docs[d], r.docs[d], false);
    }
    RefreshMoves(s, r.docs, j);
    RefreshShape(s.jobs, r.docs, j, s.now);
    OneJobMoves(s.jobs, s.usedJobs, s.now, j, r.jobs[j]);
    forall d | d in s.docs ensures DocMoves(s.docs[d], r.docs[d], Deleting(s.jobs, s.docs[d])) {
      if s.docs[d].job != j { SameDocMoves(s.docs[d], Deleting(s.jobs, s.docs[d])); }
    }
  }

  lemma FailedMoves(d: Doc, code: string, retry: bool, due: int)
    requires d.status.Processing?
    ensures DocMoves(d, FailedDoc(d, code, retry, due), false)
  {
  }

  lemma FailMoves(s: State, t: Token, code: string, retryable: bool)
    requires Inv(s)
    ensures Moves(s, Fail(s, t, code, retryable))
  {
    hide Rows, Fenced, Checks, RowsRead, Refresh, DocMoves, Moves;
    if Passes(s, t) {
      PassingJob(s, t);
      var r := Fail(s, t, code, retryable);
      var c := s.claims[t];
      FailedMoves(s.docs[c.doc], code, Retries(c, retryable), s.now + Delay(c.attempt));
      forall d | d in s.docs && s.docs[d].job == c.job ensures DocMoves(s.docs[d], r.docs[d], false) {
        SameDocMoves(s.docs[d], false);
      }
      WorkMoves(s, r, c.job);
    } else {
      NoMoves(s);
    }
  }

  lemma NoMoves(s: State)
    ensures Moves(s, s)
  {
    hide DocsMove, JobsMove;
    NoDocsMove(s.jobs, s.docs, s.usedDocs);
    NoJobsMove(s.jobs, s.usedJobs, s.now);
  }

  lemma SucceededMoves(d: Doc, k: Key)
    requires d.status.Processing?
    ensures DocMoves(d, SucceededDoc(d, k), false)
  {
  }

  lemma CommitResultMoves(s: State, t: Token)
    requires Inv(s)
    ensures Moves(s, CommitResult(s, t))
  {
    hide Rows, Fenced, Checks, RowsRead, Refresh, DocMoves, Moves;
    if CommitResult(s, t) != s {
      PassingJob(s, t);
      var r := CommitResult(s, t);
      var c := s.claims[t];
      SucceededMoves(s.docs[c.doc], KeyOf(s, t));
      forall d | d in s.docs && s.docs[d].job == c.job ensures DocMoves(s.docs[d], r.docs[d], false) {
        SameDocMoves(s.docs[d], false);
      }
      WorkMoves(s, r, c.job);
    } else {
      NoMoves(s);
    }
  }

  lemma RecoveredMoves(d: Doc, now: int)
    requires Expired(d, now)
    ensures DocMoves(d, RecoveredDoc(d, now), false)
  {
  }

  lemma RecoverJobMoves(s: State, j: JobId)
    requires Inv(s)
    ensures Moves(s, RecoverJob(s, j))
  {
    hide Fenced, Checks, RowsRead, Refresh, Linked, Distinct, Lives, Agrees, DocMoves, Moves;
    if RecoverJob(s, j) != s {
      var r := RecoverJob(s, j);
      assert SameFiles(s.docs, r.docs);
      forall d | d in s.docs && s.docs[d].job == j ensures DocMoves(s.docs[d], r.docs[d], false) {
        SameDocMoves(s.docs[d], false);
        if Expired(s.docs[d], s.now) { RecoveredMoves(s.docs[d], s.now); }
      }
      WorkMoves(s, r, j);
    } else {
      NoMoves(s);
    }
  }

  lemma ClaimedMoves(d: Doc, job: Job, t: Token, now: int)
    requires Claimable(d, job, now)
    ensures DocMoves(d, ClaimedDoc(d, t, now), false) && !job.status.JDeleting?
    ensures JobMoves(job, job.(status := JProcessing, updated := now), now)
  {
  }

  lemma ClaimDocMoves(s: State, d: DocId, t: Token)
    ensures Moves(s, ClaimDoc(s, d, t))
  {
    hide DocsMove, JobsMove, DocMoves, JobMoves, Claimable;
    if ClaimDoc(s, d, t) != s {
      var x := s.docs[d];
      ClaimedMoves(x, s.jobs[x.job], t, s.now);
      OneDocMoves(s.jobs, s.docs, s.usedDocs, d, ClaimedDoc(x, t, s.now));
      OneJobMoves(s.jobs, s.usedJobs, s.now, x.job, s.jobs[x.job].(status := JProcessing, updated := s.now));
    } else {
      NoMoves(s);
    }
  }

  lemma HeartbeatMoves(s: State, t: Token)
    ensures Moves(s, Heartbeat(s, t))
  {
    hide DocsMove, JobsMove;
    NoMoves(s);
    var r := Heartbeat(s, t);
    if r != s {
      var d := s.claims[t].doc;
      OneDocMoves(s.jobs, s.docs, s.usedDocs, d, r.docs[d]);
    }
  }

  // ---------------------------------------------------------------- everything else

  lemma CommitOutboxMoves(s: State, i: nat)
    ensures Moves(s, CommitOutbox(s, i))
  {
    hide JobsMove, Delivered;
    NoMoves(s);
    NoJobsMove(s.jobs, s.usedJobs, s.now);
  }

  lemma OutboxMoves(s: State, i: nat, ds: set<DocId>, js: set<JobId>)
    ensures Moves(s, ReadOutbox(s, i, ds)) && Moves(s, Enqueue(s)) && Moves(s, ListExpired(s, js))
  {
    hide DueBatch, Expired, DocsMove, JobsMove, Overdue;
    NoMoves(s);
  }

  lemma ExpireUploadsMoves(s: State)
    ensures Moves(s, ExpireUploads(s))
  {
    hide DocsMove;
    NoDocsMove(s.jobs, s.docs, s.usedDocs);
  }

  lemma CompleteMoves(s: State, t: Token)
    ensures Moves(s, ReadJob(s, t)) && Moves(s, LockResult(s, t)) && Moves(s, RecordResult(s, t)) && Moves(s, UploadResult(s, t))
  {
    hide Held, JobLives, DocsMove, JobsMove;
    NoMoves(s);
  }

  lemma WithoutMoves(s: State, j: JobId)
    ensures Moves(s, Without(s, j))
  {
    hide Moves, DocsOf;
    WithoutShape(s, j);
    FewerRows(s, Without(s, j));
  }

  lemma DeleteRowsMoves(s: State, i: nat)
    ensures Moves(s, DeleteRows(s, i))
  {
    hide DocsMove, JobsMove, Without;
    NoMoves(s);
    if i in s.sweeps {
      WithoutMoves(s.(sweeps := s.sweeps - {i}), s.sweeps[i].job);
    }
  }

  lemma FreshMoves(s: State, docs2: map<DocId, Doc>, j: JobId)
    requires docs2.Keys == s.docs.Keys && j in s.jobs && !s.jobs[j].status.JDeleting?
    requires forall d :: d in s.docs ==>
               docs2[d] == s.docs[d] || (s.docs[d].job == j && docs2[d].job == j && s.docs[d].status.Uploading?)
    ensures DocsMove(s.jobs, s.docs, docs2, s.usedDocs)
  {
  }

  lemma VerdictMoves(job: Job, now: int)
    requires job.status.JVerifying?
    ensures JobMoves(job, job.(status := JUploading, updated := now), now) && JobMoves(job, job.(status := JQueued, updated := now), now)
  {
  }

  /** Only documents of j change, all of them still UPLOADING. */
  ghost predicate OnlyUploading(docs: map<DocId, Doc>, docs2: map<DocId, Doc>, j: JobId) {
    docs2.Keys == docs.Keys &&
    forall d :: d in docs ==>
      docs2[d].job == docs[d].job && (docs[d].job != j ==> docs2[d] == docs[d]) && (docs[d].job == j ==> docs[d].status.Uploading?)
  }

  lemma UploadingMoves(s: State, docs2: map<DocId, Doc>, j: JobId)
    requires OnlyUploading(s.docs, docs2, j) && j in s.jobs && s.jobs[j].status.JVerifying?
    ensures DocsMove(s.jobs, s.docs, docs2, s.usedDocs) && OnlyUploading(s.docs, QueuedDocs(docs2, j), j)
  {
    QueuedShape(docs2, j);
    FreshMoves(s, docs2, j);
  }

  lemma RejectedMoves(s: State, m: State, j: JobId)
    requires m == s.(docs := m.docs, verifiers := m.verifiers) && j in s.jobs && s.jobs[j].status.JVerifying?
    requires DocsMove(s.jobs, s.docs, m.docs, s.usedDocs)
    ensures Moves(s, Rejected(m, j))
  {
    hide DocsMove, JobsMove;
    VerdictsMove(s, j);
  }

  lemma AllQueuedMoves(s: State, m: State, j: JobId)
    requires m == s.(docs := m.docs, verifiers := m.verifiers) && j in s.jobs && s.jobs[j].status.JVerifying?
    requires DocsMove(s.jobs, s.docs, QueuedDocs(m.docs, j), s.usedDocs)
    ensures Moves(s, AllQueued(m, j))
  {
    hide DocsMove, JobsMove, QueuedDocs, DocsOf;
    VerdictsMove(s, j);
  }

  lemma ConcludeMoves(s: State, m: State, j: JobId)
    requires m == s.(docs := m.docs, verifiers := m.verifiers) && j in s.jobs && s.jobs[j].status.JVerifying?
    requires OnlyUploading(s.docs, m.docs, j)
    ensures Moves(s, Conclude(m, j))
  {
    hide Unchecked, AnyInvalid, DocsMove, JobsMove, QueuedDocs, OnlyUploading, Rejected, AllQueued;
    UploadingMoves(s, m.docs, j);
    UploadingMoves(s, QueuedDocs(m.docs, j), j);
    if Unchecked(m.docs, j, m.jobs[j].generation) != {} {
      NoJobsMove(s.jobs, s.usedJobs, s.now);
    } else if AnyInvalid(m.docs, j) {
      RejectedMoves(s, m, j);
    } else {
      AllQueuedMoves(s, m, j);
    }
  }

  lemma VerdictsMove(s: State, j: JobId)
    requires j in s.jobs && s.jobs[j].status.JVerifying?
    ensures JobsMove(s.jobs, s.jobs[j := s.jobs[j].(status := JUploading, updated := s.now)], s.usedJobs, s.now)
    ensures JobsMove(s.jobs, s.jobs[j := s.jobs[j].(status := JQueued, updated := s.now)], s.usedJobs, s.now)
  {
    hide JobsMove;
    VerdictMoves(s.jobs[j], s.now);
    OneJobMoves(s.jobs, s.usedJobs, s.now, j, s.jobs[j].(status := JUploading, updated := s.now));
    OneJobMoves(s.jobs, s.usedJobs, s.now, j, s.jobs[j].(status := JQueued, updated := s.now));
  }

  lemma CommitCheckMoves(s: State, t: Token, found: map<DocId, Check>)
    requires Rows(s)
    ensures Moves(s, CommitCheck(s, t, found))
  {
    hide Linked, Distinct, Lives, Agrees, ListedJobs, CheckedDocs, Conclude, DocsMove, JobsMove;
    NoMoves(s);
    if t in s.verifiers && s.verifiers[t].stage == Picked(found.Keys) && HoldsCheck(s, t) {
      var j, g := s.verifiers[t].job, s.verifiers[t].generation;
      var m := s.(docs := CheckedDocs(s.docs, j, g, found), verifiers := FinishCheck(s, t));
      forall d | d in s.docs && s.docs[d].job == j ensures s.docs[d].status.Uploading? { VerifyingDocs(s, j, d); }
      CheckedShape(s.docs, j, g, found);
      assert OnlyUploading(s.docs, m.docs, j);
      ConcludeMoves(s, m, j);
    }
  }
}
