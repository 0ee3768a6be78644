/** Who may write what: the fields of a document that only an accepted chunk changes, the lease only
    its holder renews, and what a job's verification makes of its documents. */
module Writes {
  import opened Text
  import opened Ledger
  import opened Steps
  import opened Invariants
  import opened Frames
  import opened BatchSteps
  import opened CheckSteps
  import opened LeaseSteps
  import opened Progress
  import opened Runs

  /** A chunk of j is accepted: its verifier holds the check, and commits what it picked. */
  predicate Accepted(op: Op, s: State, j: JobId) {
    op.CommitCheckOp? && HoldsCheck(s, op.token) && s.verifiers[op.token].stage == Picked(op.found.Keys) &&
    s.verifiers[op.token].job == j
  }

  /** When a document is due: it starts only when due, and stops due from then on. */
  predicate Scheduled(x: Doc, y: Doc, now: int) {
    (y.available == x.available && (y.status.Processing? ==> x.status.Processing? || x.available <= now)) ||
    (x.status.Processing? && !y.status.Processing? && y.available >= now)
  }

  /** Nothing verification decides is changed, a lease that is over is not renewed, and the schedule is kept. */
  predicate Unwritten(x: Doc, y: Doc, now: int) {
    Scheduled(x, y, now) && y.job == x.job && y.version == x.version && y.verified == x.verified &&
    (x.status.Uploading? && y.status.Uploading? ==> y.error == x.error) &&
    (Expired(x, now) ==> y.status != x.status || y.lease == x.lease)
  }

  ghost predicate DocsKept(op: Op, s: State, r: State) {
    forall d :: d in s.docs && d in r.docs ==> Accepted(op, s, s.docs[d].job) || Unwritten(s.docs[d], r.docs[d], s.now)
  }

  ghost predicate SameFilesOf(s: State, r: State, j: JobId) {
    forall d :: (d in s.docs && s.docs[d].job == j) <==> (d in r.docs && r.docs[d].job == j)
  }

  // ---------------------------------------------------------------- documents, step by step

  // What single steps leave alone.

  /** A row of the outbox is an old one, or falls due with its document; what was read stays read. */
  ghost predicate QueueKept(s: State, r: State) {
    (forall d :: d in r.outbox ==>
      (d in s.outbox && r.outbox[d] == s.outbox[d]) ||
      (d in s.docs && (s.docs[d].status.Uploading? || (d in r.docs && r.outbox[d] == r.docs[d].available)))) &&
    forall i :: i in s.dispatches ==> i in r.dispatches && r.dispatches[i] == s.dispatches[i]
  }

  /** Documents, jobs and what recover() has listed are left alone. */
  ghost predicate Leaves(s: State, r: State) {
    r.docs == s.docs && r.jobs == s.jobs && s.expired <= r.expired && QueueKept(s, r)
  }

  lemma ListDeletingLeaves(s: State, j: JobId)
    ensures Leaves(s, ListDeleting(s, j))
  {
    hide Leaves;
    DoomLeaves(s, s.doomed);
    DoomLeaves(s, s.doomed + {j});
  }

  lemma DoomLeaves(s: State, js: set<JobId>)
    ensures Leaves(s, s.(doomed := js))
  {
  }

  lemma StartSweepLeaves(s: State, i: nat, j: JobId)
    ensures Leaves(s, StartSweep(s, i, j))
  {
  }

  lemma SweepBlobLeaves(s: State, i: nat, k: Key)
    ensures Leaves(s, SweepBlob(s, i, k))
  {
  }

  lemma ListOrphanLeaves(s: State, i: nat, k: Key)
    ensures Leaves(s, ListOrphan(s, i, k))
  {
  }

  lemma CheckOrphanLeaves(s: State, i: nat)
    ensures Leaves(s, CheckOrphan(s, i))
  {
  }

  lemma SweepOrphanLeaves(s: State, i: nat)
    ensures Leaves(s, SweepOrphan(s, i))
  {
  }

  lemma DeleteOrphanLeaves(s: State, i: nat)
    ensures Leaves(s, DeleteOrphan(s, i))
  {
  }

  lemma ReadJobLeaves(s: State, t: Token)
    ensures Leaves(s, ReadJob(s, t))
  {
  }

  lemma LockResultLeaves(s: State, t: Token)
    ensures Leaves(s, LockResult(s, t))
  {
    hide Held;
  }

  lemma RecordResultLeaves(s: State, t: Token)
    ensures Leaves(s, RecordResult(s, t))
  {
  }

  lemma UploadResultLeaves(s: State, t: Token)
    ensures Leaves(s, UploadResult(s, t))
  {
  }

  lemma EnqueueLeaves(s: State)
    ensures Leaves(s, Enqueue(s))
  {
    hide Overdue;
  }

  lemma ReadOutboxLeaves(s: State, i: nat, ds: set<DocId>)
    ensures Leaves(s, ReadOutbox(s, i, ds))
  {
    hide DueBatch, Leaves;
    DispatchesLeave(s, s.dispatches);
    DispatchesLeave(s, ReadOutbox(s, i, ds).dispatches);
  }

  lemma DispatchesLeave(s: State, ds: map<nat, map<DocId, int>>)
    requires forall i :: i in s.dispatches ==> i in ds && ds[i] == s.dispatches[i]
    ensures Leaves(s, s.(dispatches := ds))
  {
  }

  lemma PickDocsLeaves(s: State, t: Token, ds: set<DocId>)
    ensures Leaves(s, PickDocs(s, t, ds))
  {
    hide FirstBatch, Unchecked;
  }

  lemma ListExpiredLeaves(s: State, js: set<JobId>)
    ensures Leaves(s, ListExpired(s, js))
  {
    hide Expired, Leaves;
    ListLeaves(s, {});
    ListLeaves(s, js);
    assert s.expired + {} == s.expired;
  }

  lemma ListLeaves(s: State, js: set<JobId>)
    ensures Leaves(s, s.(expired := s.expired + js))
  {
  }

  predicate CleaningOp(op: Op) {
    op.ListDeletingOp? || op.StartSweepOp? || op.SweepBlobOp? || op.ListOrphanOp? || op.CheckOrphanOp? || op.SweepOrphanOp? ||
    op.DeleteOrphanOp?
  }

  lemma CleaningLeaves(op: Op, s: State)
    requires CleaningOp(op)
    ensures Leaves(s, Apply(op, s))
  {
    hide Create, Submit, Delete, ClaimCheck, PickDocs, CommitCheck, EndCheck, ClaimDoc, Heartbeat, ReadJob, LockResult,
         RecordResult, UploadResult, CommitResult, Fail, ListExpired, RecoverJob, Enqueue, ReadOutbox, CommitOutbox,
         ExpireUploads, ListDeleting, StartSweep, SweepBlob, DeleteRows, ListOrphan, CheckOrphan, SweepOrphan, DeleteOrphan,
         Leaves;
    match op
    case ListDeletingOp(j) => ListDeletingLeaves(s, j);
    case StartSweepOp(i, j) => StartSweepLeaves(s, i, j);
    case SweepBlobOp(i, k) => SweepBlobLeaves(s, i, k);
    case ListOrphanOp(i, k) => ListOrphanLeaves(s, i, k);
    case CheckOrphanOp(i) => CheckOrphanLeaves(s, i);
    case SweepOrphanOp(i) => SweepOrphanLeaves(s, i);
    case DeleteOrphanOp(i) => DeleteOrphanLeaves(s, i);
  }

  predicate CompletingOp(op: Op) {
    op.ReadJobOp? || op.LockResultOp? || op.RecordResultOp? || op.UploadResultOp?
  }

  lemma CompletingLeaves(op: Op, s: State)
    requires CompletingOp(op)
    ensures Leaves(s, Apply(op, s))
  {
    hide Create, Submit, Delete, ClaimCheck, PickDocs, CommitCheck, EndCheck, ClaimDoc, Heartbeat, ReadJob, LockResult,
         RecordResult, UploadResult, CommitResult, Fail, ListExpired, RecoverJob, Enqueue, ReadOutbox, CommitOutbox,
         ExpireUploads, ListDeleting, StartSweep, SweepBlob, DeleteRows, ListOrphan, CheckOrphan, SweepOrphan, DeleteOrphan,
         Leaves;
    match op
    case ReadJobOp(t) => ReadJobLeaves(s, t);
    case LockResultOp(t) => LockResultLeaves(s, t);
    case RecordResultOp(t) => RecordResultLeaves(s, t);
    case UploadResultOp(t) => UploadResultLeaves(s, t);
  }

  predicate ListingOp(op: Op) {
    op.Tick? || op.PickDocsOp? || op.ListExpiredOp? || op.EnqueueOp? || op.ReadOutboxOp?
  }

  lemma ListingLeaves(op: Op, s: State)
    requires ListingOp(op)
    ensures Leaves(s, Apply(op, s))
  {
    hide Create, Submit, Delete, ClaimCheck, PickDocs, CommitCheck, EndCheck, ClaimDoc, Heartbeat, ReadJob, LockResult,
         RecordResult, UploadResult, CommitResult, Fail, ListExpired, RecoverJob, Enqueue, ReadOutbox, CommitOutbox,
         ExpireUploads, ListDeleting, StartSweep, SweepBlob, DeleteRows, ListOrphan, CheckOrphan, SweepOrphan, DeleteOrphan,
         Leaves;
    match op
    case PickDocsOp(t, ds) => PickDocsLeaves(s, t, ds);
    case ListExpiredOp(js) => ListExpiredLeaves(s, js);
    case EnqueueOp => EnqueueLeaves(s);
    case ReadOutboxOp(i, ds) => ReadOutboxLeaves(s, i, ds);
    case Tick(n) => TickLeaves(s, n);
  }

  lemma TickLeaves(s: State, n: nat)
    ensures Leaves(s, s.(now := s.now + n))
  {
  }

  predicate IdleOp(op: Op) {
    CleaningOp(op) || CompletingOp(op) || ListingOp(op)
  }

  lemma IdleLeaves(op: Op, s: State)
    requires IdleOp(op)
    ensures Leaves(s, Apply(op, s))
  {
    hide Apply, Leaves;
    if CleaningOp(op) { CleaningLeaves(op, s); } else if CompletingOp(op) { CompletingLeaves(op, s); } else { ListingLeaves(op, s); }
  }

  /** Only documents and lists are left alone. */
  ghost predicate LeavesDocs(s: State, r: State) {
    r.docs == s.docs && s.expired <= r.expired && QueueKept(s, r)
  }

  lemma SubmitLeaves(s: State, j: JobId)
    ensures LeavesDocs(s, Submit(s, j))
  {
  }

  lemma DeleteLeaves(s: State, j: JobId)
    ensures LeavesDocs(s, Delete(s, j))
  {
    hide DocsOf;
  }

  lemma ClaimCheckLeaves(s: State, j: JobId, t: Token)
    ensures LeavesDocs(s, ClaimCheck(s, j, t))
  {
    hide CanCheck;
  }

  lemma EndCheckLeaves(s: State, t: Token)
    ensures LeavesDocs(s, EndCheck(s, t))
  {
  }

  lemma ExpireUploadsLeaves(s: State)
    ensures LeavesDocs(s, ExpireUploads(s))
  {
  }

  predicate BatchOp(op: Op) {
    op.SubmitOp? || op.DeleteOp? || op.ClaimCheckOp? || op.EndCheckOp? || op.ExpireUploadsOp?
  }

  lemma BatchLeaves(op: Op, s: State)
    requires BatchOp(op)
    ensures LeavesDocs(s, Apply(op, s))
  {
    hide Create, Submit, Delete, ClaimCheck, PickDocs, CommitCheck, EndCheck, ClaimDoc, Heartbeat, ReadJob, LockResult,
         RecordResult, UploadResult, CommitResult, Fail, ListExpired, RecoverJob, Enqueue, ReadOutbox, CommitOutbox,
         ExpireUploads, ListDeleting, StartSweep, SweepBlob, DeleteRows, ListOrphan, CheckOrphan, SweepOrphan, DeleteOrphan,
         LeavesDocs;
    match op
    case SubmitOp(j) => SubmitLeaves(s, j);
    case DeleteOp(j) => DeleteLeaves(s, j);
    case ClaimCheckOp(j, t) => ClaimCheckLeaves(s, j, t);
    case EndCheckOp(t) => EndCheckLeaves(s, t);
    case ExpireUploadsOp => ExpireUploadsLeaves(s);
  }

  /** Only jobs are left alone. */
  lemma CommitOutboxJobs(s: State, i: nat)
    ensures CommitOutbox(s, i).jobs == s.jobs
  {
    hide Delivered;
  }

  lemma HeartbeatJobs(s: State, t: Token)
    ensures Heartbeat(s, t).jobs == s.jobs
  {
    hide Held;
  }

  lemma LeaseKept(op: Op, s: State)
    requires op.ClaimDocOp? || op.HeartbeatOp?
    ensures var r := Apply(op, s); SameFiles(s.docs, r.docs) && DocsKept(op, s, r)
  {
    hide Accepted;
  }

  lemma EnqueuedKept(op: Op, s: State)
    requires op.CommitOutboxOp?
    ensures var r := Apply(op, s); SameFiles(s.docs, r.docs) && DocsKept(op, s, r)
  {
    hide Delivered, Accepted;
  }

  lemma OutcomeKept(op: Op, s: State)
    requires Inv(s) && (op.CommitResultOp? || op.FailOp?)
    ensures var r := Apply(op, s); SameFiles(s.docs, r.docs) && DocsKept(op, s, r)
  {
    hide Inv, Refresh, Accepted, Passes;
    if Passes(s, op.token) {
      PassingJob(s, op.token);
      PassingRow(s, op.token);
    }
  }

  lemma PassingRow(s: State, t: Token)
    requires Passes(s, t)
    ensures t in s.claims && s.claims[t].job in s.jobs && s.claims[t].doc in s.docs && s.docs[s.claims[t].doc].status.Processing?
  {
  }

  lemma RecoveredKept(s: State, j: JobId)
    ensures var r := RecoverJob(s, j);
            SameFiles(s.docs, r.docs) && forall d :: d in s.docs ==> Unwritten(s.docs[d], r.docs[d], s.now)
  {
    hide Refresh;
  }

  lemma CreatedKept(s: State, owner: nat, key: string, hash: string, j: JobId, ds: set<DocId>)
    requires Inv(s)
    ensures var r := Create(s, owner, key, hash, j, ds);
            (forall d :: d in s.docs ==> d in r.docs && r.docs[d] == s.docs[d]) &&
            forall i :: i in s.jobs ==> SameFilesOf(s, r, i)
  {
    hide Inv, Create, NewDoc;
    RowsUsed(s);
    CreateShape(s, owner, key, hash, j, ds);
    NewDocsShape(s.docs, ds, j, s.now);
  }

  lemma RowsUsed(s: State)
    requires Inv(s)
    ensures s.jobs.Keys <= s.usedJobs && s.docs.Keys <= s.usedDocs
  {
    hide Fenced, Checks, RowsRead, Distinct, Lives, Agrees, ListedJobs;
  }

  lemma CreateShape(s: State, owner: nat, key: string, hash: string, j: JobId, ds: set<DocId>)
    ensures var r := Create(s, owner, key, hash, j, ds);
            r.expired == s.expired &&
            ((r.docs == s.docs && r.jobs == s.jobs) ||
            (j !in s.usedJobs && ds !! s.usedDocs && r.docs == s.docs + (map d | d in ds :: NewDoc(j, s.now)) &&
             r.jobs == s.jobs[j := NewJob(owner, key, hash, s.now)]))
  {
    hide Existing, NewDoc, NewJob;
  }

  lemma NewDocsShape(docs: map<DocId, Doc>, ds: set<DocId>, j: JobId, now: int)
    ensures var docs2 := docs + map d | d in ds :: NewDoc(j, now);
            (forall d :: d in docs2 <==> d in docs || d in ds) &&
            (forall d :: d in docs2 ==> docs2[d] == if d in ds then NewDoc(j, now) else docs[d]) && NewDoc(j, now).job == j
  {
  }

  lemma RowsKept(s: State, i: nat)
    ensures var r := DeleteRows(s, i);
            (forall d :: d in r.docs ==> d in s.docs && r.docs[d] == s.docs[d]) &&
            forall j :: j in r.jobs ==> SameFilesOf(s, r, j)
  {
    hide DocsOf, Without;
    if i in s.sweeps && s.sweeps[i].remaining == {} {
      var j, rest := s.sweeps[i].job, s.(sweeps := s.sweeps - {i});
      WithoutShape(rest, j);
      WithoutJobs(rest, j);
    }
  }

  lemma WithoutJobs(s: State, j: JobId)
    ensures Without(s, j).jobs == s.jobs - {j} && Without(s, j).expired == s.expired
  {
  }

  lemma RejectedShape(m: State, j: JobId)
    requires j in m.jobs
    ensures Rejected(m, j).docs == m.docs && Rejected(m, j).expired == m.expired
    ensures Rejected(m, j).jobs == m.jobs[j := m.jobs[j].(status := JUploading, updated := m.now)]
  {
  }

  lemma AllQueuedRows(m: State, j: JobId)
    requires j in m.jobs
    ensures AllQueued(m, j).docs == QueuedDocs(m.docs, j) && AllQueued(m, j).expired == m.expired
    ensures AllQueued(m, j).jobs == m.jobs[j := m.jobs[j].(status := JQueued, updated := m.now)]
  {
    hide QueuedDocs, DocsOf;
  }

  /** What concluding makes of documents and jobs. */
  lemma ConcludeShape(m: State, j: JobId)
    requires j in m.jobs
    ensures var r := Conclude(m, j);
            r.expired == m.expired && (r.docs == m.docs || r.docs == QueuedDocs(m.docs, j)) &&
            (r.jobs == m.jobs || r.jobs == m.jobs[j := m.jobs[j].(status := JUploading, updated := m.now)] ||
             r.jobs == m.jobs[j := m.jobs[j].(status := JQueued, updated := m.now)])
  {
    hide Unchecked, AnyInvalid, QueuedDocs, Rejected, AllQueued;
    RejectedShape(m, j);
    AllQueuedRows(m, j);
  }

  /** A chunk is accepted, or touches no row. */
  lemma CheckShape(s: State, t: Token, found: map<DocId, Check>)
    ensures var r, op := CommitCheck(s, t, found), CommitCheckOp(t, found);
            (r.docs == s.docs && r.jobs == s.jobs && r.expired == s.expired && r.outbox == s.outbox && r.dispatches == s.dispatches) ||
            (HoldsCheck(s, t) && var j, g := s.verifiers[t].job, s.verifiers[t].generation;
             Accepted(op, s, j) &&
             r == Conclude(s.(docs := CheckedDocs(s.docs, j, g, found), verifiers := FinishCheck(s, t)), j))
  {
    hide CheckedDocs, Conclude;
  }

  lemma CheckKept(s: State, t: Token, found: map<DocId, Check>)
    ensures var r := CommitCheck(s, t, found);
            SameFiles(s.docs, r.docs) && DocsKept(CommitCheckOp(t, found), s, r)
  {
    hide CheckedDocs, QueuedDocs, Conclude, CommitCheck, Accepted, Unwritten;
    forall d | d in s.docs ensures Unwritten(s.docs[d], s.docs[d], s.now) { NothingWritten(s.docs[d], s.now); }
    CheckShape(s, t, found);
    if CommitCheck(s, t, found).docs != s.docs {
      var j, g := s.verifiers[t].job, s.verifiers[t].generation;
      var m := s.(docs := CheckedDocs(s.docs, j, g, found), verifiers := FinishCheck(s, t));
      CheckedShape(s.docs, j, g, found);
      ConcludeShape(m, j);
      QueuedShape(m.docs, j);
    }
  }

  lemma NothingWritten(x: Doc, now: int)
    ensures Unwritten(x, x, now)
  {
  }

  /** A step leaves a job the documents it has, and writes to them only as an accepted chunk. */
  ghost predicate KeepsDocs(op: Op, s: State, r: State) {
    DocsKept(op, s, r) && forall j :: j in s.jobs && j in r.jobs ==> SameFilesOf(s, r, j)
  }

  lemma SameDocsKeep(op: Op, s: State, r: State)
    requires r.docs == s.docs
    ensures KeepsDocs(op, s, r)
  {
    hide Accepted;
  }

  lemma SameFilesKeep(op: Op, s: State, r: State)
    requires SameFiles(s.docs, r.docs) && DocsKept(op, s, r)
    ensures KeepsDocs(op, s, r)
  {
    hide DocsKept;
  }

  lemma StepKeeps(op: Op, s: State)
    requires Inv(s)
    ensures KeepsDocs(op, s, Apply(op, s))
  {
    hide Inv, Apply, KeepsDocs, DocsKept, SameFiles;
    var r := Apply(op, s);
    if IdleOp(op) {
      IdleLeaves(op, s);
      SameDocsKeep(op, s, r);
    } else if BatchOp(op) {
      BatchLeaves(op, s);
      SameDocsKeep(op, s, r);
    } else if op.CreateOp? || op.DeleteRowsOp? {
      RowsStepKeeps(op, s);
    } else {
      WritingStepKeeps(op, s);
      SameFilesKeep(op, s, r);
    }
  }

  lemma WritingStepKeeps(op: Op, s: State)
    requires Inv(s) && !IdleOp(op) && !BatchOp(op) && !op.CreateOp? && !op.DeleteRowsOp?
    ensures SameFiles(s.docs, Apply(op, s).docs) && DocsKept(op, s, Apply(op, s))
  {
    hide Inv, Apply, DocsKept, SameFiles;
    if op.ClaimDocOp? || op.HeartbeatOp? {
      LeaseKept(op, s);
    } else if op.CommitOutboxOp? {
      EnqueuedKept(op, s);
    } else if op.CommitResultOp? || op.FailOp? {
      OutcomeKept(op, s);
    } else {
      WritingOps(op, s);
      if op.RecoverJobOp? { RecoveredDocsKept(op, s, op.job); } else { CheckKept(s, op.token, op.found); }
    }
  }

  lemma RecoveredDocsKept(op: Op, s: State, j: JobId)
    ensures SameFiles(s.docs, RecoverJob(s, j).docs) && DocsKept(op, s, RecoverJob(s, j))
  {
    hide Unwritten, RecoverJob, Accepted;
    RecoveredKept(s, j);
  }

  lemma RowsStepKeeps(op: Op, s: State)
    requires Inv(s) && (op.CreateOp? || op.DeleteRowsOp?)
    ensures KeepsDocs(op, s, Apply(op, s))
  {
    hide Inv, Create, DeleteRows, Apply, Accepted, SameFilesOf, Unwritten;
    forall d | d in s.docs ensures Unwritten(s.docs[d], s.docs[d], s.now) { NothingWritten(s.docs[d], s.now); }
    WritingOps(op, s);
    match op
    case CreateOp(o, k, h, j, ds) => CreatedKept(s, o, k, h, j, ds);
    case DeleteRowsOp(i) => RowsKept(s, i);
  }

  lemma WritingOps(op: Op, s: State)
    ensures match op
            case RecoverJobOp(j) => Apply(op, s) == RecoverJob(s, j)
            case CreateOp(o, k, h, j, ds) => Apply(op, s) == Create(s, o, k, h, j, ds)
            case DeleteRowsOp(i) => Apply(op, s) == DeleteRows(s, i)
            case CommitCheckOp(t, found) => Apply(op, s) == CommitCheck(s, t, found)
            case CommitOutboxOp(i) => Apply(op, s) == CommitOutbox(s, i)
            case HeartbeatOp(t) => Apply(op, s) == Heartbeat(s, t)
            case _ => true
  {
    hide Create, Submit, Delete, ClaimCheck, PickDocs, CommitCheck, EndCheck, ClaimDoc, Heartbeat, ReadJob, LockResult,
         RecordResult, UploadResult, CommitResult, Fail, ListExpired, RecoverJob, Enqueue, ReadOutbox, CommitOutbox,
         ExpireUploads, ListDeleting, StartSweep, SweepBlob, DeleteRows, ListOrphan, CheckOrphan, SweepOrphan, DeleteOrphan,
         Leaves;
  }

  // ---------------------------------------------------------------- jobs, step by step

  /** Verification ends by an accepted chunk or by deletion, and begins with a new generation. */
  predicate JobKept(op: Op, s: State, a: Job, b: Job, j: JobId) {
    (a.status.JVerifying? && !b.status.JVerifying? && !b.status.JDeleting? ==> Accepted(op, s, j)) &&
    (!a.status.JVerifying? && b.status.JVerifying? ==> b.generation > a.generation)
  }

  ghost predicate JobsKept(op: Op, s: State, r: State) {
    forall j :: j in s.jobs && j in r.jobs ==> JobKept(op, s, s.jobs[j], r.jobs[j], j)
  }

  lemma SubmitJobs(op: Op, s: State, j: JobId)
    ensures JobsKept(op, s, Submit(s, j))
  {
    hide Accepted;
  }

  lemma DeleteJobs(op: Op, s: State, j: JobId)
    ensures JobsKept(op, s, Delete(s, j))
  {
    hide Accepted, DocsOf;
  }

  lemma CheckerJobs(op: Op, s: State, j: JobId, t: Token)
    ensures JobsKept(op, s, ClaimCheck(s, j, t)) && JobsKept(op, s, EndCheck(s, t))
  {
    hide Accepted, CanCheck;
  }

  lemma BatchJobs(op: Op, s: State)
    requires op.SubmitOp? || op.DeleteOp? || op.ClaimCheckOp? || op.EndCheckOp? || op.ExpireUploadsOp?
    ensures JobsKept(op, s, Apply(op, s))
  {
    hide Accepted, Submit, Delete, ClaimCheck, EndCheck, JobsKept;
    match op
    case SubmitOp(j) => SubmitJobs(op, s, j);
    case DeleteOp(j) => DeleteJobs(op, s, j);
    case ClaimCheckOp(j, t) => CheckerJobs(op, s, j, t);
    case EndCheckOp(t) => CheckerJobs(op, s, 0, t);
    case ExpireUploadsOp => ExpireJobs(op, s);
  }

  lemma ExpireJobs(op: Op, s: State)
    ensures JobsKept(op, s, ExpireUploads(s))
  {
    hide Accepted;
  }

  lemma RowJobs(op: Op, s: State)
    requires Inv(s) && (op.CreateOp? || op.DeleteRowsOp?)
    ensures JobsKept(op, s, Apply(op, s))
  {
    hide Inv, Create, DeleteRows, Accepted, Apply;
    WritingOps(op, s);
    RowsUsed(s);
    match op
    case CreateOp(o, k, h, j, ds) => CreateShape(s, o, k, h, j, ds);
    case DeleteRowsOp(i) => FewerJobs(s, i);
  }

  lemma FewerJobs(s: State, i: nat)
    ensures forall j :: j in DeleteRows(s, i).jobs ==> j in s.jobs && DeleteRows(s, i).jobs[j] == s.jobs[j]
    ensures DeleteRows(s, i).expired == s.expired
  {
    hide Without;
    if i in s.sweeps { WithoutJobs(s.(sweeps := s.sweeps - {i}), s.sweeps[i].job); }
  }

  lemma RefreshKept(jobs: map<JobId, Job>, docs: map<DocId, Doc>, j: JobId, now: int)
    requires j in jobs && (Settled(jobs[j].status) || jobs[j].status.JDeleting?)
    ensures var jobs2 := Refresh(jobs, docs, j, now);
            forall i :: i in jobs ==>
              i in jobs2 && (jobs2[i] == jobs[i] || (i == j && Settled(jobs[j].status) && Settled(jobs2[i].status)))
  {
    hide Summary, Statuses;
    SummarySettles(Statuses(docs, j));
  }

  lemma WorkKept(op: Op, s: State)
    requires Inv(s) && (op.ClaimDocOp? || op.CommitResultOp? || op.FailOp? || op.RecoverJobOp?)
    ensures JobsKept(op, s, Apply(op, s))
  {
    hide Inv, ClaimDoc, RecoverJob, CommitResult, Fail, Accepted, JobsKept;
    match op
    case CommitResultOp(t) => OutcomeJobs(op, s, t, "", false);
    case FailOp(t, code, retryable) => OutcomeJobs(op, s, t, code, retryable);
    case RecoverJobOp(j) => RecoverJobs(op, s, j);
    case ClaimDocOp(d, t) => ClaimJobs(op, s, d, t);
  }

  lemma OutcomeJobs(op: Op, s: State, t: Token, code: string, retryable: bool)
    requires Inv(s)
    ensures JobsKept(op, s, CommitResult(s, t)) && JobsKept(op, s, Fail(s, t, code, retryable))
  {
    hide Inv, Refresh, Passes, Accepted, JobKept;
    forall j | j in s.jobs ensures JobKept(op, s, s.jobs[j], s.jobs[j], j) { SameJobKept(op, s, j); }
    if Passes(s, t) {
      PassingJob(s, t);
      PassingRow(s, t);
      RefreshedKept(op, s, CommitResult(s, t).docs, s.claims[t].job);
      RefreshedKept(op, s, Fail(s, t, code, retryable).docs, s.claims[t].job);
    }
  }

  lemma SameJobKept(op: Op, s: State, j: JobId)
    requires j in s.jobs
    ensures JobKept(op, s, s.jobs[j], s.jobs[j], j)
  {
  }

  lemma RefreshedKept(op: Op, s: State, docs2: map<DocId, Doc>, j: JobId)
    requires j in s.jobs && Settled(s.jobs[j].status)
    ensures var jobs2 := Refresh(s.jobs, docs2, j, s.now);
            forall i :: i in s.jobs && i in jobs2 ==> JobKept(op, s, s.jobs[i], jobs2[i], i)
  {
    hide Refresh, Accepted;
    RefreshKept(s.jobs, docs2, j, s.now);
  }

  lemma ClaimJobs(op: Op, s: State, d: DocId, t: Token)
    ensures JobsKept(op, s, ClaimDoc(s, d, t))
  {
    hide Accepted;
  }

  lemma RecoverJobs(op: Op, s: State, j: JobId)
    requires Inv(s)
    ensures JobsKept(op, s, RecoverJob(s, j))
  {
    hide Accepted, Refresh, Fenced, Checks, RowsRead, Linked, Distinct, Lives, Agrees;
    if j in s.expired && j in s.jobs { RefreshKept(s.jobs, RecoverJob(s, j).docs, j, s.now); }
  }

  lemma CheckJobs(s: State, t: Token, found: map<DocId, Check>)
    ensures JobsKept(CommitCheckOp(t, found), s, CommitCheck(s, t, found))
  {
    hide CheckedDocs, QueuedDocs, Conclude, CommitCheck, Accepted;
    CheckShape(s, t, found);
    if CommitCheck(s, t, found).jobs != s.jobs {
      var j, g := s.verifiers[t].job, s.verifiers[t].generation;
      ConcludeShape(s.(docs := CheckedDocs(s.docs, j, g, found), verifiers := FinishCheck(s, t)), j);
    }
  }

  lemma SameJobsKept(op: Op, s: State, r: State)
    requires r.jobs == s.jobs
    ensures JobsKept(op, s, r)
  {
    hide Accepted;
  }

  lemma StepKeepsJobs(op: Op, s: State)
    requires Inv(s)
    ensures JobsKept(op, s, Apply(op, s))
  {
    hide Inv, Apply, JobsKept, CommitCheck, CommitOutbox, Heartbeat;
    var r := Apply(op, s);
    if IdleOp(op) {
      IdleLeaves(op, s);
      SameJobsKept(op, s, r);
    } else if op.CommitOutboxOp? {
      WritingOps(op, s);
      CommitOutboxJobs(s, op.id);
      SameJobsKept(op, s, r);
    } else if op.HeartbeatOp? {
      WritingOps(op, s);
      HeartbeatJobs(s, op.token);
      SameJobsKept(op, s, r);
    } else if op.CommitCheckOp? {
      WritingOps(op, s);
      CheckJobs(s, op.token, op.found);
    } else if op.ClaimDocOp? || op.CommitResultOp? || op.FailOp? || op.RecoverJobOp? {
      WorkKept(op, s);
    } else if op.CreateOp? || op.DeleteRowsOp? {
      RowJobs(op, s);
    } else {
      BatchJobs(op, s);
    }
  }
}
