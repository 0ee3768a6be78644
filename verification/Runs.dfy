/** From single steps to whole runs: every step keeps the whole invariant and moves rows only forward,
    timely runs also keep conservation, and whole operations are runs of steps. */
module Runs {
  import opened Text
  import opened Ledger
  import opened Steps
  import opened Invariants
  import opened Frames
  import opened BatchSteps
  import opened CheckSteps
  import opened LeaseSteps
  import opened DeliverySteps
  import opened Progress
  import opened Blobs
  import opened QuietSteps

  // ---------------------------------------------------------------- one step

  lemma BatchStep(op: Op, s: State)
    requires Inv(s)
    requires op.Tick? || op.CreateOp? || op.SubmitOp? || op.DeleteOp? || op.ExpireUploadsOp? || op.DeleteRowsOp?
    ensures Inv(Apply(op, s)) && Moves(s, Apply(op, s))
  {
    hide Inv, Moves, Create, Submit, Delete, ExpireUploads, DeleteRows;
    match op
    case Tick(n) => TickInv(s, n); Ticked(s, n);
    case CreateOp(o, k, h, j, ds) => CreateInv(s, o, k, h, j, ds); InvRows(s); CreateMoves(s, o, k, h, j, ds);
    case SubmitOp(j) => SubmitInv(s, j); SubmitMoves(s, j);
    case DeleteOp(j) => DeleteInv(s, j); DeleteMoves(s, j);
    case ExpireUploadsOp => ExpireUploadsInv(s); ExpireUploadsMoves(s);
    case DeleteRowsOp(i) => DeleteRowsInv(s, i); DeleteRowsMoves(s, i);
  }

  lemma InvRows(s: State)
    requires Inv(s)
    ensures Rows(s)
  {
    hide Rows, Fenced, Checks, RowsRead;
  }

  lemma Ticked(s: State, n: nat)
    ensures Moves(s, s.(now := s.now + n))
  {
    hide DocsMove, JobsMove;
    NoMoves(s);
  }

  lemma CheckStep(op: Op, s: State)
    requires Inv(s) && (op.ClaimCheckOp? || op.PickDocsOp? || op.CommitCheckOp? || op.EndCheckOp?)
    ensures Inv(Apply(op, s)) && Moves(s, Apply(op, s))
  {
    hide Inv, Moves, ClaimCheck, PickDocs, CommitCheck, EndCheck;
    match op
    case ClaimCheckOp(j, t) => ClaimCheckInv(s, j, t); ClaimCheckMoves(s, j, t);
    case PickDocsOp(t, ds) => PickDocsInv(s, t, ds); PickDocsMoves(s, t, ds);
    case CommitCheckOp(t, found) => CommitCheckInv(s, t, found); InvRows(s); CommitCheckMoves(s, t, found);
    case EndCheckOp(t) => EndCheckInv(s, t); EndCheckMoves(s, t);
  }

  lemma LeaseStep(op: Op, s: State)
    requires Inv(s) && (op.ClaimDocOp? || op.HeartbeatOp? || op.CommitResultOp? || op.FailOp? || op.RecoverJobOp?)
    ensures Inv(Apply(op, s)) && Moves(s, Apply(op, s))
  {
    hide Inv, Moves, ClaimDoc, Heartbeat, CommitResult, Fail, RecoverJob;
    match op
    case ClaimDocOp(d, t) => ClaimDocInv(s, d, t); ClaimDocMoves(s, d, t);
    case HeartbeatOp(t) => HeartbeatInv(s, t); HeartbeatMoves(s, t);
    case CommitResultOp(t) => CommitResultInv(s, t); CommitResultMoves(s, t);
    case FailOp(t, code, retryable) => FailInv(s, t, code, retryable); FailMoves(s, t, code, retryable);
    case RecoverJobOp(j) => RecoverJobInv(s, j); RecoverJobMoves(s, j);
  }

  lemma DeliveryStep(op: Op, s: State)
    requires Inv(s)
    requires op.ReadJobOp? || op.LockResultOp? || op.RecordResultOp? || op.UploadResultOp? || op.ListExpiredOp? || op.EnqueueOp? ||
             op.ReadOutboxOp? || op.CommitOutboxOp?
    ensures Inv(Apply(op, s)) && Moves(s, Apply(op, s))
  {
    hide Inv, Moves, ReadJob, LockResult, RecordResult, UploadResult, ListExpired, Enqueue, ReadOutbox, CommitOutbox;
    match op
    case ReadJobOp(t) => LockInv(s, t); CompleteMoves(s, t);
    case LockResultOp(t) => LockInv(s, t); CompleteMoves(s, t);
    case RecordResultOp(t) => CompleteInv(s, t); CompleteMoves(s, t);
    case UploadResultOp(t) => CompleteInv(s, t); CompleteMoves(s, t);
    case ListExpiredOp(js) => ListExpiredInv(s, js); OutboxMoves(s, 0, {}, js);
    case EnqueueOp => EnqueueInv(s); OutboxMoves(s, 0, {}, {});
    case ReadOutboxOp(i, ds) => ReadOutboxInv(s, i, ds); OutboxMoves(s, i, ds, {});
    case CommitOutboxOp(i) => CommitOutboxInv(s, i); CommitOutboxMoves(s, i);
  }

  lemma CleanedRows(s: State, r: State)
    requires Inv(s)
    requires r == s.(orphans := r.orphans, blobs := r.blobs, doomed := r.doomed, sweeps := r.sweeps, collections := r.collections)
    ensures Inv(r) && Moves(s, r)
  {
    hide Inv, DocsMove, JobsMove;
    SameInv(s, r);
    NoMoves(s);
  }

  lemma SweepingStep(op: Op, s: State)
    requires Inv(s) && (op.ListDeletingOp? || op.StartSweepOp? || op.SweepBlobOp?)
    ensures Inv(Apply(op, s)) && Moves(s, Apply(op, s))
  {
    hide Inv, Moves, BlobsOf;
    match op
    case ListDeletingOp(j) => CleanedRows(s, ListDeleting(s, j));
    case StartSweepOp(i, j) => CleanedRows(s, StartSweep(s, i, j));
    case SweepBlobOp(i, k) => CleanedRows(s, SweepBlob(s, i, k));
  }

  lemma CollectingStep(op: Op, s: State)
    requires Inv(s) && (op.ListOrphanOp? || op.CheckOrphanOp? || op.SweepOrphanOp? || op.DeleteOrphanOp?)
    ensures Inv(Apply(op, s)) && Moves(s, Apply(op, s))
  {
    hide Inv, Moves, Referenced;
    match op
    case ListOrphanOp(i, k) => CleanedRows(s, ListOrphan(s, i, k));
    case CheckOrphanOp(i) => CleanedRows(s, CheckOrphan(s, i));
    case SweepOrphanOp(i) => CleanedRows(s, SweepOrphan(s, i));
    case DeleteOrphanOp(i) => CleanedRows(s, DeleteOrphan(s, i));
  }

  /** Every step keeps the invariant and only moves forward. */
  lemma Step(op: Op, s: State)
    requires Inv(s)
    ensures Inv(Apply(op, s)) && Moves(s, Apply(op, s))
  {
    hide Inv, Moves, Apply;
    if op.ListDeletingOp? || op.StartSweepOp? || op.SweepBlobOp? {
      SweepingStep(op, s);
    } else if op.ListOrphanOp? || op.CheckOrphanOp? || op.SweepOrphanOp? || op.DeleteOrphanOp? {
      CollectingStep(op, s);
    } else if op.Tick? || op.CreateOp? || op.SubmitOp? || op.DeleteOp? || op.ExpireUploadsOp? || op.DeleteRowsOp? {
      BatchStep(op, s);
    } else if op.ClaimCheckOp? || op.PickDocsOp? || op.CommitCheckOp? || op.EndCheckOp? {
      CheckStep(op, s);
    } else if op.ClaimDocOp? || op.HeartbeatOp? || op.CommitResultOp? || op.FailOp? || op.RecoverJobOp? {
      LeaseStep(op, s);
    } else {
      DeliveryStep(op, s);
    }
  }

  // ---------------------------------------------------------------- one step, with blobs

  /** The steps that touch neither a blob nor what tracks it. */
  predicate Ordinary(op: Op) {
    op.CreateOp? || op.SubmitOp? || op.DeleteOp? || op.ExpireUploadsOp? || op.ClaimCheckOp? || op.PickDocsOp? ||
    op.CommitCheckOp? || op.EndCheckOp? || op.ClaimDocOp? || op.HeartbeatOp? || op.FailOp? || op.RecoverJobOp? ||
    op.ListExpiredOp? || op.EnqueueOp? || op.ReadOutboxOp? || op.CommitOutboxOp?
  }

  lemma OrdinaryQuiet(op: Op, s: State)
    requires Rows(s) && Ordinary(op)
    ensures Quiet(s, Apply(op, s))
  {
    hide Linked, Distinct, Lives, Agrees, ListedJobs, Quiet, Create, Submit, Delete, ExpireUploads, ClaimCheck, PickDocs, CommitCheck,
         EndCheck, ClaimDoc, Heartbeat, Fail, RecoverJob, ListExpired, Enqueue, ReadOutbox, CommitOutbox;
    match op
    case CreateOp(o, k, h, j, ds) => CreateQuiet(s, o, k, h, j, ds);
    case SubmitOp(j) => SubmitQuiet(s, j);
    case DeleteOp(j) => DeleteQuiet(s, j);
    case ExpireUploadsOp => ExpireUploadsQuiet(s);
    case ClaimCheckOp(j, t) => ClaimCheckQuiet(s, j, t);
    case PickDocsOp(t, ds) => PickDocsQuiet(s, t, ds);
    case CommitCheckOp(t, found) => CommitCheckQuiet(s, t, found);
    case EndCheckOp(t) => EndCheckQuiet(s, t);
    case ClaimDocOp(d, t) => ClaimDocQuiet(s, d, t);
    case HeartbeatOp(t) => HeartbeatQuiet(s, t);
    case FailOp(t, code, retryable) => FailQuiet(s, t, code, retryable);
    case RecoverJobOp(j) => RecoverJobQuiet(s, j);
    case ListExpiredOp(js) => ListExpiredQuiet(s, js);
    case EnqueueOp => EnqueueQuiet(s);
    case ReadOutboxOp(i, ds) => ReadOutboxQuiet(s, i, ds);
    case CommitOutboxOp(i) => CommitOutboxQuiet(s, i);
  }

  lemma OrdinaryBlobs(op: Op, s: State)
    requires Inv(s) && BlobInv(s) && Ordinary(op)
    ensures BlobInv(Apply(op, s))
  {
    hide Rows, Fenced, Checks, RowsRead, BlobInv, Quiet, Moves, Apply;
    OrdinaryQuiet(op, s);
    Step(op, s);
    QuietBlobs(s, Apply(op, s));
  }

  lemma BlobStep(op: Op, s: State)
    requires Inv(s) && BlobInv(s) && Timely(op, s, GRACE, GRACE) && !Ordinary(op)
    ensures BlobInv(Apply(op, s))
  {
    hide Inv, BlobInv, ReadJob, LockResult, RecordResult, UploadResult, CommitResult, ListDeleting, StartSweep, SweepBlob, DeleteRows,
         ListOrphan, CheckOrphan, SweepOrphan, DeleteOrphan;
    match op
    case Tick(n) => TickBlobs(s, n);
    case ReadJobOp(t) => ReadJobBlobs(s, t);
    case LockResultOp(t) => LockResultBlobs(s, t);
    case RecordResultOp(t) => RecordResultBlobs(s, t);
    case UploadResultOp(t) => UploadResultBlobs(s, t);
    case CommitResultOp(t) => CommitResultBlobs(s, t);
    case ListDeletingOp(j) => JobsUsed(s); ListDeletingBlobs(s, j);
    case StartSweepOp(i, j) => StartSweepBlobs(s, i, j);
    case SweepBlobOp(i, k) => SweepBlobBlobs(s, i, k);
    case DeleteRowsOp(i) => DeleteRowsBlobs(s, i);
    case ListOrphanOp(i, k) => ListOrphanBlobs(s, i, k);
    case CheckOrphanOp(i) => CheckOrphanBlobs(s, i);
    case SweepOrphanOp(i) => SweepOrphanBlobs(s, i);
    case DeleteOrphanOp(i) => DeleteOrphanBlobs(s, i);
    case _ =>
  }

  lemma JobsUsed(s: State)
    requires Inv(s)
    ensures s.jobs.Keys <= s.usedJobs
  {
    hide Fenced, Checks, RowsRead, Distinct, Lives, Agrees, ListedJobs;
  }

  // ---------------------------------------------------------------- whole runs

  lemma {:induction false} RunTwice(a: seq<Op>, b: seq<Op>, s: State)
    ensures Run(a + b, s) == Run(b, Run(a, s))
  {
    hide Apply;
    if a == [] {
      assert a + b == b;
    } else {
      assert (a + b)[0] == a[0] && (a + b)[1..] == a[1..] + b;
      RunTwice(a[1..], b, Apply(a[0], s));
    }
  }

  lemma RunOne(op: Op, s: State)
    ensures Run([op], s) == Apply(op, s)
  {
    hide Apply;
    assert [op][1..] == [];
  }

  lemma RunTwo(a: Op, b: Op, s: State)
    ensures Run([a, b], s) == Apply(b, Apply(a, s))
  {
    hide Apply;
    assert [a, b][1..] == [b];
    RunOne(b, Apply(a, s));
  }

  /** Every upload and every commit of a result happens within its limit. */
  predicate TimelyRun(ops: seq<Op>, s: State, uploads: nat, commits: nat) {
    ops == [] || (Timely(ops[0], s, uploads, commits) && TimelyRun(ops[1..], Apply(ops[0], s), uploads, commits))
  }

  lemma {:induction false} LooserLimits(ops: seq<Op>, s: State, uploads: nat, commits: nat, uploads2: nat, commits2: nat)
    requires TimelyRun(ops, s, uploads, commits) && uploads <= uploads2 && commits <= commits2
    ensures TimelyRun(ops, s, uploads2, commits2)
  {
    hide Apply;
    if ops != [] {
      LooserLimits(ops[1..], Apply(ops[0], s), uploads, commits, uploads2, commits2);
    }
  }

  /** Main result: the invariant holds after every run, whatever crashes, stalls or acts late. */
  lemma {:induction false} RunKeepsInv(ops: seq<Op>, s: State)
    requires Inv(s)
    ensures Inv(Run(ops, s))
  {
    hide Inv, Apply;
    if ops != [] {
      Step(ops[0], s);
      RunKeepsInv(ops[1..], Apply(ops[0], s));
    }
  }

  /** Main result: blobs are conserved and traced after every timely run. */
  lemma {:induction false} RunKeepsBlobs(ops: seq<Op>, s: State)
    requires Inv(s) && BlobInv(s) && TimelyRun(ops, s, GRACE, GRACE)
    ensures Inv(Run(ops, s)) && BlobInv(Run(ops, s))
  {
    hide Inv, BlobInv, Apply, Timely, Moves;
    if ops != [] {
      Step(ops[0], s);
      if Ordinary(ops[0]) { OrdinaryBlobs(ops[0], s); } else { BlobStep(ops[0], s); }
      RunKeepsBlobs(ops[1..], Apply(ops[0], s));
    }
  }
}
