/** Due times along a run: once fail() has put a document off, nothing makes it due sooner. */
module Schedules {
  import opened Text
  import opened Ledger
  import opened Steps
  import opened Invariants
  import opened BatchSteps
  import opened CheckSteps
  import opened Progress
  import opened Runs
  import opened Writes

  // ---------------------------------------------------------------- the outbox, step by step

  ghost predicate SameQueue(s: State, r: State) {
    r.outbox == s.outbox && r.dispatches == s.dispatches
  }

  lemma SameQueueKept(s: State, r: State)
    requires SameQueue(s, r)
    ensures QueueKept(s, r)
  {
  }

  lemma RowsQueue(s: State, jobs: map<JobId, Job>, docs: map<DocId, Doc>, usedJobs: set<JobId>, usedDocs: set<DocId>)
    ensures SameQueue(s, s.(jobs := jobs, docs := docs, usedJobs := usedJobs, usedDocs := usedDocs))
  {
  }

  lemma CreateQueue(s: State, owner: nat, key: string, hash: string, j: JobId, ds: set<DocId>)
    ensures SameQueue(s, Create(s, owner, key, hash, j, ds))
  {
    hide Existing, NewDoc, NewJob, SameQueue;
    RowsQueue(s, s.jobs, s.docs, s.usedJobs, s.usedDocs);
    RowsQueue(s, s.jobs[j := NewJob(owner, key, hash, s.now)], s.docs + (map d | d in ds :: NewDoc(j, s.now)),
              s.usedJobs + {j}, s.usedDocs + ds);
  }

  lemma ClaimQueue(s: State, d: DocId, t: Token)
    ensures SameQueue(s, ClaimDoc(s, d, t))
  {
    hide Claimable;
  }

  lemma HeartbeatQueue(s: State, t: Token)
    ensures SameQueue(s, Heartbeat(s, t))
  {
    hide Held;
  }

  lemma CommitResultQueue(s: State, t: Token)
    ensures SameQueue(s, CommitResult(s, t))
  {
    hide Passes, Refresh;
  }

  lemma RecoverQueue(s: State, j: JobId)
    ensures SameQueue(s, RecoverJob(s, j))
  {
    hide Refresh, RecoveredDocs;
  }

  lemma FailQueue(s: State, t: Token, code: string, retryable: bool)
    ensures QueueKept(s, Fail(s, t, code, retryable))
  {
    hide Refresh, Passes;
    if Passes(s, t) { PassingRow(s, t); }
  }

  lemma WithoutQueue(s: State, j: JobId)
    ensures QueueKept(s, Without(s, j))
  {
    hide DocsOf;
    WithoutShape(s, j);
  }

  lemma SweptQueue(s: State, sweeps: map<nat, Sweep>)
    ensures SameQueue(s, s.(sweeps := sweeps)) && s.(sweeps := sweeps).docs == s.docs
  {
  }

  lemma DeleteRowsQueue(s: State, i: nat)
    ensures QueueKept(s, DeleteRows(s, i))
  {
    hide Without;
    if i in s.sweeps {
      SweptQueue(s, s.sweeps - {i});
      WithoutQueue(s.(sweeps := s.sweeps - {i}), s.sweeps[i].job);
    }
  }

  lemma RejectedQueue(m: State, j: JobId)
    requires j in m.jobs
    ensures SameQueue(m, Rejected(m, j))
  {
  }

  lemma AllQueuedQueue(m: State, j: JobId)
    requires j in m.jobs
    ensures var r := AllQueued(m, j);
            r.dispatches == m.dispatches && forall d :: d in r.outbox ==> (d in m.outbox && r.outbox[d] == m.outbox[d]) || d in DocsOf(m.docs, j)
  {
    hide QueuedDocs, DocsOf;
  }

  /** Only documents still being verified are newly queued. */
  lemma ConcludeQueue(m: State, j: JobId)
    requires j in m.jobs
    ensures var r := Conclude(m, j);
            r.dispatches == m.dispatches && forall d :: d in r.outbox ==> (d in m.outbox && r.outbox[d] == m.outbox[d]) || d in DocsOf(m.docs, j)
  {
    hide Unchecked, AnyInvalid, DocsOf, Rejected, AllQueued;
    RejectedQueue(m, j);
    AllQueuedQueue(m, j);
  }

  lemma CheckQueue(s: State, t: Token, found: map<DocId, Check>)
    requires Inv(s)
    ensures QueueKept(s, CommitCheck(s, t, found))
  {
    hide Fenced, Checks, RowsRead, Linked, Distinct, Agrees, ListedJobs, Lives, CheckedDocs, Conclude, CommitCheck, Accepted;
    CheckShape(s, t, found);
    var r := CommitCheck(s, t, found);
    if r.outbox != s.outbox || r.dispatches != s.dispatches {
      var j, g := s.verifiers[t].job, s.verifiers[t].generation;
      var m := s.(docs := CheckedDocs(s.docs, j, g, found), verifiers := FinishCheck(s, t));
      CheckedShape(s.docs, j, g, found);
      ConcludeQueue(m, j);
      forall d | d in DocsOf(m.docs, j) ensures d in s.docs && s.docs[d].status.Uploading? { VerifyingDocs(s, j, d); }
    }
  }

  /** A dispatch takes rows out, and ends its own reading only. */
  lemma DeliveredQueue(s: State, i: nat)
    ensures var r := CommitOutbox(s, i);
            (forall d :: d in r.outbox ==> d in s.outbox && r.outbox[d] == s.outbox[d]) &&
            forall h :: h in s.dispatches && h != i ==> h in r.dispatches && r.dispatches[h] == s.dispatches[h]
  {
    hide Delivered;
  }

  lemma QueueOps(op: Op, s: State)
    ensures match op
            case ClaimDocOp(d, t) => Apply(op, s) == ClaimDoc(s, d, t)
            case CommitResultOp(t) => Apply(op, s) == CommitResult(s, t)
            case FailOp(t, code, retryable) => Apply(op, s) == Fail(s, t, code, retryable)
            case _ => true
  {
    hide Create, Submit, Delete, ClaimCheck, PickDocs, CommitCheck, EndCheck, ClaimDoc, Heartbeat, ReadJob, LockResult,
         RecordResult, UploadResult, CommitResult, Fail, ListExpired, RecoverJob, Enqueue, ReadOutbox, CommitOutbox,
         ExpireUploads, ListDeleting, StartSweep, SweepBlob, DeleteRows, ListOrphan, CheckOrphan, SweepOrphan, DeleteOrphan;
  }

  lemma StepQueue(op: Op, s: State)
    requires Inv(s) && !op.CommitOutboxOp?
    ensures QueueKept(s, Apply(op, s))
  {
    hide Inv, Apply, QueueKept, SameQueue, Create, ClaimDoc, Heartbeat, CommitResult, Fail, RecoverJob, DeleteRows, CommitCheck;
    var r := Apply(op, s);
    if IdleOp(op) {
      IdleLeaves(op, s);
    } else if BatchOp(op) {
      BatchLeaves(op, s);
    } else {
      QueueOps(op, s);
      WritingOps(op, s);
      match op
      case CreateOp(o, k, h, j, ds) => CreateQueue(s, o, k, h, j, ds); SameQueueKept(s, r);
      case ClaimDocOp(d, t) => ClaimQueue(s, d, t); SameQueueKept(s, r);
      case HeartbeatOp(t) => HeartbeatQueue(s, t); SameQueueKept(s, r);
      case CommitResultOp(t) => CommitResultQueue(s, t); SameQueueKept(s, r);
      case RecoverJobOp(j) => RecoverQueue(s, j); SameQueueKept(s, r);
      case FailOp(t, code, retryable) => FailQueue(s, t, code, retryable);
      case DeleteRowsOp(i) => DeleteRowsQueue(s, i);
      case CommitCheckOp(t, found) => CheckQueue(s, t, found);
      case _ =>
    }
  }

  // ---------------------------------------------------------------- a document put off

  /** Nothing will have d due before time at, neither its row in the outbox nor its own. */
  ghost predicate NotBefore(s: State, d: DocId, at: int) {
    d in s.usedDocs && (d in s.outbox ==> d in s.docs && s.outbox[d] >= at) &&
    (d in s.docs ==>
      !s.docs[d].status.Uploading? && s.docs[d].available >= at && (s.docs[d].status.Processing? ==> at <= s.now))
  }

  lemma ScheduleHolds(x: Doc, y: Doc, now: int, at: int)
    requires Scheduled(x, y, now) && x.available >= at && (x.status.Processing? ==> at <= now)
    ensures y.available >= at && (y.status.Processing? ==> at <= now)
  {
  }

  lemma OutboxHasRows(s: State, d: DocId)
    requires Inv(s) && d in s.outbox
    ensures d in s.docs
  {
    hide Fenced, Checks, RowsRead, Distinct, Lives, Agrees, ListedJobs;
  }

  lemma StillUsed(s: State, m: State, d: DocId)
    requires Moves(s, m) && d in s.usedDocs
    ensures d in m.usedDocs && s.now <= m.now && (d in m.docs ==> d in s.docs)
    ensures d in s.docs && d in m.docs && !s.docs[d].status.Uploading? ==> !m.docs[d].status.Uploading?
  {
    hide JobsMove, Measure;
  }

  lemma NotBeingChecked(op: Op, s: State, d: DocId)
    requires Inv(s) && d in s.docs && !s.docs[d].status.Uploading?
    ensures !Accepted(op, s, s.docs[d].job)
  {
    hide Fenced, Checks, RowsRead, Linked, Distinct, Agrees, ListedJobs, Lives;
    if Accepted(op, s, s.docs[d].job) { VerifyingDocs(s, s.docs[d].job, d); }
  }

  lemma NotBeforeStep(op: Op, s: State, d: DocId, at: int)
    requires Inv(s) && NotBefore(s, d, at)
    ensures NotBefore(Apply(op, s), d, at)
  {
    hide Inv, Apply, Moves, Accepted, Scheduled;
    var m := Apply(op, s);
    Step(op, s);
    StillUsed(s, m, d);
    StepKeeps(op, s);
    if d in m.docs {
      NotBeingChecked(op, s, d);
      assert Unwritten(s.docs[d], m.docs[d], s.now);
      ScheduleHolds(s.docs[d], m.docs[d], s.now, at);
    }
    if d in m.outbox {
      OutboxHasRows(m, d);
      if op.CommitOutboxOp? {
        WritingOps(op, s);
        hide CommitOutbox;
        DeliveredQueue(s, op.id);
      } else {
        StepQueue(op, s);
      }
    }
  }

  lemma ReadingStays(op: Op, s: State, i: nat)
    requires Inv(s) && i in s.dispatches && op != CommitOutboxOp(i)
    ensures var m := Apply(op, s); i in m.dispatches && m.dispatches[i] == s.dispatches[i]
  {
    hide Inv, Apply, CommitOutbox;
    if op.CommitOutboxOp? {
      WritingOps(op, s);
      DeliveredQueue(s, op.id);
    } else {
      StepQueue(op, s);
    }
  }

  lemma {:induction false} NotBeforeAlong(ops: seq<Op>, s: State, d: DocId, at: int, i: nat)
    requires Inv(s) && NotBefore(s, d, at) && i in s.dispatches && CommitOutboxOp(i) !in ops
    ensures var m := Run(ops, s);
            Inv(m) && NotBefore(m, d, at) && i in m.dispatches && m.dispatches[i] == s.dispatches[i]
  {
    hide Inv, Apply, NotBefore;
    if ops != [] {
      assert ops[0] in ops && forall op :: op in ops[1..] ==> op in ops;
      Step(ops[0], s);
      NotBeforeStep(ops[0], s, d, at);
      ReadingStays(ops[0], s, i);
      NotBeforeAlong(ops[1..], Apply(ops[0], s), d, at, i);
    }
  }
}
