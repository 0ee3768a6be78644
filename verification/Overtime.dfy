/** Why 1200 seconds is the bound, for uploads and for commits alike. */
module Overtime {
  // For every longer delay of an upload or a commit after its complete()'s first lock() a run from nothing
  // breaks conservation.

  import opened Text
  import opened Ledger
  import opened Steps
  import opened Invariants
  import opened Blobs
  import opened Runs

  // ---------------------------------------------------------------- timely parts of runs

  lemma {:induction false} TimelyTwice(a: seq<Op>, b: seq<Op>, s: State, uploads: nat, commits: nat)
    requires TimelyRun(a, s, uploads, commits) && TimelyRun(b, Run(a, s), uploads, commits)
    ensures TimelyRun(a + b, s, uploads, commits)
  {
    hide Apply, Timely;
    if a == [] {
      assert a + b == b;
    } else {
      assert (a + b)[0] == a[0] && (a + b)[1..] == a[1..] + b;
      TimelyTwice(a[1..], b, Apply(a[0], s), uploads, commits);
    }
  }

  predicate Untimed(op: Op) {
    !op.UploadResultOp? && !op.CommitResultOp?
  }

  lemma {:induction false} UntimedRun(ops: seq<Op>, s: State, uploads: nat, commits: nat)
    requires forall op :: op in ops ==> Untimed(op)
    ensures TimelyRun(ops, s, uploads, commits)
  {
    hide Apply;
    if ops != [] {
      assert ops[0] in ops && forall op :: op in ops[1..] ==> op in ops;
      UntimedRun(ops[1..], Apply(ops[0], s), uploads, commits);
    }
  }

  // ---------------------------------------------------------------- a worker that stays alive

  /** n seconds with a heartbeat every hundred. */
  function KeepAlive(t: Token, n: nat): seq<Op> {
    if n < 100 then [Tick(n), HeartbeatOp(t)] else [Tick(100), HeartbeatOp(t)] + KeepAlive(t, n - 100)
  }

  lemma {:induction false} KeepAliveUntimed(t: Token, n: nat)
    ensures forall op :: op in KeepAlive(t, n) ==> Untimed(op)
  {
    if n >= 100 { KeepAliveUntimed(t, n - 100); }
  }

  /** The same state later, the lease just renewed. */
  function Kept(s: State, t: Token, now: int): State
    requires t in s.claims && s.claims[t].doc in s.docs
  {
    s.(now := now, docs := s.docs[s.claims[t].doc := s.docs[s.claims[t].doc].(lease := Some(now + LEASE))])
  }

  lemma Beat(s: State, t: Token, n: nat)
    requires n <= 100
    requires Passes(s, t) && s.docs[s.claims[t].doc].job == s.claims[t].job && s.docs[s.claims[t].doc].lease == Some(s.now + LEASE)
    ensures Run([Tick(n), HeartbeatOp(t)], s) == Kept(s, t, s.now + n) && Passes(Kept(s, t, s.now + n), t)
  {
    RunTwo(Tick(n), HeartbeatOp(t), s);
    var m := s.(now := s.now + n);
    assert Heartbeat(m, t) == Kept(s, t, s.now + n);
  }

  lemma {:induction false} StaysAlive(s: State, t: Token, n: nat)
    requires Passes(s, t) && s.docs[s.claims[t].doc].job == s.claims[t].job && s.docs[s.claims[t].doc].lease == Some(s.now + LEASE)
    ensures Run(KeepAlive(t, n), s) == Kept(s, t, s.now + n) && Passes(Kept(s, t, s.now + n), t)
    decreases n
  {
    hide Apply, Run;
    if n < 100 {
      Beat(s, t, n);
    } else {
      Beat(s, t, 100);
      var m := Kept(s, t, s.now + 100);
      RunTwice([Tick(100), HeartbeatOp(t)], KeepAlive(t, n - 100), s);
      StaysAlive(m, t, n - 100);
      assert Kept(m, t, m.now + (n - 100)) == Kept(s, t, s.now + n);
    }
  }

  // ---------------------------------------------------------------- an overdue commit

  function Begin(t: Token): seq<Op> {
    [ReadJobOp(t), LockResultOp(t)] + [RecordResultOp(t), UploadResultOp(t)]
  }

  function CollectAround(t: Token, i: nat, k: Key): seq<Op> {
    [ListOrphanOp(i, k), CheckOrphanOp(i)] + [CommitResultOp(t), SweepOrphanOp(i)]
  }

  lemma CompleteOps(s: State, t: Token)
    ensures Apply(ReadJobOp(t), s) == ReadJob(s, t) && Apply(LockResultOp(t), s) == LockResult(s, t)
    ensures Apply(RecordResultOp(t), s) == RecordResult(s, t)
  {
    hide Create, Submit, Delete, ClaimCheck, PickDocs, CommitCheck, EndCheck, ClaimDoc, Heartbeat, ReadJob, LockResult,
         RecordResult, UploadResult, CommitResult, Fail, ListExpired, RecoverJob, Enqueue, ReadOutbox, CommitOutbox,
         ExpireUploads, ListDeleting, StartSweep, SweepBlob, DeleteRows, ListOrphan, CheckOrphan, SweepOrphan, DeleteOrphan;
  }

  lemma UploadOps(s: State, t: Token)
    ensures Apply(UploadResultOp(t), s) == UploadResult(s, t) && Apply(CommitResultOp(t), s) == CommitResult(s, t)
    ensures Apply(HeartbeatOp(t), s) == Heartbeat(s, t)
  {
    hide Create, Submit, Delete, ClaimCheck, PickDocs, CommitCheck, EndCheck, ClaimDoc, Heartbeat, ReadJob, LockResult,
         RecordResult, UploadResult, CommitResult, Fail, ListExpired, RecoverJob, Enqueue, ReadOutbox, CommitOutbox,
         ExpireUploads, ListDeleting, StartSweep, SweepBlob, DeleteRows, ListOrphan, CheckOrphan, SweepOrphan, DeleteOrphan;
  }

  lemma CollectOps(s: State, i: nat, k: Key)
    ensures Apply(ListOrphanOp(i, k), s) == ListOrphan(s, i, k) && Apply(CheckOrphanOp(i), s) == CheckOrphan(s, i)
  {
    hide Create, Submit, Delete, ClaimCheck, PickDocs, CommitCheck, EndCheck, ClaimDoc, Heartbeat, ReadJob, LockResult,
         RecordResult, UploadResult, CommitResult, Fail, ListExpired, RecoverJob, Enqueue, ReadOutbox, CommitOutbox,
         ExpireUploads, ListDeleting, StartSweep, SweepBlob, DeleteRows, ListOrphan, CheckOrphan, SweepOrphan, DeleteOrphan;
  }

  lemma SweepOrphanOps(s: State, i: nat)
    ensures Apply(SweepOrphanOp(i), s) == SweepOrphan(s, i)
  {
    hide Create, Submit, Delete, ClaimCheck, PickDocs, CommitCheck, EndCheck, ClaimDoc, Heartbeat, ReadJob, LockResult,
         RecordResult, UploadResult, CommitResult, Fail, ListExpired, RecoverJob, Enqueue, ReadOutbox, CommitOutbox,
         ExpireUploads, ListDeleting, StartSweep, SweepBlob, DeleteRows, ListOrphan, CheckOrphan, SweepOrphan, DeleteOrphan;
  }

  lemma DeleteOps(s: State, j: JobId, n: nat)
    ensures Apply(DeleteOp(j), s) == Delete(s, j) && Apply(Tick(n), s) == s.(now := s.now + n)
    ensures Apply(ListDeletingOp(j), s) == ListDeleting(s, j)
  {
    hide Create, Submit, Delete, ClaimCheck, PickDocs, CommitCheck, EndCheck, ClaimDoc, Heartbeat, ReadJob, LockResult,
         RecordResult, UploadResult, CommitResult, Fail, ListExpired, RecoverJob, Enqueue, ReadOutbox, CommitOutbox,
         ExpireUploads, ListDeleting, StartSweep, SweepBlob, DeleteRows, ListOrphan, CheckOrphan, SweepOrphan, DeleteOrphan;
  }

  lemma SweepOps(s: State, i: nat, j: JobId)
    ensures Apply(StartSweepOp(i, j), s) == StartSweep(s, i, j) && Apply(DeleteRowsOp(i), s) == DeleteRows(s, i)
  {
    hide Create, Submit, Delete, ClaimCheck, PickDocs, CommitCheck, EndCheck, ClaimDoc, Heartbeat, ReadJob, LockResult,
         RecordResult, UploadResult, CommitResult, Fail, ListExpired, RecoverJob, Enqueue, ReadOutbox, CommitOutbox,
         ExpireUploads, ListDeleting, StartSweep, SweepBlob, DeleteRows, ListOrphan, CheckOrphan, SweepOrphan, DeleteOrphan;
  }

  lemma Locks(s: State, t: Token)
    requires Passes(s, t) && t !in s.completes
    ensures ReadJob(s, t) == s.(completes := s.completes[t := Complete(s.now, Opened)])
    ensures LockResult(ReadJob(s, t), t) == s.(completes := s.completes[t := Complete(s.now, Locked)])
  {
    hide Held;
    MapTwice(s.completes, t, Complete(s.now, Opened), Complete(s.now, Locked));
  }

  lemma Records(s: State, t: Token)
    requires InPhase(s, t) && s.completes[t].phase.Locked? && KeyOf(s, t) !in s.orphans
    ensures RecordResult(s, t) == s.(completes := s.completes[t := Complete(s.completes[t].lockAt, Recorded(s.now))],
                                     orphans := s.orphans[KeyOf(s, t) := s.now])
  {
  }

  lemma Uploads(s: State, t: Token)
    requires InPhase(s, t) && s.completes[t].phase.Recorded?
    ensures UploadResult(s, t) == s.(completes := s.completes[t := Complete(s.completes[t].lockAt, Uploaded(s.completes[t].phase.at))],
                                     blobs := s.blobs + {KeyOf(s, t)})
  {
  }

  lemma Renews(s: State, t: Token)
    requires Passes(s, t) && s.docs[s.claims[t].doc].job == s.claims[t].job
    ensures Heartbeat(s, t) == Kept(s, t, s.now) && Passes(Kept(s, t, s.now), t)
  {
  }

  lemma PassesStill(s: State, r: State, t: Token)
    requires Passes(s, t) && r.claims == s.claims && r.jobs == s.jobs && r.docs == s.docs && r.now == s.now
    ensures Passes(r, t)
  {
  }

  lemma MapTwice<K, V>(m: map<K, V>, k: K, v: V, w: V)
    ensures m[k := v][k := w] == m[k := w]
  {
  }

  /** Locked, recorded and uploaded. */
  function UploadedNow(s: State, t: Token): State
    requires t in s.claims
  {
    s.(completes := s.completes[t := Complete(s.now, Uploaded(s.now))], orphans := s.orphans[KeyOf(s, t) := s.now],
       blobs := s.blobs + {KeyOf(s, t)})
  }

  lemma UploadedSteps(s: State, t: Token)
    requires Passes(s, t) && t in s.claims && t !in s.completes && KeyOf(s, t) !in s.orphans
    ensures var m := RecordResult(LockResult(ReadJob(s, t), t), t);
            UploadResult(m, t) == UploadedNow(s, t) && Within(m, t, 0)
  {
    hide Passes, ReadJob, LockResult, RecordResult, UploadResult;
    Locks(s, t);
    Records(LockResult(ReadJob(s, t), t), t);
    Uploads(RecordResult(LockResult(ReadJob(s, t), t), t), t);
    MapTwice(s.completes, t, Complete(s.now, Locked), Complete(s.now, Recorded(s.now)));
    MapTwice(s.completes, t, Complete(s.now, Recorded(s.now)), Complete(s.now, Uploaded(s.now)));
  }

  /** Uploaded in the second it began. */
  lemma Begun(s: State, t: Token, uploads: nat, commits: nat)
    requires Passes(s, t) && t in s.claims && t !in s.completes && KeyOf(s, t) !in s.orphans
    ensures Run(Begin(t), s) == UploadedNow(s, t) && Passes(UploadedNow(s, t), t) && TimelyRun(Begin(t), s, uploads, commits)
  {
    hide Run, Apply, Passes, ReadJob, LockResult, RecordResult, UploadResult, TimelyRun, UploadedNow, KeyOf;
    UploadedSteps(s, t);
    assert Passes(UploadedNow(s, t), t) by { UploadedPasses(s, t); }
    LockRuns(s, t);
    var a := LockResult(ReadJob(s, t), t);
    RunTwice([ReadJobOp(t), LockResultOp(t)], [RecordResultOp(t), UploadResultOp(t)], s);
    RunTwo(RecordResultOp(t), UploadResultOp(t), a);
    CompleteOps(a, t);
    UploadOps(RecordResult(a, t), t);
    UntimedRun([ReadJobOp(t), LockResultOp(t)], s, uploads, commits);
    TimelyPair(RecordResultOp(t), UploadResultOp(t), a, uploads, commits);
    TimelyTwice([ReadJobOp(t), LockResultOp(t)], [RecordResultOp(t), UploadResultOp(t)], s, uploads, commits);
  }

  lemma UploadedPasses(s: State, t: Token)
    requires Passes(s, t) && t in s.claims
    ensures Passes(UploadedNow(s, t), t)
  {
    hide Passes;
    PassesStill(s, UploadedNow(s, t), t);
  }

  lemma LockRuns(s: State, t: Token)
    ensures Run([ReadJobOp(t), LockResultOp(t)], s) == LockResult(ReadJob(s, t), t)
  {
    hide Run, Apply, ReadJob, LockResult;
    RunTwo(ReadJobOp(t), LockResultOp(t), s);
    CompleteOps(s, t);
    CompleteOps(ReadJob(s, t), t);
  }

  lemma TimelyPair(a: Op, b: Op, s: State, uploads: nat, commits: nat)
    requires Timely(a, s, uploads, commits) && Timely(b, Apply(a, s), uploads, commits)
    ensures TimelyRun([a, b], s, uploads, commits)
  {
    hide Apply, Timely;
    TimelyOne(b, Apply(a, s), uploads, commits);
    assert [a, b][1..] == [b];
  }

  lemma Claimed(s: State, t: Token)
    requires Passes(s, t)
    ensures t in s.claims && s.claims[t].doc in s.docs && s.claims[t].job in s.jobs
  {
  }

  lemma Lists(s: State, i: nat, k: Key)
    requires k in s.orphans && s.orphans[k] < s.now - GRACE && i !in s.collections && !Referenced(s.docs, k)
    ensures CheckOrphan(ListOrphan(s, i, k), i) == s.(collections := s.collections[i := Collection(k, Condemned)])
  {
    hide Referenced;
    MapTwice(s.collections, i, Collection(k, Listed), Collection(k, Condemned));
  }

  lemma Commits(s: State, t: Token)
    requires Passes(s, t) && InPhase(s, t) && s.completes[t].phase.Uploaded? && s.docs[s.claims[t].doc].job == s.claims[t].job
    ensures var r, d := CommitResult(s, t), s.claims[t].doc;
            r.docs == s.docs[d := SucceededDoc(s.docs[d], KeyOf(s, t))] && r.collections == s.collections && r.blobs == s.blobs &&
            Live(r.jobs, s.claims[t].job)
  {
    var r, d := CommitResult(s, t), s.claims[t].doc;
    RefreshLive(s.jobs, s.docs[d := SucceededDoc(s.docs[d], KeyOf(s, t))], s.claims[t].job, s.now);
    hide Refresh, Held;
  }

  /** The commit falls between cleanup's look at the rows and its delete. */
  lemma Collected(s: State, t: Token, i: nat, uploads: nat, commits: nat)
    requires Passes(s, t) && s.docs[s.claims[t].doc].job == s.claims[t].job && InPhase(s, t) && s.completes[t].phase.Uploaded?
    requires var k := KeyOf(s, t); k in s.orphans && s.orphans[k] < s.now - GRACE && i !in s.collections && !Referenced(s.docs, k)
    requires Within(s, t, commits)
    ensures LostResult(Run(CollectAround(t, i, KeyOf(s, t)), s), s.claims[t].doc)
    ensures TimelyRun(CollectAround(t, i, KeyOf(s, t)), s, uploads, commits)
  {
    hide Run, Apply, Passes, Referenced, ListOrphan, CheckOrphan, CommitResult, Live, TimelyRun;
    var k, d := KeyOf(s, t), s.claims[t].doc;
    Claimed(s, t);
    RunTwice([ListOrphanOp(i, k), CheckOrphanOp(i)], [CommitResultOp(t), SweepOrphanOp(i)], s);
    RunTwo(ListOrphanOp(i, k), CheckOrphanOp(i), s);
    Lists(s, i, k);
    var b := s.(collections := s.collections[i := Collection(k, Condemned)]);
    RunTwo(CommitResultOp(t), SweepOrphanOp(i), b);
    CollectOps(s, i, k);
    CollectOps(ListOrphan(s, i, k), i, k);
    UploadOps(b, t);
    SweepOrphanOps(CommitResult(b, t), i);
    PassesStill(s, b, t);
    Commits(b, t);
    UntimedRun([ListOrphanOp(i, k), CheckOrphanOp(i)], s, uploads, commits);
    TimelyPair(CommitResultOp(t), SweepOrphanOp(i), b, uploads, commits);
    TimelyTwice([ListOrphanOp(i, k), CheckOrphanOp(i)], [CommitResultOp(t), SweepOrphanOp(i)], s, uploads, commits);
  }

  /** A SUCCEEDED document of a live job without its blob. */
  predicate LostResult(s: State, d: DocId) {
    d in s.docs && s.docs[d].status.Succeeded? && Live(s.jobs, s.docs[d].job) &&
    s.docs[d].resultKey.Some? && s.docs[d].resultKey.value !in s.blobs
  }

  lemma RefreshLive(jobs: map<JobId, Job>, docs: map<DocId, Doc>, j: JobId, now: int)
    requires Live(jobs, j)
    ensures Live(Refresh(jobs, docs, j, now), j)
  {
  }

  function LateCommit(t: Token, i: nat, k: Key, n: nat): seq<Op> {
    (Begin(t) + [HeartbeatOp(t)]) + (KeepAlive(t, n) + CollectAround(t, i, k))
  }

  /** A worker that keeps its lease but commits n seconds after its lock(), n beyond 1200, can lose its
      result: the document is SUCCEEDED, its job alive, and its blob collected as an orphan. */
  lemma LateCommitLosesResult(s: State, t: Token, i: nat, n: nat)
    requires Inv(s) && Passes(s, t) && t !in s.completes && i !in s.collections && n > GRACE
    requires KeyOf(s, t) !in s.orphans && !Referenced(s.docs, KeyOf(s, t))
    ensures LostResult(Run(LateCommit(t, i, KeyOf(s, t), n), s), s.claims[t].doc)
    ensures TimelyRun(LateCommit(t, i, KeyOf(s, t), n), s, 0, n)
  {
    hide Rows, Checks, RowsRead, Tokens, Results, OneWinner, Run, Begin, CollectAround, KeepAlive, Passes, Referenced, LostResult, TimelyRun;
    Claimed(s, t);
    ClaimRow(s, t);
    var k, d := KeyOf(s, t), s.claims[t].doc;
    Uploading(s, t, n);
    var m := Kept(UploadedNow(s, t), t, s.now);
    StaysAlive(m, t, n);
    var late := Kept(m, t, m.now + n);
    SameReferences(s.docs, late.docs, d, k);
    Collected(late, t, i, 0, n);
    RunTwice(KeepAlive(t, n), CollectAround(t, i, k), m);
    RunTwice(Begin(t) + [HeartbeatOp(t)], KeepAlive(t, n) + CollectAround(t, i, k), s);
    KeepAliveUntimed(t, n);
    UntimedRun(KeepAlive(t, n), m, 0, n);
    TimelyTwice(KeepAlive(t, n), CollectAround(t, i, k), m, 0, n);
    TimelyTwice(Begin(t) + [HeartbeatOp(t)], KeepAlive(t, n) + CollectAround(t, i, k), s, 0, n);
  }

  /** Uploaded, and the lease just renewed. */
  lemma Uploading(s: State, t: Token, n: nat)
    requires Passes(s, t) && t in s.claims && s.claims[t].doc in s.docs && s.docs[s.claims[t].doc].job == s.claims[t].job
    requires t !in s.completes && KeyOf(s, t) !in s.orphans
    ensures var m := Kept(UploadedNow(s, t), t, s.now);
            Run(Begin(t) + [HeartbeatOp(t)], s) == m && Passes(m, t) && TimelyRun(Begin(t) + [HeartbeatOp(t)], s, 0, n)
  {
    hide Run, Begin, Passes, Apply, Heartbeat, TimelyRun;
    Begun(s, t, 0, n);
    RunTwice(Begin(t), [HeartbeatOp(t)], s);
    RunOne(HeartbeatOp(t), UploadedNow(s, t));
    UploadOps(UploadedNow(s, t), t);
    Renews(UploadedNow(s, t), t);
    UntimedRun([HeartbeatOp(t)], UploadedNow(s, t), 0, n);
    TimelyTwice(Begin(t), [HeartbeatOp(t)], s, 0, n);
  }

  lemma ClaimRow(s: State, t: Token)
    requires Claims(s.claims, s.docs, s.usedDocs) && Passes(s, t)
    ensures s.claims[t].doc in s.docs && s.docs[s.claims[t].doc].job == s.claims[t].job
  {
  }

  lemma SameReferences(docs: map<DocId, Doc>, docs2: map<DocId, Doc>, d: DocId, k: Key)
    requires d in docs && docs2.Keys == docs.Keys && docs2[d].resultKey == docs[d].resultKey
    requires forall e :: e in docs && e != d ==> docs2[e] == docs[e]
    ensures Referenced(docs2, k) == Referenced(docs, k)
  {
  }

  // ---------------------------------------------------------------- an overdue upload

  function LockThenDelete(t: Token, j: JobId, n: nat): seq<Op> {
    [ReadJobOp(t), LockResultOp(t)] + [DeleteOp(j), Tick(n)]
  }

  function SweepThenUpload(t: Token, j: JobId, i: nat): seq<Op> {
    [ListDeletingOp(j), StartSweepOp(i, j)] + ([DeleteRowsOp(i), RecordResultOp(t)] + [UploadResultOp(t)])
  }

  lemma Deletes(s: State, j: JobId)
    requires j in s.jobs && !s.jobs[j].status.JDeleting?
    ensures var r := Delete(s, j);
            r == s.(jobs := r.jobs, outbox := r.outbox) && j in r.jobs && r.jobs[j].status.JDeleting? && r.jobs[j].updated == s.now
  {
    hide DocsOf;
  }

  lemma Alive(s: State, t: Token)
    requires Passes(s, t)
    ensures t in s.claims && s.claims[t].job in s.jobs && !s.jobs[s.claims[t].job].status.JDeleting?
  {
  }

  /** Locked, and its job deleted n seconds ago. */
  ghost predicate LeftBehind(s: State, r: State, t: Token, n: nat)
    requires t in s.claims
  {
    var j := s.claims[t].job;
    r.now == s.now + n && r.completes == s.completes[t := Complete(s.now, Locked)] && r.claims == s.claims && j in r.jobs &&
    r.jobs[j].status.JDeleting? && r.jobs[j].updated == s.now && r.sweeps == s.sweeps && r.blobs == s.blobs && r.orphans == s.orphans
  }

  lemma Deleted(s: State, t: Token, n: nat, uploads: nat, commits: nat)
    requires Passes(s, t) && t in s.claims && t !in s.completes
    ensures LeftBehind(s, Run(LockThenDelete(t, s.claims[t].job, n), s), t, n)
    ensures TimelyRun(LockThenDelete(t, s.claims[t].job, n), s, uploads, commits)
  {
    hide Run, Apply, Passes, ReadJob, LockResult, Delete, TimelyRun;
    Alive(s, t);
    var j := s.claims[t].job;
    RunTwice([ReadJobOp(t), LockResultOp(t)], [DeleteOp(j), Tick(n)], s);
    LockRuns(s, t);
    Locks(s, t);
    var a := LockResult(ReadJob(s, t), t);
    RunTwo(DeleteOp(j), Tick(n), a);
    DeleteOps(a, j, 0);
    DeleteOps(Delete(a, j), j, n);
    Deletes(a, j);
    UntimedRun(LockThenDelete(t, j, n), s, uploads, commits);
  }

  /** An empty sweep, and the rows are gone. */
  lemma Empties(s: State, i: nat, j: JobId)
    requires j in s.jobs && s.jobs[j].status.JDeleting? && s.jobs[j].updated < s.now - GRACE && BlobsOf(s.blobs, j) == {} && i !in s.sweeps
    ensures var r := DeleteRows(StartSweep(ListDeleting(s, j), i, j), i);
            j !in r.jobs && r.claims == s.claims && r.completes == s.completes && r.orphans == s.orphans && r.blobs == s.blobs && r.now == s.now
  {
    hide BlobsOf, DocsOf;
    var a := s.(doomed := s.doomed + {j}, sweeps := s.sweeps[i := Sweep(j, {})]);
    assert StartSweep(ListDeleting(s, j), i, j) == a;
  }

  /** A blob of a job whose rows are gone. */
  predicate LeftoverBlob(s: State, k: Key) {
    k in s.blobs && k.job !in s.jobs
  }

  lemma UploadedLate(s: State, t: Token, i: nat, uploads: nat, commits: nat)
    requires InPhase(s, t) && s.completes[t].phase.Locked? && KeyOf(s, t) !in s.orphans && i !in s.sweeps && Within(s, t, uploads)
    requires var j := s.claims[t].job;
             j in s.jobs && s.jobs[j].status.JDeleting? && s.jobs[j].updated < s.now - GRACE && BlobsOf(s.blobs, j) == {}
    ensures LeftoverBlob(Run(SweepThenUpload(t, s.claims[t].job, i), s), KeyOf(s, t))
    ensures TimelyRun(SweepThenUpload(t, s.claims[t].job, i), s, uploads, commits)
  {
    hide Run, Apply, StartSweep, DeleteRows, ListDeleting, RecordResult, UploadResult, BlobsOf, TimelyRun;
    var j := s.claims[t].job;
    var first, last := [ListDeletingOp(j), StartSweepOp(i, j)], [DeleteRowsOp(i), RecordResultOp(t)];
    RunTwice(first, last + [UploadResultOp(t)], s);
    RunTwo(ListDeletingOp(j), StartSweepOp(i, j), s);
    Empties(s, i, j);
    var a := StartSweep(ListDeleting(s, j), i, j);
    DeleteOps(s, j, 0);
    SweepOps(ListDeleting(s, j), i, j);
    SweepOps(a, i, j);
    RunTwice(last, [UploadResultOp(t)], a);
    RunTwo(DeleteRowsOp(i), RecordResultOp(t), a);
    var b := DeleteRows(a, i);
    CompleteOps(b, t);
    var c := RecordResult(b, t);
    UploadOps(c, t);
    Records(b, t);
    Uploads(c, t);
    RunOne(UploadResultOp(t), c);
    UntimedRun(first, s, uploads, commits);
    UntimedRun(last, a, uploads, commits);
    TimelyOne(UploadResultOp(t), c, uploads, commits);
    TimelyTwice(last, [UploadResultOp(t)], a, uploads, commits);
    TimelyTwice(first, last + [UploadResultOp(t)], s, uploads, commits);
  }

  lemma TimelyOne(a: Op, s: State, uploads: nat, commits: nat)
    requires Timely(a, s, uploads, commits)
    ensures TimelyRun([a], s, uploads, commits)
  {
    hide Apply, Timely;
    assert [a][1..] == [];
  }

  function LateUpload(t: Token, j: JobId, i: nat, n: nat): seq<Op> {
    LockThenDelete(t, j, n) + SweepThenUpload(t, j, i)
  }

  /** A worker that uploads n seconds after its lock(), n beyond 1200, may upload for a job whose rows are
      gone, even if it uploads in the very second it records the orphan. */
  lemma LateUploadLeavesBlob(s: State, t: Token, i: nat, n: nat)
    requires Passes(s, t) && t !in s.completes && i !in s.sweeps && KeyOf(s, t) !in s.orphans && n > GRACE
    requires BlobsOf(s.blobs, s.claims[t].job) == {}
    ensures LeftoverBlob(Run(LateUpload(t, s.claims[t].job, i, n), s), KeyOf(s, t))
    ensures TimelyRun(LateUpload(t, s.claims[t].job, i, n), s, n, 0)
  {
    hide Run, Passes, BlobsOf, LockThenDelete, SweepThenUpload, TimelyRun, LeftoverBlob;
    Alive(s, t);
    var j := s.claims[t].job;
    RunTwice(LockThenDelete(t, j, n), SweepThenUpload(t, j, i), s);
    Deleted(s, t, n, n, 0);
    var m := Run(LockThenDelete(t, j, n), s);
    UploadedLate(m, t, i, n, 0);
    TimelyTwice(LockThenDelete(t, j, n), SweepThenUpload(t, j, i), s, n, 0);
  }

  // ---------------------------------------------------------------- from nothing

  /** One job of one document is created, submitted, verified and claimed. */
  function Opening(): seq<Op> {
    ([CreateOp(0, "key", "hash", 0, {0}), SubmitOp(0)] + [ClaimCheckOp(0, 0), PickDocsOp(0, {0})]) +
    [CommitCheckOp(0, map[0 := Valid(0)]), ClaimDocOp(0, 0)]
  }

  function Created(now: int): State {
    Start(now).(jobs := map[0 := Job(0, "key", "hash", JVerifying, 1, None, None, now, now)],
                docs := map[0 := NewDoc(0, now)], usedJobs := {0}, usedDocs := {0})
  }

  lemma CreatedSteps(now: int)
    ensures Submit(Create(Start(now), 0, "key", "hash", 0, {0}), 0) == Created(now)
  {
    var s := Start(now);
    assert Existing(s.jobs, 0, "key") == {};
    OneNew(s.docs, {0}, now);
  }

  lemma OneNew(docs: map<DocId, Doc>, ds: set<DocId>, now: int)
    requires docs == map[] && ds == {0}
    ensures docs + (map d | d in ds :: NewDoc(0, now)) == map[0 := NewDoc(0, now)]
  {
  }

  function Picking(now: int): State {
    Created(now).(jobs := map[0 := Job(0, "key", "hash", JVerifying, 1, Some(0), Some(now + CHECK_LEASE), now, now)],
                  verifiers := map[0 := Verifier(0, 1, Picked({0}))])
  }

  lemma PickingSteps(now: int)
    ensures PickDocs(ClaimCheck(Created(now), 0, 0), 0, {0}) == Picking(now)
  {
    var s := ClaimCheck(Created(now), 0, 0);
    assert s == Created(now).(jobs := Picking(now).jobs, verifiers := map[0 := Verifier(0, 1, Stage.Claimed)]);
    OneUnchecked(s.docs, now);
    assert s.verifiers[0 := Verifier(0, 1, Picked({0}))] == map[0 := Verifier(0, 1, Picked({0}))];
  }

  lemma OneUnchecked(docs: map<DocId, Doc>, now: int)
    requires docs == map[0 := NewDoc(0, now)]
    ensures Unchecked(docs, 0, 1) == {0}
  {
  }

  function Verified(now: int): State {
    Picking(now).(jobs := map[0 := Job(0, "key", "hash", JQueued, 1, Some(0), Some(now + CHECK_LEASE), now, now)],
                  docs := map[0 := NewDoc(0, now).(version := Some(0), verified := 1, status := Queued)],
                  outbox := map[0 := now], verifiers := map[0 := Verifier(0, 1, Finished)])
  }

  lemma VerifiedStep(now: int)
    ensures CommitCheck(Picking(now), 0, map[0 := Valid(0)]) == Verified(now)
  {
    hide Conclude;
    var s, found := Picking(now), map[0 := Valid(0)];
    assert found.Keys == {0} && HoldsCheck(s, 0);
    var x := NewDoc(0, now).(version := Some(0), verified := 1);
    assert CheckedDocs(s.docs, 0, 1, found) == map[0 := x];
    assert FinishCheck(s, 0) == map[0 := Verifier(0, 1, Finished)];
    var m := s.(docs := map[0 := x], verifiers := map[0 := Verifier(0, 1, Finished)]);
    ConcludedOne(m, x, now);
  }

  lemma ConcludedOne(m: State, x: Doc, now: int)
    requires m == Picking(now).(docs := map[0 := x], verifiers := map[0 := Verifier(0, 1, Finished)])
    requires x == NewDoc(0, now).(version := Some(0), verified := 1)
    ensures Conclude(m, 0) == Verified(now)
  {
    assert Unchecked(m.docs, 0, 1) == {};
    assert !AnyInvalid(m.docs, 0);
    assert QueuedDocs(m.docs, 0) == map[0 := x.(status := Queued)];
    assert DocsOf(m.docs, 0) == {0};
    assert (map d | d in DocsOf(m.docs, 0) :: m.now) + m.outbox == map[0 := now];
  }

  /** A claim that passes lock(), and nothing else begun. */
  ghost predicate Fresh(s: State, t: Token) {
    Passes(s, t) && s.completes == map[] && s.collections == map[] && s.sweeps == map[] && s.orphans == map[] && s.blobs == {} &&
    forall d :: d in s.docs ==> s.docs[d].resultKey.None?
  }

  lemma ClaimedStep(now: int)
    ensures Fresh(ClaimDoc(Verified(now), 0, 0), 0)
  {
    hide BlobsOf;
  }

  lemma OpeningRuns(now: int, uploads: nat, commits: nat)
    ensures Fresh(Run(Opening(), Start(now)), 0) && TimelyRun(Opening(), Start(now), uploads, commits)
  {
    hide Run, Apply, Create, Submit, ClaimCheck, PickDocs, CommitCheck, ClaimDoc, Fresh, TimelyRun, Created, Picking, Verified, Start;
    var s := Start(now);
    var a, b := [CreateOp(0, "key", "hash", 0, {0}), SubmitOp(0)], [ClaimCheckOp(0, 0), PickDocsOp(0, {0})];
    var c := [CommitCheckOp(0, map[0 := Valid(0)]), ClaimDocOp(0, 0)];
    RunTwice(a + b, c, s);
    RunTwice(a, b, s);
    RunTwo(a[0], a[1], s);
    RunTwo(b[0], b[1], Created(now));
    RunTwo(c[0], c[1], Picking(now));
    OpeningOps(s);
    OpeningOps(Create(s, 0, "key", "hash", 0, {0}));
    OpeningOps(Created(now));
    OpeningOps(ClaimCheck(Created(now), 0, 0));
    OpeningOps(Picking(now));
    OpeningOps(Verified(now));
    CreatedSteps(now);
    PickingSteps(now);
    VerifiedStep(now);
    ClaimedStep(now);
    UntimedRun(Opening(), s, uploads, commits);
  }

  lemma OpeningOps(s: State)
    ensures Apply(CreateOp(0, "key", "hash", 0, {0}), s) == Create(s, 0, "key", "hash", 0, {0}) && Apply(SubmitOp(0), s) == Submit(s, 0)
    ensures Apply(ClaimCheckOp(0, 0), s) == ClaimCheck(s, 0, 0) && Apply(PickDocsOp(0, {0}), s) == PickDocs(s, 0, {0})
    ensures Apply(CommitCheckOp(0, map[0 := Valid(0)]), s) == CommitCheck(s, 0, map[0 := Valid(0)])
    ensures Apply(ClaimDocOp(0, 0), s) == ClaimDoc(s, 0, 0)
  {
    hide Create, Submit, Delete, ClaimCheck, PickDocs, CommitCheck, EndCheck, ClaimDoc, Heartbeat, ReadJob, LockResult,
         RecordResult, UploadResult, CommitResult, Fail, ListExpired, RecoverJob, Enqueue, ReadOutbox, CommitOutbox,
         ExpireUploads, ListDeleting, StartSweep, SweepBlob, DeleteRows, ListOrphan, CheckOrphan, SweepOrphan, DeleteOrphan;
  }

  /** Whatever second beyond 1200 one commit falls in, all uploads being immediate: there is a run from
      nothing at whose end a SUCCEEDED document of a live job has lost its blob. */
  lemma LateCommitRun(now: int, n: nat) returns (ops: seq<Op>, d: DocId)
    requires n > 1200
    ensures TimelyRun(ops, Start(now), 0, n) && LostResult(Run(ops, Start(now)), d)
  {
    hide Run, Inv, Passes, LateCommit, Opening, LostResult, TimelyRun, Start;
    OpeningRuns(now, 0, n);
    StartInv(now);
    RunKeepsInv(Opening(), Start(now));
    var s := Run(Opening(), Start(now));
    Claimed(s, 0);
    LateCommitLosesResult(s, 0, 0, n);
    ops, d := Opening() + LateCommit(0, 0, KeyOf(s, 0), n), s.claims[0].doc;
    RunTwice(Opening(), LateCommit(0, 0, KeyOf(s, 0), n), Start(now));
    TimelyTwice(Opening(), LateCommit(0, 0, KeyOf(s, 0), n), Start(now), 0, n);
  }

  /** Whatever second beyond 1200 one upload falls in, there is a run from nothing at whose end a blob is
      left of a job whose rows are gone. */
  lemma LateUploadRun(now: int, n: nat) returns (ops: seq<Op>, k: Key)
    requires n > 1200
    ensures TimelyRun(ops, Start(now), n, 0) && LeftoverBlob(Run(ops, Start(now)), k)
  {
    hide Run, Passes, LateUpload, Opening, LeftoverBlob, TimelyRun, Start;
    OpeningRuns(now, n, 0);
    var s := Run(Opening(), Start(now));
    Alive(s, 0);
    LateUploadLeavesBlob(s, 0, 0, n);
    var late := LateUpload(0, s.claims[0].job, 0, n);
    ops, k := Opening() + late, KeyOf(s, 0);
    RunTwice(Opening(), late, Start(now));
    TimelyTwice(Opening(), late, Start(now), n, 0);
  }
}
