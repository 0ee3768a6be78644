/** What every run keeps. */
module Guarantees {
  // Any number of workers, verifiers and controllers, any interleaving of their steps, any of them
  // stopping or acting late.

  import opened Text
  import opened Ledger
  import opened Steps
  import opened Invariants
  import opened Frames
  import opened CheckSteps
  import opened LeaseSteps
  import opened Progress
  import opened Blobs
  import opened DeliverySteps
  import opened Runs
  import opened Writes
  import opened Schedules
  import BatchSteps
  import Overtime

  /** The state after a run from nothing. */
  function After(ops: seq<Op>, now: int): State {
    Run(ops, Start(now))
  }

  lemma Reachable(ops: seq<Op>, now: int)
    ensures Inv(After(ops, now))
  {
    hide Inv;
    StartInv(now);
    RunKeepsInv(ops, Start(now));
  }

  // ---------------------------------------------------------------- fencing

  lemma NewestPasses(s: State, t: Token, u: Token)
    requires Inv(s) && Passes(s, t) && u in s.claims && u != t && s.claims[u].doc == s.claims[t].doc
    ensures !Passes(s, u) && s.claims[u].attempt < s.claims[t].attempt
    ensures s.claims[t].attempt == s.docs[s.claims[t].doc].attempts && s.claims[t].version == s.docs[s.claims[t].doc].version
  {
    hide Rows, Checks, RowsRead, Results, OneWinner;
    var d := s.claims[t].doc;
    assert TokenFits(d, s.docs[d], s.claims);
    assert ClaimFits(u, s.claims[u], s.docs, s.usedDocs) && ClaimFits(t, s.claims[t], s.docs, s.usedDocs);
  }

  /** Of all claims ever issued for a document at most one passes lock(): the newest, whose attempt
      is the row's and whose version is the verified one. */
  lemma OnlyNewestPasses(ops: seq<Op>, now: int, t: Token, u: Token)
    requires var s := After(ops, now);
             Passes(s, t) && u in s.claims && u != t && s.claims[u].doc == s.claims[t].doc
    ensures var s := After(ops, now);
            !Passes(s, u) && s.claims[u].attempt < s.claims[t].attempt &&
            s.claims[t].attempt == s.docs[s.claims[t].doc].attempts &&
            s.claims[t].version == s.docs[s.claims[t].doc].version
  {
    hide Inv, Passes, Run;
    Reachable(ops, now);
    NewestPasses(After(ops, now), t, u);
  }

  /** At most one complete() of a document ever succeeds. */
  lemma OneComplete(ops: seq<Op>, now: int, t: Token, u: Token)
    requires var s := After(ops, now);
             Won(s.completes, t) && Won(s.completes, u) && t in s.claims && u in s.claims && s.claims[t].doc == s.claims[u].doc
    ensures t == u
  {
    hide Run, Rows, Checks, RowsRead, Claims, Tokens, Results;
    Reachable(ops, now);
  }

  // ---------------------------------------------------------------- attempts

  /** Attempts stay within their status, so claim's guard never strands a waiting document. */
  lemma AttemptsBounded(ops: seq<Op>, now: int, d: DocId)
    requires d in After(ops, now).docs
    ensures var x := After(ops, now).docs[d];
            x.attempts <= 3 &&
            (x.status.Queued? ==> x.attempts == 0) &&
            (x.status.RetryWait? ==> 1 <= x.attempts < 3) &&
            (x.status.Processing? ==> 1 <= x.attempts) &&
            (Waiting(x.status) ==> x.attempts < 3)
  {
    hide Run, Fenced, Checks, RowsRead, Distinct, Agrees, ListedJobs;
    Reachable(ops, now);
    var s := After(ops, now);
    assert Lifecycle(s.docs[d], s.jobs[s.docs[d].job], d in s.outbox);
  }

  // ---------------------------------------------------------------- what a run may do to a row

  /** A document some time later. */
  predicate DocLater(x: Doc, y: Doc, deleting: bool) {
    y.job == x.job &&
    (Terminal(x.status) || deleting ==> y.status == x.status && y.resultKey == x.resultKey) &&
    (deleting ==> y.lease == x.lease) &&
    (!x.status.Uploading? ==>
      y.version == x.version && !y.status.Uploading? &&
      (Measure(y) < Measure(x) || (y.status == x.status && y.attempts == x.attempts)))
  }

  predicate JobLater(a: Job, b: Job) {
    b.owner == a.owner && b.idempotencyKey == a.idempotencyKey && b.manifestHash == a.manifestHash &&
    a.generation <= b.generation && (a.status.JDeleting? ==> b.status.JDeleting?) && (Over(a.status) ==> b.status == a.status || b.status.JDeleting?) &&
    (!Early(a.status) ==> !Early(b.status))
  }

  lemma MovesLater(x: Doc, y: Doc, z: Doc, deleting: bool, deleting2: bool)
    requires DocMoves(x, y, deleting) && DocLater(y, z, deleting2) && (deleting ==> deleting2)
    ensures DocLater(x, z, deleting)
  {
  }

  lemma JobMovesLater(a: Job, b: Job, c: Job, now: int)
    requires JobMoves(a, b, now) && JobLater(b, c)
    ensures JobLater(a, c)
  {
  }

  /** Later states of a state: rows that are still there have moved forward, ids are not reused. */
  ghost predicate Later(s: State, r: State) {
    s.usedDocs <= r.usedDocs && s.usedJobs <= r.usedJobs &&
    (forall d :: d in s.docs && d in r.docs ==> DocLater(s.docs[d], r.docs[d], Deleting(s.jobs, s.docs[d]))) &&
    (forall j :: j in s.jobs && j in r.jobs ==> JobLater(s.jobs[j], r.jobs[j])) &&
    (forall d :: d in s.usedDocs && d in r.docs ==> d in s.docs) &&
    (forall j :: j in s.usedJobs && j in r.jobs ==> j in s.jobs)
  }

  lemma LaterSelf(s: State)
    ensures Later(s, s)
  {
  }

  /** The row's job is where the row is. */
  lemma RowJobs(s: State)
    requires Inv(s)
    ensures s.docs.Keys <= s.usedDocs && s.jobs.Keys <= s.usedJobs && forall d :: d in s.docs ==> s.docs[d].job in s.jobs
  {
    hide Fenced, Checks, RowsRead, Distinct, Lives, Agrees, ListedJobs;
  }

  lemma LaterDocs(s: State, m: State, r: State)
    requires Moves(s, m) && Later(m, r) && s.docs.Keys <= s.usedDocs && s.jobs.Keys <= s.usedJobs
    requires (forall d :: d in s.docs ==> s.docs[d].job in s.jobs) && (forall d :: d in m.docs ==> m.docs[d].job in m.jobs)
    ensures forall d :: d in s.docs && d in r.docs ==> DocLater(s.docs[d], r.docs[d], Deleting(s.jobs, s.docs[d]))
  {
    hide DocLater, DocMoves, JobLater;
    forall d | d in s.docs && d in r.docs ensures DocLater(s.docs[d], r.docs[d], Deleting(s.jobs, s.docs[d])) {
      assert d in m.docs;
      SameJobLater(s, m, d);
      MovesLater(s.docs[d], m.docs[d], r.docs[d], Deleting(s.jobs, s.docs[d]), Deleting(m.jobs, m.docs[d]));
    }
  }

  lemma SameJobLater(s: State, m: State, d: DocId)
    requires Moves(s, m) && d in s.docs && d in m.docs && s.docs[d].job in s.jobs && m.docs[d].job in m.jobs
    ensures Deleting(s.jobs, s.docs[d]) ==> Deleting(m.jobs, m.docs[d])
  {
    hide Measure;
  }

  lemma LaterJobs(s: State, m: State, r: State)
    requires Moves(s, m) && Later(m, r) && s.docs.Keys <= s.usedDocs && s.jobs.Keys <= s.usedJobs
    ensures forall j :: j in s.jobs && j in r.jobs ==> JobLater(s.jobs[j], r.jobs[j])
    ensures (forall d :: d in s.usedDocs && d in r.docs ==> d in s.docs) && (forall j :: j in s.usedJobs && j in r.jobs ==> j in s.jobs)
  {
    hide DocLater, DocMoves, JobLater, JobMoves;
    forall j | j in s.jobs && j in r.jobs ensures JobLater(s.jobs[j], r.jobs[j]) {
      assert j in m.jobs;
      JobMovesLater(s.jobs[j], m.jobs[j], r.jobs[j], s.now);
    }
  }

  lemma {:induction false} RunMovesLater(ops: seq<Op>, s: State)
    requires Inv(s)
    ensures Later(s, Run(ops, s))
  {
    hide Inv, Moves, Apply, DocLater, JobLater;
    if ops == [] {
      LaterSelf(s);
    } else {
      var m := Apply(ops[0], s);
      Step(ops[0], s);
      RunMovesLater(ops[1..], m);
      RowJobs(s);
      RowJobs(m);
      LaterDocs(s, m, Run(ops[1..], m));
      LaterJobs(s, m, Run(ops[1..], m));
      assert s.usedDocs <= m.usedDocs && s.usedJobs <= m.usedJobs by { UsedGrow(s, m); }
    }
  }

  lemma UsedGrow(s: State, m: State)
    requires Moves(s, m)
    ensures s.usedDocs <= m.usedDocs && s.usedJobs <= m.usedJobs
  {
    hide DocsMove, JobsMove;
  }

  /** A SUCCEEDED or FAILED document never changes again; a verified version never changes; while a
      job is DELETING its documents are frozen; a finished job only ever becomes DELETING. */
  lemma ResultsAreFinal(ops: seq<Op>, more: seq<Op>, now: int)
    ensures var s, r := After(ops, now), Run(more, After(ops, now));
            (forall d :: d in s.docs && d in r.docs && Terminal(s.docs[d].status) ==>
              r.docs[d].status == s.docs[d].status && r.docs[d].resultKey == s.docs[d].resultKey) &&
            (forall d :: d in s.docs && d in r.docs && !s.docs[d].status.Uploading? ==> r.docs[d].version == s.docs[d].version) &&
            (forall d :: d in s.docs && d in r.docs && Deleting(s.jobs, s.docs[d]) ==>
              r.docs[d].status == s.docs[d].status && r.docs[d].lease == s.docs[d].lease && r.docs[d].resultKey == s.docs[d].resultKey) &&
            (forall j :: j in s.jobs && j in r.jobs && Over(s.jobs[j].status) ==>
              r.jobs[j].status == s.jobs[j].status || r.jobs[j].status.JDeleting?)
  {
    hide Inv, Run, Measure;
    Reachable(ops, now);
    RunMovesLater(more, After(ops, now));
  }

  /** How often the status of a document changes along a run, once it has been queued. */
  function Changes(ops: seq<Op>, s: State, d: DocId): nat {
    if ops == [] then 0
    else
      var m := Apply(ops[0], s);
      (if d in s.docs && d in m.docs && !s.docs[d].status.Uploading? && m.docs[d].status != s.docs[d].status then 1 else 0) +
      Changes(ops[1..], m, d)
  }

  lemma StepMeasure(s: State, m: State, d: DocId)
    requires Moves(s, m) && d in s.docs && d in m.docs && !s.docs[d].status.Uploading?
    ensures !m.docs[d].status.Uploading?
    ensures Measure(m.docs[d]) + (if m.docs[d].status != s.docs[d].status then 1 else 0) <= Measure(s.docs[d])
  {
    hide JobsMove;
  }

  lemma MeasureFits(s: State, d: DocId)
    requires Inv(s) && d in s.docs
    ensures 0 <= Measure(s.docs[d]) <= 2 * MAX_ATTEMPTS
  {
    hide Fenced, Checks, RowsRead, Distinct, Agrees, ListedJobs, EarlyDoc, LateDoc;
    assert Lifecycle(s.docs[d], s.jobs[s.docs[d].job], d in s.outbox);
  }

  lemma Gone(s: State, m: State, d: DocId)
    requires Moves(s, m) && d in s.usedDocs && d !in s.docs
    ensures d !in m.docs && d in m.usedDocs
  {
    hide DocMoves, JobsMove;
  }

  lemma {:induction false} NoChanges(ops: seq<Op>, s: State, d: DocId)
    requires Inv(s) && d in s.usedDocs && d !in s.docs
    ensures Changes(ops, s, d) == 0
  {
    hide Inv, Moves, Apply;
    if ops != [] {
      Step(ops[0], s);
      Gone(s, Apply(ops[0], s), d);
      NoChanges(ops[1..], Apply(ops[0], s), d);
    }
  }

  lemma {:induction false} ChangesBounded(ops: seq<Op>, s: State, d: DocId)
    requires Inv(s) && d in s.docs && !s.docs[d].status.Uploading?
    ensures Changes(ops, s, d) <= Measure(s.docs[d])
  {
    hide Inv, Moves, Apply, Measure;
    MeasureFits(s, d);
    if ops != [] {
      var m := Apply(ops[0], s);
      Step(ops[0], s);
      RowJobs(s);
      if d in m.docs {
        StepMeasure(s, m, d);
        ChangesBounded(ops[1..], m, d);
      } else {
        assert d in m.usedDocs by { UsedGrow(s, m); }
        NoChanges(ops[1..], m, d);
      }
    }
  }

  /** Work on a document ends: from QUEUED on its status changes at most six times, however long
      the run, whoever retries. */
  lemma AtMostSixChanges(ops: seq<Op>, more: seq<Op>, now: int, d: DocId)
    requires d in After(ops, now).docs && !After(ops, now).docs[d].status.Uploading?
    ensures Changes(more, After(ops, now), d) <= 6
  {
    hide Inv, Run, Changes;
    Reachable(ops, now);
    MeasureFits(After(ops, now), d);
    ChangesBounded(more, After(ops, now), d);
  }

  // ---------------------------------------------------------------- no lost work

  /** Whatever the stream loses, a waiting document of a working job is in the outbox, or is known
      to have been put on the stream. */
  lemma NoLostWork(ops: seq<Op>, now: int, d: DocId)
    requires var s := After(ops, now);
             d in s.docs && Waiting(s.docs[d].status) && s.docs[d].job in s.jobs && Working(s.jobs[s.docs[d].job].status)
    ensures var s := After(ops, now); d in s.outbox || s.docs[d].lastEnqueued.Some?
  {
    hide Run, Fenced, Checks, RowsRead, Distinct, Agrees, ListedJobs, Linked;
    Reachable(ops, now);
    var s := After(ops, now);
    assert Lifecycle(s.docs[d], s.jobs[s.docs[d].job], d in s.outbox);
  }

  lemma EnqueueRequeues(s: State, d: DocId)
    requires d in s.docs && Waiting(s.docs[d].status) && s.docs[d].job in s.jobs && Working(s.jobs[s.docs[d].job].status)
    ensures var r := Enqueue(s);
            d in r.outbox || (r.docs[d].lastEnqueued.Some? && r.docs[d].lastEnqueued.value >= r.now - LEASE)
  {
  }

  /** A run of recover(), its steps and the rest of the world's in any order: the list of jobs first, each of
      them recovered, the outbox last. */
  ghost predicate Recovers(more: seq<Op>, js: set<JobId>) {
    |more| >= 2 && more[0] == ListExpiredOp(js) && more[|more| - 1] == EnqueueOp &&
    forall j :: j in js ==> exists k :: 0 < k < |more| - 1 && more[k] == RecoverJobOp(j)
  }

  lemma ExpiredStep(op: Op, s: State, d: DocId)
    requires Inv(s) && d in s.docs && d in Apply(op, s).docs && Expired(s.docs[d], s.now)
    ensures var m := Apply(op, s); Expired(m.docs[d], m.now) || Measure(m.docs[d]) < Measure(s.docs[d])
  {
    hide Inv, Apply, Moves, Measure;
    Step(op, s);
    StepKeeps(op, s);
    InvRows(s);
    ExpiredJob(s, d);
    assert s.now <= Apply(op, s).now by { ClockRuns(s, Apply(op, s)); }
    MovedMeasure(s, Apply(op, s), d);
  }

  lemma ClockRuns(s: State, m: State)
    requires Moves(s, m)
    ensures s.now <= m.now
  {
    hide DocsMove, JobsMove;
  }

  lemma MovedMeasure(s: State, m: State, d: DocId)
    requires Moves(s, m) && d in s.docs && d in m.docs && !s.docs[d].status.Uploading?
    ensures m.docs[d].status == s.docs[d].status || Measure(m.docs[d]) < Measure(s.docs[d])
  {
    hide JobsMove, Measure;
  }

  lemma StillThere(s: State, op: Op, rest: seq<Op>, d: DocId)
    requires Inv(s) && d in s.docs && d in Run(rest, Apply(op, s)).docs
    ensures Inv(Apply(op, s)) && d in Apply(op, s).docs
  {
    hide Inv, Apply, Moves, DocLater, JobLater;
    Step(op, s);
    RowJobs(s);
    UsedGrow(s, Apply(op, s));
    RunMovesLater(rest, Apply(op, s));
  }

  /** An expired lease stays expired until the document has moved on. */
  lemma {:induction false} ExpiredStays(ops: seq<Op>, s: State, d: DocId)
    requires Inv(s) && d in s.docs && d in Run(ops, s).docs && Expired(s.docs[d], s.now)
    ensures var m := Run(ops, s); Expired(m.docs[d], m.now) || Measure(m.docs[d]) < Measure(s.docs[d])
  {
    hide Inv, Apply, Measure, Later;
    if ops != [] {
      var m := Apply(ops[0], s);
      StillThere(s, ops[0], ops[1..], d);
      ExpiredStep(ops[0], s, d);
      if Expired(m.docs[d], m.now) {
        ExpiredStays(ops[1..], m, d);
        ExpiredMeasure(s.docs[d], m.docs[d], s, m, ops[0], d);
      } else {
        RunMovesLater(ops[1..], m);
        LaterMeasure(s, m, Run(ops[1..], m), ops[0], d);
      }
    }
  }

  lemma ExpiredMeasure(x: Doc, y: Doc, s: State, m: State, op: Op, d: DocId)
    requires Inv(s) && m == Apply(op, s) && d in s.docs && d in m.docs && x == s.docs[d] && y == m.docs[d] && !x.status.Uploading?
    ensures Measure(y) <= Measure(x)
  {
    hide Inv, Apply, Moves;
    Step(op, s);
    StepMeasure(s, m, d);
  }

  lemma LaterMeasure(s: State, m: State, r: State, op: Op, d: DocId)
    requires Inv(s) && m == Apply(op, s) && Later(m, r) && d in s.docs && d in m.docs && d in r.docs && !s.docs[d].status.Uploading?
    ensures Measure(r.docs[d]) <= Measure(m.docs[d])
  {
    hide Inv, Apply, Moves, JobLater;
    Step(op, s);
    StepMeasure(s, m, d);
  }

  lemma {:induction false} ListsGrow(ops: seq<Op>, s: State)
    ensures s.expired <= Run(ops, s).expired
  {
    hide Apply;
    if ops != [] {
      ListGrows(ops[0], s);
      ListsGrow(ops[1..], Apply(ops[0], s));
    }
  }

  lemma ListGrows(op: Op, s: State)
    ensures s.expired <= Apply(op, s).expired
  {
    hide Create, CommitCheck, ClaimDoc, Heartbeat, CommitResult, Fail, RecoverJob, CommitOutbox, DeleteRows, Apply;
    if IdleOp(op) {
      IdleLeaves(op, s);
    } else if BatchOp(op) {
      BatchLeaves(op, s);
    } else if op.CommitCheckOp? {
      CheckLists(s, op.token, op.found);
    } else if op.CreateOp? || op.DeleteRowsOp? {
      BatchLists(op, s);
    } else {
      LeaseLists(op, s);
    }
  }

  lemma BatchLists(op: Op, s: State)
    requires op.CreateOp? || op.DeleteRowsOp?
    ensures Apply(op, s).expired == s.expired
  {
    hide Create, DeleteRows, Apply;
    WritingOps(op, s);
    match op
    case CreateOp(o, k, h, j, ds) => CreateShape(s, o, k, h, j, ds);
    case DeleteRowsOp(i) => FewerJobs(s, i);
  }

  lemma LeaseLists(op: Op, s: State)
    requires op.ClaimDocOp? || op.HeartbeatOp? || op.CommitResultOp? || op.FailOp? || op.RecoverJobOp? || op.CommitOutboxOp?
    ensures Apply(op, s).expired == s.expired
  {
    hide Passes, Held, Refresh, RecoveredDocs, Delivered, Claimable;
  }

  lemma CheckLists(s: State, t: Token, found: map<DocId, Check>)
    ensures Apply(CommitCheckOp(t, found), s).expired == s.expired
  {
    hide CheckedDocs, Conclude, HoldsCheck, CommitCheck, Accepted;
    CheckShape(s, t, found);
    if CommitCheck(s, t, found).expired != s.expired {
      HeldJob(s, t);
      var j, g := s.verifiers[t].job, s.verifiers[t].generation;
      ConcludeShape(s.(docs := CheckedDocs(s.docs, j, g, found), verifiers := FinishCheck(s, t)), j);
    }
  }

  lemma HeldJob(s: State, t: Token)
    requires HoldsCheck(s, t)
    ensures t in s.verifiers && s.verifiers[t].job in s.jobs
  {
  }

  /** Whatever happens in between: after recover() every waiting document of a working job is in the outbox
      or was enqueued at most 120 seconds ago; every document that was found with an expired lease has
      left it, unless its job is being deleted; and rows already in the outbox keep their due time. */
  lemma RecoverRequeues(ops: seq<Op>, more: seq<Op>, now: int, js: set<JobId>)
    requires Recovers(more, js) && js <= Apply(more[0], After(ops, now)).expired
    ensures var s, r := After(ops, now), Run(more, After(ops, now));
            (forall d :: d in r.docs && Waiting(r.docs[d].status) && r.docs[d].job in r.jobs && Working(r.jobs[r.docs[d].job].status) ==>
              d in r.outbox || (r.docs[d].lastEnqueued.Some? && r.docs[d].lastEnqueued.value >= r.now - 120)) &&
            (forall d :: d in s.docs && d in r.docs && s.docs[d].job in js && Expired(s.docs[d], s.now) && !Deleting(r.jobs, r.docs[d]) ==>
              !r.docs[d].status.Processing? || r.docs[d].attempts > s.docs[d].attempts) &&
            var m := Run(more[..|more| - 1], s);
            forall d :: d in m.outbox ==> d in r.outbox && r.outbox[d] == m.outbox[d]
  {
    hide Inv, Run, Apply, Enqueue, Expired, Measure, Overdue, Recovers;
    Reachable(ops, now);
    var s := After(ops, now);
    var n := LastIsEnqueue(more, js);
    var m, r := Run(more[..n], s), Run(more, s);
    assert more == more[..n] + [EnqueueOp];
    RunTwice(more[..n], [EnqueueOp], s);
    RunOne(EnqueueOp, m);
    assert r == Enqueue(m) by { EnqueueIs(m); }
    EnqueueShape(m);
    forall d | d in r.docs && Waiting(r.docs[d].status) && r.docs[d].job in r.jobs && Working(r.jobs[r.docs[d].job].status)
      ensures d in r.outbox || (r.docs[d].lastEnqueued.Some? && r.docs[d].lastEnqueued.value >= r.now - LEASE)
    {
      EnqueueRequeues(m, d);
    }
    forall d | d in s.docs && d in r.docs && s.docs[d].job in js && Expired(s.docs[d], s.now) && !Deleting(r.jobs, r.docs[d])
      ensures !r.docs[d].status.Processing? || r.docs[d].attempts > s.docs[d].attempts
    {
      RecoveredSince(more, js, s, d);
    }
  }

  lemma LastIsEnqueue(more: seq<Op>, js: set<JobId>) returns (n: nat)
    requires Recovers(more, js)
    ensures n == |more| - 1 && more[n] == EnqueueOp
  {
    n := |more| - 1;
  }

  lemma EnqueueIs(m: State)
    ensures Apply(EnqueueOp, m) == Enqueue(m)
  {
    hide Enqueue;
  }

  lemma EnqueueShape(m: State)
    ensures var r := Enqueue(m);
            r.docs == m.docs && r.jobs == m.jobs && r.now == m.now && forall d :: d in m.outbox ==> d in r.outbox && r.outbox[d] == m.outbox[d]
  {
    hide Overdue;
  }

  lemma RecoveredSince(more: seq<Op>, js: set<JobId>, s: State, d: DocId)
    requires Inv(s) && Recovers(more, js) && js <= Apply(more[0], s).expired && d in s.docs && s.docs[d].job in js
    requires var r := Run(more, s); d in r.docs && !Deleting(r.jobs, r.docs[d]) && Expired(s.docs[d], s.now)
    ensures var r := Run(more, s); !r.docs[d].status.Processing? || r.docs[d].attempts > s.docs[d].attempts
  {
    hide Inv, Run, Apply, Later, Measure;
    var j := s.docs[d].job;
    var k :| 0 < k < |more| - 1 && more[k] == RecoverJobOp(j);
    var m := Run(more[..k], s);
    assert more == more[..k] + ([more[k]] + more[k + 1..]) && [more[k]] + more[k + 1..] == more[k..];
    RunTwice(more[..k], more[k..], s);
    RunFrom(more[k], more[k + 1..], m);
    RunKeepsInv(more[..k], s);
    Between(more[..k], more[k..], s, d);
    ExpiredStays(more[..k], s, d);
    RunMovesLater(more[..k], s);
    NeverMore(s, m, d);
    StillThere(m, more[k], more[k + 1..], d);
    assert j in m.expired by { ListedStays(more, k, s, j); }
    var a, r := Apply(more[k], m), Run(more, s);
    RunMovesLater(more[k + 1..], a);
    JobStillLives(more[..k], more[k..], s, d);
    RecoverLess(m, j, d);
    LaterMeasure(m, a, r, more[k], d);
    ExpiredMeasure(m.docs[d], a.docs[d], m, a, more[k], d);
    MeasureDrops(s.docs[d], r.docs[d]);
  }

  lemma NeverMore(s: State, m: State, d: DocId)
    requires Later(s, m) && d in s.docs && d in m.docs && !s.docs[d].status.Uploading?
    ensures Measure(m.docs[d]) <= Measure(s.docs[d])
  {
    hide JobLater;
  }

  lemma MeasureDrops(x: Doc, y: Doc)
    requires x.status.Processing? && Measure(y) < Measure(x)
    ensures !y.status.Processing? || y.attempts > x.attempts
  {
  }

  lemma RunFrom(op: Op, rest: seq<Op>, s: State)
    ensures Run([op] + rest, s) == Run(rest, Apply(op, s))
  {
    hide Apply;
    assert ([op] + rest)[1..] == rest;
  }

  /** A row that is there before and after is there in between, and has moved forward. */
  lemma Between(a: seq<Op>, b: seq<Op>, s: State, d: DocId)
    requires Inv(s) && d in s.docs && d in Run(b, Run(a, s)).docs
    ensures Inv(Run(a, s)) && d in Run(a, s).docs && Run(a, s).docs[d].job == s.docs[d].job
    ensures !s.docs[d].status.Uploading? ==> !Run(a, s).docs[d].status.Uploading?
  {
    hide Inv, Run, JobLater, Measure;
    RunKeepsInv(a, s);
    RunMovesLater(a, s);
    RunMovesLater(b, Run(a, s));
    RowJobs(s);
  }

  lemma JobStillLives(a: seq<Op>, b: seq<Op>, s: State, d: DocId)
    requires Inv(s) && d in s.docs && d in Run(b, Run(a, s)).docs
    requires var r := Run(b, Run(a, s)); !Deleting(r.jobs, r.docs[d])
    ensures var m := Run(a, s); d in m.docs && m.docs[d].job == s.docs[d].job && s.docs[d].job in m.jobs && !m.jobs[s.docs[d].job].status.JDeleting?
  {
    hide Inv, Run, Measure;
    Between(a, b, s, d);
    var m := Run(a, s);
    RunKeepsInv(b, m);
    RunMovesLater(b, m);
    RowJobs(m);
    RowJobs(Run(b, m));
  }

  lemma ListedStays(more: seq<Op>, k: nat, s: State, j: JobId)
    requires 0 < k <= |more| && j in Apply(more[0], s).expired
    ensures j in Run(more[..k], s).expired
  {
    hide Apply, Run;
    assert more[..k] == [more[0]] + more[1..k];
    RunFrom(more[0], more[1..k], s);
    ListsGrow(more[1..k], Apply(more[0], s));
  }

  lemma RecoverLess(m: State, j: JobId, d: DocId)
    requires Inv(m) && d in m.docs && m.docs[d].job == j && j in m.expired && j in m.jobs && !m.jobs[j].status.JDeleting?
    ensures var a := Apply(RecoverJobOp(j), m);
            d in a.docs && (Expired(m.docs[d], m.now) ==> Measure(a.docs[d]) < Measure(m.docs[d]))
  {
    hide Inv, Refresh, Moves, Measure;
    Step(RecoverJobOp(j), m);
    if Expired(m.docs[d], m.now) { MovedMeasure(m, Apply(RecoverJobOp(j), m), d); }
  }

  lemma FailReschedules(s: State, t: Token, code: string)
    requires Inv(s) && Passes(s, t) && Retries(s.claims[t], true)
    ensures var r := Fail(s, t, code, true);
            var d := s.claims[t].doc;
            d in r.outbox && r.outbox[d] == s.now + Delay(s.claims[t].attempt) && r.outbox[d] > s.now &&
            r.dispatches == s.dispatches && r.now == s.now &&
            d in r.docs && r.docs[d].status.RetryWait? && r.docs[d].available == r.outbox[d]
  {
    hide Inv, Refresh;
  }

  lemma PutOff(s: State, t: Token, code: string)
    requires Inv(s) && Passes(s, t) && Retries(s.claims[t], true)
    ensures NotBefore(Fail(s, t, code, true), s.claims[t].doc, s.now + Delay(s.claims[t].attempt))
  {
    hide Inv, Fail, Passes, Moves;
    FailReschedules(s, t, code);
    Step(FailOp(t, code, true), s);
    RowJobs(Fail(s, t, code, true));
  }

  /** A row that was read is no later than its reading. */
  lemma ReadWasDue(s: State, i: nat, d: DocId)
    requires Inv(s) && i in s.dispatches && d in s.dispatches[i]
    ensures s.dispatches[i][d] <= s.now
  {
    hide Rows, Fenced, Checks;
  }

  lemma SparesLater(m: State, i: nat, d: DocId)
    requires i in m.dispatches && d in m.outbox && (d in m.dispatches[i] ==> m.dispatches[i][d] < m.outbox[d])
    ensures d in CommitOutbox(m, i).outbox && CommitOutbox(m, i).outbox[d] == m.outbox[d]
  {
  }

  /** A dispatch that read the outbox before fail() rescheduled a document leaves the document's row alone,
      whenever it commits and whatever happens in between: from the failure on the row is never due
      before the retry, and so later than anything read. */
  lemma DispatchSparesRescheduled(ops: seq<Op>, more: seq<Op>, now: int, t: Token, code: string, i: nat)
    requires var s := After(ops, now);
             Passes(s, t) && Retries(s.claims[t], true) && i in s.dispatches && CommitOutboxOp(i) !in more
    ensures var s := After(ops, now);
            var m, d := Run(more, Fail(s, t, code, true)), s.claims[t].doc;
            (more == [] ==> d in m.outbox) &&
            (d in m.outbox ==>
              m.outbox[d] >= s.now + (if s.claims[t].attempt == 1 then 30 else 120) &&
              d in CommitOutbox(m, i).outbox && CommitOutbox(m, i).outbox[d] == m.outbox[d])
  {
    hide Run, Inv, Fail, Passes, CommitOutbox;
    Reachable(ops, now);
    var s := After(ops, now);
    PassingRow(s, t);
    var r, d := Fail(s, t, code, true), s.claims[t].doc;
    FailReschedules(s, t, code);
    PutOff(s, t, code);
    assert Inv(r) by { FailInv(s, t, code, true); }
    NotBeforeAlong(more, r, d, s.now + Delay(s.claims[t].attempt), i);
    var m := Run(more, r);
    if more == [] { assert m == r by { EmptyRun(r); } }
    if d in m.outbox {
      if d in s.dispatches[i] { ReadWasDue(s, i, d); }
      SparesLater(m, i, d);
    }
  }

  lemma EmptyRun(s: State)
    ensures Run([], s) == s
  {
  }

  // ---------------------------------------------------------------- jobs agree with their documents

  ghost predicate AllAre(docs: map<DocId, Doc>, j: JobId, st: DocStatus) {
    forall d :: d in docs && docs[d].job == j ==> docs[d].status == st
  }

  ghost predicate SomeIs(docs: map<DocId, Doc>, j: JobId, st: DocStatus) {
    exists d :: d in docs && docs[d].job == j && docs[d].status == st
  }

  ghost predicate AllOver(docs: map<DocId, Doc>, j: JobId) {
    forall d :: d in docs && docs[d].job == j ==> Terminal(docs[d].status)
  }

  lemma InStatuses(docs: map<DocId, Doc>, j: JobId, st: DocStatus)
    ensures st in Statuses(docs, j) <==> SomeIs(docs, j, st)
  {
  }

  lemma SummaryMeans(docs: map<DocId, Doc>, j: JobId)
    requires DocsOf(docs, j) != {}
    ensures var st := Summary(Statuses(docs, j));
            (st.JSucceeded? <==> AllAre(docs, j, Succeeded)) && (st.JFailed? <==> AllAre(docs, j, Failed)) &&
            (st.JPartialSuccess? <==> AllOver(docs, j) && SomeIs(docs, j, Succeeded) && SomeIs(docs, j, Failed)) &&
            (st.JProcessing? <==> !AllOver(docs, j))
  {
    hide Summary, Statuses;
    var d :| d in DocsOf(docs, j);
    forall st ensures st in Statuses(docs, j) <==> SomeIs(docs, j, st) { InStatuses(docs, j, st); }
    SummaryOf(Statuses(docs, j));
    assert SomeIs(docs, j, docs[d].status);
    forall e | e in docs && docs[e].job == j ensures docs[e].status in Statuses(docs, j) { assert SomeIs(docs, j, docs[e].status); }
  }

  lemma SummaryOf(sts: set<DocStatus>)
    ensures var st := Summary(sts);
            (st.JProcessing? <==> exists x :: x in sts && !Terminal(x)) &&
            (st.JSucceeded? <==> forall x :: x in sts ==> x.Succeeded?) &&
            (st.JFailed? <==> (forall x :: x in sts ==> Terminal(x)) && Succeeded !in sts && sts != {}) &&
            (st.JPartialSuccess? <==> (forall x :: x in sts ==> Terminal(x)) && Succeeded in sts && Failed in sts)
  {
  }

  lemma AgreedStatus(s: State, j: JobId)
    requires Inv(s) && j in s.jobs && !Early(s.jobs[j].status) && !s.jobs[j].status.JDeleting?
    ensures var st := s.jobs[j].status;
            (st.JSucceeded? <==> AllAre(s.docs, j, Succeeded)) && (st.JFailed? <==> AllAre(s.docs, j, Failed)) &&
            (st.JPartialSuccess? <==> AllOver(s.docs, j) && SomeIs(s.docs, j, Succeeded) && SomeIs(s.docs, j, Failed)) &&
            (Working(st) <==> !AllOver(s.docs, j)) && (st.JQueued? ==> AllAre(s.docs, j, Queued))
  {
    hide Fenced, Checks, RowsRead, Distinct, ListedJobs, Summary, Statuses;
    assert DocsOf(s.docs, j) != {};
    SummaryMeans(s.docs, j);
    if s.jobs[j].status.JQueued? {
      forall d | d in s.docs && s.docs[d].job == j ensures s.docs[d].status.Queued? {
        assert Lifecycle(s.docs[d], s.jobs[j], d in s.outbox);
      }
      var d :| d in DocsOf(s.docs, j);
    }
  }

  /** From verification to deletion, a job's status says exactly how its documents stand. */
  lemma JobsAgree(ops: seq<Op>, now: int, j: JobId)
    requires var s := After(ops, now); j in s.jobs && !Early(s.jobs[j].status) && !s.jobs[j].status.JDeleting?
    ensures var s := After(ops, now);
            var st := s.jobs[j].status;
            (st.JSucceeded? <==> AllAre(s.docs, j, Succeeded)) && (st.JFailed? <==> AllAre(s.docs, j, Failed)) &&
            (st.JPartialSuccess? <==> AllOver(s.docs, j) && SomeIs(s.docs, j, Succeeded) && SomeIs(s.docs, j, Failed)) &&
            (Working(st) <==> !AllOver(s.docs, j)) && (st.JQueued? ==> AllAre(s.docs, j, Queued))
  {
    hide Inv, Run, AllAre, AllOver, SomeIs;
    Reachable(ops, now);
    AgreedStatus(After(ops, now), j);
  }

  // ---------------------------------------------------------------- verification

  /** A QUEUED job has every document checked in its current generation, with a version and no error. */
  lemma QueuedMeansChecked(ops: seq<Op>, now: int, d: DocId)
    requires var s := After(ops, now); d in s.docs && s.docs[d].job in s.jobs && s.jobs[s.docs[d].job].status.JQueued?
    ensures var s := After(ops, now);
            var x := s.docs[d];
            x.status.Queued? && x.verified == s.jobs[x.job].generation && x.version.Some? && x.error.None?
  {
    hide Run, Fenced, Checks, RowsRead, Distinct, Agrees, ListedJobs, Linked;
    Reachable(ops, now);
    var s := After(ops, now);
    assert Lifecycle(s.docs[d], s.jobs[s.docs[d].job], d in s.outbox);
  }

  /** What verification decides about a document: version, generation and, before it is queued, error. */
  predicate SameFindings(x: Doc, y: Doc) {
    y.version == x.version && y.verified == x.verified && (x.status.Uploading? && y.status.Uploading? ==> y.error == x.error)
  }

  /** Somewhere along the run a chunk of j is accepted from a verifier that holds the check. */
  ghost predicate AcceptedAlong(ops: seq<Op>, s: State, j: JobId) {
    exists i :: 0 <= i < |ops| && Accepted(ops[i], Run(ops[..i], s), j)
  }

  lemma AcceptedFirst(ops: seq<Op>, s: State, j: JobId)
    requires ops != [] && Accepted(ops[0], s, j)
    ensures AcceptedAlong(ops, s, j)
  {
    hide Accepted, Apply;
    assert ops[..0] == [] && Run(ops[..0], s) == s;
  }

  lemma AcceptedLater(ops: seq<Op>, s: State, j: JobId)
    requires ops != [] && AcceptedAlong(ops[1..], Apply(ops[0], s), j)
    ensures AcceptedAlong(ops, s, j)
  {
    hide Accepted, Apply, Run;
    var i :| 0 <= i < |ops[1..]| && Accepted(ops[1..][i], Run(ops[1..][..i], Apply(ops[0], s)), j);
    assert ops[..i + 1] == [ops[0]] + ops[1..][..i];
    RunFrom(ops[0], ops[1..][..i], s);
    assert Accepted(ops[i + 1], Run(ops[..i + 1], s), j);
  }

  lemma {:induction false} FindingsAccepted(ops: seq<Op>, s: State, d: DocId)
    requires Inv(s) && d in s.docs && d in Run(ops, s).docs && !SameFindings(s.docs[d], Run(ops, s).docs[d])
    ensures AcceptedAlong(ops, s, s.docs[d].job)
  {
    hide Inv, Apply, Accepted, AcceptedAlong, Measure, JobLater;
    if ops != [] {
      var m := Apply(ops[0], s);
      StillThere(s, ops[0], ops[1..], d);
      StepKeeps(ops[0], s);
      if Accepted(ops[0], s, s.docs[d].job) {
        AcceptedFirst(ops, s, s.docs[d].job);
      } else {
        RunMovesLater(ops[1..], m);
        assert m.docs[d].job == s.docs[d].job;
        FindingsAccepted(ops[1..], m, d);
        AcceptedLater(ops, s, s.docs[d].job);
      }
    }
  }

  lemma JobStillThere(s: State, op: Op, rest: seq<Op>, j: JobId)
    requires Inv(s) && j in s.jobs && j in Run(rest, Apply(op, s)).jobs
    ensures Inv(Apply(op, s)) && j in Apply(op, s).jobs
    ensures JobLater(Apply(op, s).jobs[j], Run(rest, Apply(op, s)).jobs[j]) && s.jobs[j].generation <= Apply(op, s).jobs[j].generation
    ensures s.jobs[j].status.JDeleting? ==> Apply(op, s).jobs[j].status.JDeleting?
  {
    hide Inv, Apply, Run, DocsMove, DocLater, Over;
    Step(op, s);
    RowJobs(s);
    RunMovesLater(rest, Apply(op, s));
  }

  lemma {:induction false} VerdictAccepted(ops: seq<Op>, s: State, j: JobId)
    requires Inv(s) && j in s.jobs && j in Run(ops, s).jobs && LeftVerifying(s.jobs[j], Run(ops, s).jobs[j])
    ensures AcceptedAlong(ops, s, j)
  {
    hide Inv, Apply, Accepted, AcceptedAlong;
    var m := Apply(ops[0], s);
    JobStillThere(s, ops[0], ops[1..], j);
    StepKeepsJobs(ops[0], s);
    if Accepted(ops[0], s, j) {
      AcceptedFirst(ops, s, j);
    } else {
      assert JobKept(ops[0], s, s.jobs[j], m.jobs[j], j);
      VerdictAccepted(ops[1..], m, j);
      AcceptedLater(ops, s, j);
    }
  }

  predicate LeftVerifying(a: Job, b: Job) {
    a.status.JVerifying? && !b.status.JVerifying? && !b.status.JDeleting?
  }

  /** Along any run: a document's version, checked generation and verification error change, and its job
      leaves VERIFYING other than for deletion, only if a chunk of that job was accepted on the way from a
      verifier that then held the check - generation, token and lease; and no two hold it at once. */
  lemma StaleVerifierWritesNothing(ops: seq<Op>, more: seq<Op>, now: int)
    ensures var s, r := After(ops, now), Run(more, After(ops, now));
            (forall d :: d in s.docs && d in r.docs && !SameFindings(s.docs[d], r.docs[d]) ==> AcceptedAlong(more, s, s.docs[d].job)) &&
            (forall j :: j in s.jobs && j in r.jobs && LeftVerifying(s.jobs[j], r.jobs[j]) ==> AcceptedAlong(more, s, j)) &&
            forall t, u :: HoldsCheck(s, t) && HoldsCheck(s, u) && s.verifiers[t].job == s.verifiers[u].job ==> t == u
  {
    hide Inv, Run, AcceptedAlong, SameFindings;
    Reachable(ops, now);
    var s, r := After(ops, now), Run(more, After(ops, now));
    forall d | d in s.docs && d in r.docs && !SameFindings(s.docs[d], r.docs[d]) ensures AcceptedAlong(more, s, s.docs[d].job) {
      FindingsAccepted(more, s, d);
    }
    forall j | j in s.jobs && j in r.jobs && LeftVerifying(s.jobs[j], r.jobs[j]) ensures AcceptedAlong(more, s, j) {
      VerdictAccepted(more, s, j);
    }
  }

  lemma UncheckedAfter(docs: map<DocId, Doc>, j: JobId, g: nat, found: map<DocId, Check>)
    requires found.Keys <= Unchecked(docs, j, g)
    ensures Unchecked(CheckedDocs(docs, j, g, found), j, g) == Unchecked(docs, j, g) - found.Keys
  {
    forall d ensures d in Unchecked(CheckedDocs(docs, j, g, found), j, g) <==> d in Unchecked(docs, j, g) - found.Keys { }
  }

  /** Chunks still to come for n unchecked documents. */
  function ChunksFor(n: nat): nat {
    (n + 99) / 100
  }

  lemma QueuedUnchecked(docs: map<DocId, Doc>, j: JobId, g: nat)
    ensures Unchecked(QueuedDocs(docs, j), j, g) == Unchecked(docs, j, g)
  {
  }

  lemma AllQueuedStatus(m: State, j: JobId)
    requires j in m.jobs
    ensures AllQueued(m, j).docs == QueuedDocs(m.docs, j) && j in AllQueued(m, j).jobs && AllQueued(m, j).jobs[j].status.JQueued?
    ensures Rejected(m, j).docs == m.docs && j in Rejected(m, j).jobs && Rejected(m, j).jobs[j].status.JUploading?
  {
    hide QueuedDocs, DocsOf;
  }

  lemma ConcludeStatus(m: State, j: JobId)
    requires j in m.jobs && m.jobs[j].status.JVerifying?
    ensures var r, g := Conclude(m, j), m.jobs[j].generation;
            j in r.jobs && Unchecked(r.docs, j, g) == Unchecked(m.docs, j, g) &&
            (r.jobs[j].status.JVerifying? <==> Unchecked(m.docs, j, g) != {})
  {
    hide Unchecked, AnyInvalid, QueuedDocs, DocsOf, AllQueued, Rejected;
    AllQueuedStatus(m, j);
    QueuedUnchecked(m.docs, j, m.jobs[j].generation);
  }

  /** What an accepted chunk does to the count of unchecked documents, and to the job's status. */
  ghost predicate ChunkCounts(s: State, r: State, j: JobId, g: nat) {
    var n, m := |Unchecked(s.docs, j, g)|, |Unchecked(r.docs, j, g)|;
    n > 0 && ChunksFor(m) == ChunksFor(n) - 1 && j in r.jobs && (m == 0 <==> !r.jobs[j].status.JVerifying?)
  }

  lemma FewerUnchecked(s: State, t: Token, found: map<DocId, Check>)
    requires Checks(s.jobs, s.docs, s.verifiers) && HoldsCheck(s, t) && s.verifiers[t].stage == Picked(found.Keys)
    ensures var j, g := s.verifiers[t].job, s.verifiers[t].generation;
            var n, m := |Unchecked(s.docs, j, g)|, |Unchecked(CheckedDocs(s.docs, j, g, found), j, g)|;
            n > 0 && m == n - (if n < BATCH then n else BATCH)
  {
    hide Unchecked, CheckedDocs;
    var j, g := s.verifiers[t].job, s.verifiers[t].generation;
    assert CheckerFits(j, s.jobs[j], s.docs, s.verifiers);
    UncheckedAfter(s.docs, j, g, found);
    var all := Unchecked(s.docs, j, g);
    assert |all - found.Keys| == |all| - |found.Keys|;
  }

  lemma ChunkShrinks(s: State, t: Token, found: map<DocId, Check>)
    requires Checks(s.jobs, s.docs, s.verifiers) && HoldsCheck(s, t) && s.verifiers[t].stage == Picked(found.Keys)
    ensures ChunkCounts(s, CommitCheck(s, t, found), s.verifiers[t].job, s.verifiers[t].generation)
  {
    hide Unchecked, CheckedDocs, Conclude, Checks;
    var j, g := s.verifiers[t].job, s.verifiers[t].generation;
    FewerUnchecked(s, t, found);
    ConcludeStatus(s.(docs := CheckedDocs(s.docs, j, g, found), verifiers := FinishCheck(s, t)), j);
  }

  /** How many chunks of j are accepted along a run. */
  function AcceptedChunks(ops: seq<Op>, s: State, j: JobId): nat {
    if ops == [] then 0
    else (if Accepted(ops[0], s, j) then 1 else 0) + AcceptedChunks(ops[1..], Apply(ops[0], s), j)
  }

  lemma AcceptedCounts(op: Op, s: State, j: JobId)
    requires Inv(s) && Accepted(op, s, j)
    ensures j in s.jobs && s.jobs[j].status.JVerifying? && ChunkCounts(s, Apply(op, s), j, s.jobs[j].generation)
  {
    hide Rows, Fenced, RowsRead, Checks, CommitCheck, ChunkCounts;
    ChunkShrinks(s, op.token, op.found);
  }

  lemma UncheckedKept(op: Op, s: State, j: JobId, g: nat)
    requires Inv(s) && !Accepted(op, s, j) && j in s.jobs && j in Apply(op, s).jobs
    ensures Unchecked(Apply(op, s).docs, j, g) == Unchecked(s.docs, j, g)
  {
    hide Inv, Apply, Accepted;
    StepKeeps(op, s);
    var r := Apply(op, s);
    assert SameFilesOf(s, r, j);
    assert forall d :: d in s.docs && d in r.docs && s.docs[d].job == j ==> r.docs[d].verified == s.docs[d].verified;
  }

  /** Still verifying, or given up, or nothing left to check. */
  ghost predicate Checking(s: State, j: JobId) {
    j in s.jobs &&
    (s.jobs[j].status.JVerifying? || s.jobs[j].status.JDeleting? || Unchecked(s.docs, j, s.jobs[j].generation) == {})
  }

  lemma {:induction false} ChunksAddUp(ops: seq<Op>, s: State, j: JobId)
    requires Inv(s) && j in s.jobs && j in Run(ops, s).jobs && Run(ops, s).jobs[j].generation == s.jobs[j].generation
    ensures var r, g := Run(ops, s), s.jobs[j].generation;
            AcceptedChunks(ops, s, j) + ChunksFor(|Unchecked(r.docs, j, g)|) == ChunksFor(|Unchecked(s.docs, j, g)|)
    ensures Checking(s, j) ==> Checking(Run(ops, s), j)
  {
    hide Inv, Apply, Accepted, Unchecked;
    if ops != [] {
      var m, g := Apply(ops[0], s), s.jobs[j].generation;
      JobStillThere(s, ops[0], ops[1..], j);
      StepKeepsJobs(ops[0], s);
      assert JobKept(ops[0], s, s.jobs[j], m.jobs[j], j);
      if Accepted(ops[0], s, j) {
        AcceptedCounts(ops[0], s, j);
      } else {
        UncheckedKept(ops[0], s, j, g);
      }
      ChunksAddUp(ops[1..], m, j);
    }
  }

  /** However a run interleaves: while a generation stands, the chunks accepted and the chunks still to come
      add up; so when a generation of n unchecked documents ends otherwise than by deletion, exactly
      ceil(n / 100) chunks of it have been accepted. */
  lemma EveryChunkCounts(ops: seq<Op>, more: seq<Op>, now: int, j: JobId)
    requires var s, r := After(ops, now), Run(more, After(ops, now));
             j in s.jobs && j in r.jobs && r.jobs[j].generation == s.jobs[j].generation
    ensures var s, r := After(ops, now), Run(more, After(ops, now));
            var g := s.jobs[j].generation;
            AcceptedChunks(more, s, j) + ChunksFor(|Unchecked(r.docs, j, g)|) == ChunksFor(|Unchecked(s.docs, j, g)|) &&
            (LeftVerifying(s.jobs[j], r.jobs[j]) ==>
              Unchecked(r.docs, j, g) == {} && AcceptedChunks(more, s, j) == ChunksFor(|Unchecked(s.docs, j, g)|))
  {
    hide Inv, Run, AcceptedChunks, Unchecked;
    Reachable(ops, now);
    ChunksAddUp(more, After(ops, now), j);
  }

  lemma NoneChecked(s: State, j: JobId)
    requires Inv(s) && j in s.jobs
    ensures Unchecked(s.docs, j, s.jobs[j].generation + 1) == DocsOf(s.docs, j)
  {
    hide Fenced, Checks, RowsRead, Distinct, Agrees, ListedJobs, Linked;
    forall d | d in s.docs && s.docs[d].job == j ensures s.docs[d].verified != s.jobs[j].generation + 1 {
      assert Lifecycle(s.docs[d], s.jobs[j], d in s.outbox);
    }
  }

  /** A submitted job of n documents leaves VERIFYING, unless deleted, by exactly ceil(n / 100) accepted chunks. */
  lemma GenerationTakes(ops: seq<Op>, more: seq<Op>, now: int, j: JobId)
    requires var s := After(ops, now); j in s.jobs && s.jobs[j].status.JUploading?
    requires var s, r := After(ops, now), Run(more, Submit(After(ops, now), j));
             j in r.jobs && r.jobs[j].generation == s.jobs[j].generation + 1 && !r.jobs[j].status.JVerifying? && !r.jobs[j].status.JDeleting?
    ensures AcceptedChunks(more, Submit(After(ops, now), j), j) == ChunksFor(|DocsOf(After(ops, now).docs, j)|)
  {
    hide Inv, Run, AcceptedChunks, Unchecked, DocsOf;
    Reachable(ops, now);
    var s := After(ops, now);
    NoneChecked(s, j);
    Step(SubmitOp(j), s);
    ChunksAddUp(more, Submit(s, j), j);
  }

  // ---------------------------------------------------------------- batches

  lemma Created(s: State, owner: nat, key: string, hash: string, j: JobId, ds: set<DocId>)
    requires Create(s, owner, key, hash, j, ds) != s
    ensures var r := Create(s, owner, key, hash, j, ds);
            j in r.jobs && Owns(r.jobs[j], owner, key) && r.jobs[j].manifestHash == hash
  {
    hide Existing;
  }

  lemma OneExisting(s: State, owner: nat, key: string, j: JobId)
    requires Inv(s) && j in s.jobs && Owns(s.jobs[j], owner, key)
    ensures Existing(s.jobs, owner, key) == {j}
  {
    hide Fenced, Checks, RowsRead, Lives, Agrees, ListedJobs, Linked;
  }

  lemma CreateNothing(s: State, owner: nat, key: string, hash: string, j: JobId, ds: set<DocId>)
    requires Existing(s.jobs, owner, key) != {}
    ensures Create(s, owner, key, hash, j, ds) == s
  {
  }

  /** create() is idempotent: whatever happens after a create, as long as its job has a row that job is the
      only one under the owner's key, with its manifest hash, and creating again changes nothing. */
  lemma CreateIsIdempotent(ops: seq<Op>, more: seq<Op>, now: int, owner: nat, key: string, hash: string, j: JobId, ds: set<DocId>,
                           hash2: string, j2: JobId, ds2: set<DocId>)
    requires Create(After(ops, now), owner, key, hash, j, ds) != After(ops, now)
    ensures var r := Run(more, Create(After(ops, now), owner, key, hash, j, ds));
            j in r.jobs ==> Existing(r.jobs, owner, key) == {j} && r.jobs[j].manifestHash == hash &&
                            Create(r, owner, key, hash2, j2, ds2) == r
  {
    hide Inv, Run, Create, Existing, DocLater;
    Reachable(ops, now);
    var s := After(ops, now);
    var m := Create(s, owner, key, hash, j, ds);
    BatchSteps.CreateInv(s, owner, key, hash, j, ds);
    Created(s, owner, key, hash, j, ds);
    RunKeepsInv(more, m);
    RunMovesLater(more, m);
    var r := Run(more, m);
    if j in r.jobs {
      OneExisting(r, owner, key, j);
      CreateNothing(r, owner, key, hash2, j2, ds2);
    }
  }

  // ---------------------------------------------------------------- blobs

  /** A SUCCEEDED document of a live job has its blob; every result blob is a row's result or is tracked
      as an orphan; and a job whose rows are gone has no blob left. */
  ghost predicate BlobsSafe(s: State) {
    (forall d :: d in s.docs && s.docs[d].status.Succeeded? && Live(s.jobs, s.docs[d].job) ==>
      s.docs[d].resultKey.Some? && s.docs[d].resultKey.value in s.blobs) &&
    (forall k :: k in s.blobs ==> k in s.orphans || (k.doc in s.docs && s.docs[k.doc].resultKey == Some(k))) &&
    (forall k :: k in s.blobs ==> k.job in s.jobs)
  }

  /** After every run whose uploads and commits happen within 1200 seconds of their first lock(). */
  lemma BlobsConserved(ops: seq<Op>, now: int)
    requires TimelyRun(ops, Start(now), 1200, 1200)
    ensures BlobsSafe(After(ops, now))
  {
    hide Run, Inv, Phases, OrphansFit, Collecting, DoomedFit, Sweeping;
    StartInv(now);
    StartBlobs(now);
    RunKeepsBlobs(ops, Start(now));
  }

  /** Blobs are conserved by every run that keeps these limits. */
  ghost predicate LimitsSuffice(uploads: nat, commits: nat) {
    forall ops, now :: TimelyRun(ops, Start(now), uploads, commits) ==> BlobsSafe(After(ops, now))
  }

  /** 1200 seconds is the exact bound, for uploads and for commits: with these limits every run conserves
      blobs if and only if neither limit is beyond 1200. */
  lemma LimitsIff(uploads: nat, commits: nat)
    ensures LimitsSuffice(uploads, commits) <==> uploads <= 1200 && commits <= 1200
  {
    hide Run, TimelyRun, Start;
    if uploads <= GRACE && commits <= GRACE {
      forall ops, now | TimelyRun(ops, Start(now), uploads, commits) ensures BlobsSafe(After(ops, now)) {
        LooserLimits(ops, Start(now), uploads, commits, GRACE, GRACE);
        BlobsConserved(ops, now);
      }
    } else if uploads > GRACE {
      var ops, k := Overtime.LateUploadRun(0, uploads);
      LooserLimits(ops, Start(0), uploads, 0, uploads, commits);
      assert !BlobsSafe(After(ops, 0));
    } else {
      var ops, d := Overtime.LateCommitRun(0, commits);
      LooserLimits(ops, Start(0), 0, commits, uploads, commits);
      assert !BlobsSafe(After(ops, 0));
    }
  }
}
