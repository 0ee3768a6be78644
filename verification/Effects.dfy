/** What the operations do. */
module Effects {
  // In every reachable state: exactly when an operation takes effect, and what the rows are then.

  import opened Text
  import opened Ledger
  import opened Steps
  import opened Invariants
  import opened Frames
  import opened CheckSteps
  import opened LeaseSteps
  import opened Progress
  import opened Runs
  import opened Writes
  import opened Guarantees
  import Overtime

  // ---------------------------------------------------------------- claim()

  /** Waiting, due, and its job at work. */
  predicate Ready(s: State, d: DocId) {
    d in s.docs && (s.docs[d].status == Queued || s.docs[d].status == RetryWait) && s.docs[d].available <= s.now &&
    s.docs[d].job in s.jobs && (s.jobs[s.docs[d].job].status == JQueued || s.jobs[s.docs[d].job].status == JProcessing)
  }

  /** claim() issues a claim for every document that is ready, and for no other; the claim passes lock() for
      120 seconds, knows one attempt more, and carries the verified version. */
  lemma ClaimIff(ops: seq<Op>, now: int, d: DocId, t: Token)
    requires t !in After(ops, now).claims
    ensures var s := After(ops, now);
            var r := ClaimDoc(s, d, t);
            (t in r.claims <==> Ready(s, d)) && (!Ready(s, d) ==> r == s) &&
            (Ready(s, d) ==>
               var x, y := s.docs[d], r.docs[d];
               x.attempts < 3 && r.claims[t] == Claim(d, x.job, x.version, x.attempts + 1) &&
               y.status == Processing && y.attempts == x.attempts + 1 && y.token == Some(t) && y.lease == Some(s.now + 120) &&
               y.version == x.version && r.jobs[x.job].status == JProcessing &&
               forall n :: s.now <= n < s.now + 120 ==> Passes(r.(now := n), t))
  {
    hide Run, Inv, Passes, ClaimDoc;
    var s := After(ops, now);
    Reachable(ops, now);
    ClaimWhenReady(s, d, t);
    if Ready(s, d) { ClaimWhat(s, d, t); }
  }

  lemma ClaimIssues(s: State, d: DocId, t: Token)
    requires t !in s.claims
    ensures Inv(s) ==> (t in ClaimDoc(s, d, t).claims <==> Ready(s, d))
  {
    hide Inv, ClaimDoc, Ready;
    if Inv(s) { ClaimWhenReady(s, d, t); }
  }

  /** The guard on attempts shuts nothing out. */
  lemma ClaimWhenReady(s: State, d: DocId, t: Token)
    requires Inv(s) && t !in s.claims
    ensures t in ClaimDoc(s, d, t).claims <==> Ready(s, d)
    ensures !Ready(s, d) ==> ClaimDoc(s, d, t) == s
    ensures Ready(s, d) ==> Claimable(s.docs[d], s.jobs[s.docs[d].job], s.now) && s.docs[d].attempts < 3
  {
    hide Fenced, Checks, RowsRead, Distinct, Agrees, ListedJobs, ClaimDoc, EarlyDoc, LateDoc;
    if d in s.docs { assert Lifecycle(s.docs[d], s.jobs[s.docs[d].job], d in s.outbox); }
    ClaimWhen(s, d, t);
  }

  lemma ClaimWhen(s: State, d: DocId, t: Token)
    requires t !in s.claims && (d in s.docs && Waiting(s.docs[d].status) ==> s.docs[d].attempts < MAX_ATTEMPTS)
    ensures t in ClaimDoc(s, d, t).claims <==> Ready(s, d)
    ensures !Ready(s, d) ==> ClaimDoc(s, d, t) == s
    ensures Ready(s, d) ==> Claimable(s.docs[d], s.jobs[s.docs[d].job], s.now)
  {
  }

  lemma ClaimWhat(s: State, d: DocId, t: Token)
    requires t !in s.claims && d in s.docs && s.docs[d].job in s.jobs && Claimable(s.docs[d], s.jobs[s.docs[d].job], s.now)
    ensures var r := ClaimDoc(s, d, t);
            var x := s.docs[d];
            t in r.claims && r.claims[t] == Claim(d, x.job, x.version, x.attempts + 1) && d in r.docs && x.job in r.jobs &&
            r.docs[d] == x.(status := Processing, attempts := x.attempts + 1, token := Some(t), lease := Some(s.now + 120)) &&
            r.jobs[x.job].status == JProcessing && forall n :: s.now <= n < s.now + 120 ==> Passes(r.(now := n), t)
  {
  }

  // ---------------------------------------------------------------- heartbeat()

  /** A heartbeat lets a claim that passes lock() pass for another 120 seconds, and does nothing for another. */
  lemma HeartbeatIff(ops: seq<Op>, now: int, t: Token)
    ensures var s := After(ops, now);
            var r := Heartbeat(s, t);
            (Passes(s, t) ==> forall n :: s.now <= n < s.now + 120 ==> Passes(r.(now := n), t)) && (!Passes(s, t) ==> r == s)
  {
    hide Run, Inv;
    var s := After(ops, now);
    Reachable(ops, now);
    if Passes(s, t) { PassingJob(s, t); }
    if t in s.claims && s.claims[t].doc in s.docs { ClaimsRow(s, t); }
  }

  lemma ClaimsRow(s: State, t: Token)
    requires Inv(s) && t in s.claims && s.claims[t].doc in s.docs
    ensures s.docs[s.claims[t].doc].job == s.claims[t].job && s.docs[s.claims[t].doc].version == s.claims[t].version
  {
    hide Rows, Tokens, Results, OneWinner, Checks, RowsRead;
    assert ClaimFits(t, s.claims[t], s.docs, s.usedDocs);
  }

  // ---------------------------------------------------------------- complete()

  /** A worker whose claim passes lock() and who completes at once stores its result. */
  lemma PromptCompleteSucceeds(ops: seq<Op>, now: int, t: Token)
    requires var s := After(ops, now); Passes(s, t) && t !in s.completes
    ensures var s := After(ops, now);
            var c := s.claims[t];
            var k := Key(c.job, c.doc, t);
            var r := CommitResult(UploadResult(RecordResult(LockResult(ReadJob(s, t), t), t), t), t);
            c.doc in r.docs && r.docs[c.doc].status == Succeeded && r.docs[c.doc].resultKey == Some(k) && r.docs[c.doc].error == None &&
            k in r.blobs && k !in r.orphans && t in r.completes && r.completes[t].phase == Committed
  {
    hide Run, Inv, Passes, ReadJob, LockResult, RecordResult, UploadResult, CommitResult;
    Reachable(ops, now);
    var s := After(ops, now);
    PassingRow(s, t);
    Overtime.Locks(s, t);
    var a := LockResult(ReadJob(s, t), t);
    Recorded3(a, t);
    var b := RecordResult(a, t);
    var c := UploadResult(b, t);
    Overtime.Uploads(b, t);
    Overtime.PassesStill(s, c, t);
    CommitsAtOnce(c, t);
  }

  lemma Recorded3(s: State, t: Token)
    requires InPhase(s, t) && s.completes[t].phase.Locked?
    ensures var r := RecordResult(s, t);
            r == s.(orphans := r.orphans, completes := r.completes) && t in r.completes && r.completes[t].phase == Recorded(s.now)
  {
  }

  lemma CommitsAtOnce(s: State, t: Token)
    requires InPhase(s, t) && s.completes[t].phase.Uploaded? && Passes(s, t) && KeyOf(s, t) in s.blobs
    ensures var r, c := CommitResult(s, t), s.claims[t];
            c.doc in r.docs && r.docs[c.doc].status == Succeeded && r.docs[c.doc].resultKey == Some(KeyOf(s, t)) && r.docs[c.doc].error == None &&
            r.blobs == s.blobs && KeyOf(s, t) !in r.orphans && t in r.completes && r.completes[t].phase == Committed
  {
    hide Refresh;
  }

  // ---------------------------------------------------------------- fail()

  /** A failure is retried exactly if it is retryable and fewer than three attempts were made: after 30
      seconds the first time, 120 the second; otherwise the document has failed. Without the claim nothing happens. */
  lemma FailOutcome(ops: seq<Op>, now: int, t: Token, code: string, retryable: bool)
    ensures var s := After(ops, now);
            var r := Fail(s, t, code, retryable);
            (!Passes(s, t) ==> r == s) &&
            (Passes(s, t) ==>
               var d := s.claims[t].doc;
               var x, y := s.docs[d], r.docs[d];
               y.error == Some(code) && y.lease == None && y.attempts == x.attempts && y.version == x.version &&
               if retryable && x.attempts < 3
               then y.status == RetryWait && y.available == s.now + (if x.attempts == 1 then 30 else 120) &&
                    r.outbox == s.outbox[d := y.available]
               else y.status == Failed && r.outbox == s.outbox)
  {
    hide Run, Inv, Refresh, Passes;
    Reachable(ops, now);
    var s := After(ops, now);
    if Passes(s, t) {
      PassingRow(s, t);
      PassingJob(s, t);
    }
  }

  // ---------------------------------------------------------------- recover()

  predicate LeaseOver(x: Doc, now: int) {
    x.status == Processing && x.lease.Some? && x.lease.value < now
  }

  /** recover() lists up to ten jobs, each with a lease that is over. */
  lemma ListIff(s: State, js: set<JobId>)
    requires js != {} && js !! s.expired
    ensures js <= ListExpired(s, js).expired <==>
            |js| <= 10 && forall j :: j in js ==> exists d :: d in s.docs && s.docs[d].job == j && LeaseOver(s.docs[d], s.now)
  {
    forall d | d in s.docs ensures Expired(s.docs[d], s.now) <==> LeaseOver(s.docs[d], s.now) { }
    var j :| j in js;
  }

  /** Every document whose lease is over can be recovered: it waits for another attempt at once, or has failed
      if there were three; no other document is touched. */
  lemma RecoverOutcome(ops: seq<Op>, now: int, d: DocId)
    requires var s := After(ops, now);
             d in s.docs && LeaseOver(s.docs[d], s.now) && s.docs[d].job in s.jobs && s.jobs[s.docs[d].job].status != JDeleting
    ensures var s := After(ops, now);
            var j := s.docs[d].job;
            var r := RecoverJob(ListExpired(s, {j}), j);
            r.docs.Keys == s.docs.Keys && r.docs[d].error == Some("LEASE_EXPIRED") && r.docs[d].lease == None &&
            r.docs[d].available == s.now && r.docs[d].status == (if s.docs[d].attempts < 3 then RetryWait else Failed) &&
            forall e :: e in s.docs && !(s.docs[e].job == j && LeaseOver(s.docs[e], s.now)) ==> r.docs[e] == s.docs[e]
  {
    hide Run, Refresh;
    var s := After(ops, now);
    var j := s.docs[d].job;
    assert |{j}| == 1;
    var m := ListExpired(s, {j});
    assert Expired(s.docs[d], s.now);
    assert m == s.(expired := s.expired + {j});
  }

  /** Requeueing adds exactly the waiting documents of working jobs that were not enqueued within 120 seconds,
      as of when they are due. */
  lemma EnqueueIff(s: State, d: DocId)
    ensures var r := Enqueue(s);
            (d in r.outbox <==>
               d in s.outbox ||
               (d in s.docs && (s.docs[d].status == Queued || s.docs[d].status == RetryWait) && s.docs[d].job in s.jobs &&
                (s.jobs[s.docs[d].job].status == JQueued || s.jobs[s.docs[d].job].status == JProcessing) &&
                (s.docs[d].lastEnqueued == None || s.docs[d].lastEnqueued.value < s.now - 120))) &&
            (d in r.outbox ==> r.outbox[d] == if d in s.outbox then s.outbox[d] else s.docs[d].available)
  {
  }

  // ---------------------------------------------------------------- dispatch()

  /** An undisturbed batch of due rows leaves the outbox, and its documents are known to be enqueued now. */
  lemma BatchDelivered(s: State, i: nat, ds: set<DocId>, d: DocId)
    requires i !in s.dispatches && DueBatch(s, ds)
    ensures var r := CommitOutbox(ReadOutbox(s, i, ds), i);
            |ds| <= 100 && (d in ds ==> d in s.outbox && s.outbox[d] <= s.now) &&
            (d in r.outbox <==> d in s.outbox && d !in ds) && (d in r.outbox ==> r.outbox[d] == s.outbox[d]) && r.docs.Keys == s.docs.Keys &&
            (d in s.docs ==> r.docs[d] == if d in ds then s.docs[d].(lastEnqueued := Some(s.now)) else s.docs[d])
  {
    var m := ReadOutbox(s, i, ds);
    assert m.dispatches[i].Keys == ds;
    assert m.outbox == s.outbox && m.docs == s.docs && m.now == s.now;
  }

  // ---------------------------------------------------------------- verification

  /** A chunk is claimed exactly when the job is VERIFYING and no other verifier's 90 seconds are running. */
  lemma ClaimCheckIff(s: State, j: JobId, t: Token)
    requires t !in s.verifiers
    ensures var r := ClaimCheck(s, j, t);
            (t in r.verifiers <==>
               j in s.jobs && s.jobs[j].status == JVerifying && (s.jobs[j].checkUntil == None || s.jobs[j].checkUntil.value < s.now)) &&
            (t !in r.verifiers ==> r == s) &&
            (t in r.verifiers ==>
               r.verifiers[t] == Verifier(j, s.jobs[j].generation, Claimed) && r.docs == s.docs &&
               forall n :: s.now <= n < s.now + 90 ==> HoldsCheck(r.(now := n), t))
  {
  }

  /** Ending a chunk frees the job for the next verifier at once, and touches nobody else's lease. */
  lemma EndFrees(s: State, t: Token, u: Token)
    requires t in s.verifiers && u !in s.verifiers && s.verifiers[t].job in s.jobs
    ensures var j, r := s.verifiers[t].job, EndCheck(s, t);
            (s.jobs[j].checker == Some(t) && s.jobs[j].status == JVerifying ==> u in ClaimCheck(r, j, u).verifiers) &&
            (s.jobs[j].checker != Some(t) ==> r.jobs == s.jobs) && r.docs == s.docs && r.outbox == s.outbox && r.blobs == s.blobs
  {
  }

  /** What an accepted chunk says about a document. */
  predicate AsFound(y: Doc, c: Check) {
    match c
    case Valid(x) => y.version == Some(x) && y.error == None
    case Invalid(e) => y.version == None && y.error == Some(e)
  }

  predicate AllChecked(s: State, j: JobId, g: nat) {
    forall d :: d in s.docs && s.docs[d].job == j ==> s.docs[d].verified == g
  }

  predicate SomeInvalid(s: State, j: JobId) {
    exists d :: d in s.docs && s.docs[d].job == j && s.docs[d].error != None
  }

  lemma CheckedAsFound(docs: map<DocId, Doc>, j: JobId, g: nat, found: map<DocId, Check>)
    ensures var docs2 := CheckedDocs(docs, j, g, found);
            docs2.Keys == docs.Keys &&
            (forall d :: d in docs && d in found && docs[d].job == j ==> AsFound(docs2[d], found[d]) && docs2[d].verified == g) &&
            (forall d :: d in docs ==> docs2[d].job == docs[d].job) &&
            (forall d :: d in docs && (d !in found || docs[d].job != j) ==> docs2[d] == docs[d])
  {
  }

  lemma QueuedAsBefore(docs: map<DocId, Doc>, j: JobId)
    ensures var docs2 := QueuedDocs(docs, j);
            docs2.Keys == docs.Keys && forall d :: d in docs ==> docs2[d] == if docs[d].job == j then docs[d].(status := Queued) else docs[d]
  {
  }

  /** What the end of a chunk makes of the job. */
  lemma ConcludeOutcome(m: State, j: JobId)
    requires j in m.jobs
    ensures var r, g := Conclude(m, j), m.jobs[j].generation;
            j in r.jobs && r.jobs[j].generation == g &&
            if !AllChecked(m, j, g) then r == m
            else if SomeInvalid(m, j) then r.jobs[j].status == JUploading && r.docs == m.docs && r.outbox == m.outbox
            else r.jobs[j].status == JQueued && r.docs == QueuedDocs(m.docs, j)
  {
    hide QueuedDocs;
    var g := m.jobs[j].generation;
    assert Unchecked(m.docs, j, g) == {} <==> AllChecked(m, j, g) by { UncheckedNone(m, j, g); }
    hide Unchecked, AllChecked;
    RejectedShape(m, j);
    AllQueuedRows(m, j);
    RejectedQueue2(m, j);
  }

  lemma UncheckedNone(m: State, j: JobId, g: nat)
    ensures Unchecked(m.docs, j, g) == {} <==> AllChecked(m, j, g)
  {
    if d :| d in Unchecked(m.docs, j, g) { assert !AllChecked(m, j, g); }
    if !AllChecked(m, j, g) {
      var d :| d in m.docs && m.docs[d].job == j && m.docs[d].verified != g;
      assert d in Unchecked(m.docs, j, g);
    }
  }

  lemma RejectedQueue2(m: State, j: JobId)
    requires j in m.jobs
    ensures Rejected(m, j).outbox == m.outbox
  {
  }

  lemma PickedIsOwn(s: State, op: Op, j: JobId)
    requires Inv(s) && Accepted(op, s, j)
    ensures op.CommitCheckOp? && j in s.jobs && s.verifiers[op.token].generation == s.jobs[j].generation
    ensures forall d :: d in op.found ==> d in s.docs && s.docs[d].job == j
  {
    hide Rows, Fenced, RowsRead;
    assert CheckerFits(j, s.jobs[j], s.docs, s.verifiers);
  }

  /** An accepted chunk writes to each of its documents what was found of it, and to no other what verification
      decides. After the last one the job goes back to UPLOADING if any document is invalid, and else is queued
      with all its documents. */
  lemma ChunkOutcome(ops: seq<Op>, now: int, op: Op, j: JobId)
    requires Accepted(op, After(ops, now), j)
    ensures var s := After(ops, now);
            var r := Apply(op, s);
            j in s.jobs && j in r.jobs && r.docs.Keys == s.docs.Keys && var g := s.jobs[j].generation;
            (forall d :: d in op.found ==> d in s.docs && s.docs[d].job == j && AsFound(r.docs[d], op.found[d]) && r.docs[d].verified == g) &&
            (forall d :: d in s.docs && s.docs[d].job != j ==> r.docs[d] == s.docs[d]) &&
            (forall d :: d in s.docs && s.docs[d].job == j && d !in op.found ==>
               r.docs[d].version == s.docs[d].version && r.docs[d].verified == s.docs[d].verified && r.docs[d].error == s.docs[d].error) &&
            if !AllChecked(r, j, g) then r.jobs[j].status == JVerifying
            else if SomeInvalid(r, j) then r.jobs[j].status == JUploading
            else r.jobs[j].status == JQueued && forall d :: d in s.docs && s.docs[d].job == j ==> r.docs[d].status == Queued
  {
    hide Run, Inv, CheckedDocs, QueuedDocs, Conclude, AsFound, AllChecked, SomeInvalid, HoldsCheck, FinishCheck;
    Reachable(ops, now);
    var s := After(ops, now);
    PickedIsOwn(s, op, j);
    HeldIsVerifying(s, op.token);
    var g := s.jobs[j].generation;
    var m := s.(docs := CheckedDocs(s.docs, j, g, op.found), verifiers := FinishCheck(s, op.token));
    CheckedAsFound(s.docs, j, g, op.found);
    QueuedAsBefore(m.docs, j);
    ConcludeOutcome(m, j);
    var r := Apply(op, s);
    assert r == Conclude(m, j);
    SameChecked(m, r, j, g);
    forall d | d in op.found ensures AsFound(r.docs[d], op.found[d]) { QueuedFound(m.docs[d], op.found[d]); }
  }

  lemma HeldIsVerifying(s: State, t: Token)
    requires HoldsCheck(s, t)
    ensures t in s.verifiers && s.verifiers[t].job in s.jobs && s.jobs[s.verifiers[t].job].status == JVerifying
  {
  }

  lemma QueuedFound(x: Doc, c: Check)
    requires AsFound(x, c)
    ensures AsFound(x.(status := Queued), c)
  {
  }

  lemma SameChecked(m: State, r: State, j: JobId, g: nat)
    requires r.docs == m.docs || r.docs == QueuedDocs(m.docs, j)
    ensures AllChecked(r, j, g) == AllChecked(m, j, g) && SomeInvalid(r, j) == SomeInvalid(m, j)
  {
    QueuedAsBefore(m.docs, j);
    hide QueuedDocs;
    if SomeInvalid(m, j) {
      var d :| d in m.docs && m.docs[d].job == j && m.docs[d].error != None;
      assert r.docs[d].error != None;
    }
  }

  /** The i-th step accepted a chunk that found this of d, in this generation. */
  ghost predicate FoundAt(ops: seq<Op>, now: int, i: nat, d: DocId, j: JobId, g: int, y: Doc) {
    i < |ops| && Accepted(ops[i], After(ops[..i], now), j) && After(ops[..i], now).verifiers[ops[i].token].generation == g &&
    d in ops[i].found &&
    match ops[i].found[d] case Valid(x) => y.version == Some(x) case Invalid(_) => y.version == None
  }

  lemma FoundEarlier(ops: seq<Op>, op: Op, now: int, i: nat, d: DocId, j: JobId, g: int, y: Doc)
    requires FoundAt(ops, now, i, d, j, g, y)
    ensures FoundAt(ops + [op], now, i, d, j, g, y)
  {
    hide Accepted, Run;
    assert (ops + [op])[..i] == ops[..i];
  }

  lemma FoundNow(ops: seq<Op>, op: Op, now: int, d: DocId, j: JobId, g: int, y: Doc)
    requires Accepted(op, After(ops, now), j) && After(ops, now).verifiers[op.token].generation == g && d in op.found && AsFound(y, op.found[d])
    ensures FoundAt(ops + [op], now, |ops|, d, j, g, y)
  {
    hide Accepted, Run;
    assert (ops + [op])[..|ops|] == ops && (ops + [op])[|ops|] == op;
  }

  lemma OneMore(ops: seq<Op>, op: Op, now: int)
    ensures After(ops + [op], now) == Apply(op, After(ops, now))
  {
    hide Apply, Run;
    RunTwice(ops, [op], Start(now));
    RunOne(op, Run(ops, Start(now)));
  }

  lemma NewDocsUnchecked(op: Op, s: State, d: DocId)
    requires Inv(s) && d in Apply(op, s).docs && d !in s.docs
    ensures Apply(op, s).docs[d].verified < 0
  {
    hide Inv, Apply, KeepsDocs, SameFiles, DocsKept, CommitCheck, RecoverJob, DeleteRows, Create, CommitOutbox, Heartbeat;
    if IdleOp(op) {
      IdleLeaves(op, s);
    } else if BatchOp(op) {
      BatchLeaves(op, s);
    } else if op.CreateOp? {
      WritingOps(op, s);
      CreateShape(s, op.owner, op.key, op.hash, op.job, op.docs);
      NewDocsShape(s.docs, op.docs, op.job, s.now);
    } else if op.DeleteRowsOp? {
      WritingOps(op, s);
      RowsKept(s, op.id);
    } else {
      WritingStepKeeps(op, s);
      FilesJobs(s.docs, Apply(op, s).docs);
    }
  }

  /** Along every run from nothing: what a row says it was verified as is what a chunk accepted in that
      generation found. */
  lemma {:induction false} VersionsTraced(ops: seq<Op>, now: int, d: DocId) returns (i: nat)
    requires d in After(ops, now).docs && After(ops, now).docs[d].verified >= 0
    ensures var y := After(ops, now).docs[d]; FoundAt(ops, now, i, d, y.job, y.verified, y)
    decreases |ops|
  {
    hide Run, Inv, Apply, Accepted, FoundAt;
    if ops == [] {
      assert After(ops, now) == Start(now) by { EmptyRun(Start(now)); }
      assert false;
    } else {
      var n := |ops| - 1;
      var front, op := ops[..n], ops[n];
      assert ops == front + [op];
      OneMore(front, op, now);
      Reachable(front, now);
      var s, r := After(front, now), After(ops, now);
      if d !in s.docs {
        NewDocsUnchecked(op, s, d);
        assert false;
      } else {
        StepKeeps(op, s);
        var j := s.docs[d].job;
        if Accepted(op, s, j) {
          ChunkOutcome(front, now, op, j);
          PickedIsOwn(s, op, j);
          if d in op.found {
            FoundNow(front, op, now, d, j, s.jobs[j].generation, r.docs[d]);
            i := n;
            return;
          }
        }
        i := VersionsTraced(front, now, d);
        SameTrace(front, now, i, d, s.docs[d], r.docs[d]);
        FoundEarlier(front, op, now, i, d, r.docs[d].job, r.docs[d].verified, r.docs[d]);
      }
    }
  }

  lemma SameTrace(ops: seq<Op>, now: int, i: nat, d: DocId, x: Doc, y: Doc)
    requires FoundAt(ops, now, i, d, x.job, x.verified, x) && y.job == x.job && y.verified == x.verified && y.version == x.version
    ensures FoundAt(ops, now, i, d, y.job, y.verified, y)
  {
    hide Accepted, Run;
  }

  /** Every document that has left UPLOADING has the version that a chunk, accepted in its job's current
      generation, found of it. */
  lemma QueuedVersionWasFound(ops: seq<Op>, now: int, d: DocId) returns (i: nat)
    requires d in After(ops, now).docs && After(ops, now).docs[d].status != Uploading
    ensures var s := After(ops, now);
            var y := s.docs[d];
            y.job in s.jobs && i < |ops| && Accepted(ops[i], After(ops[..i], now), y.job) &&
            After(ops[..i], now).verifiers[ops[i].token].generation == s.jobs[y.job].generation &&
            d in ops[i].found && ops[i].found[d].Valid? && y.version == Some(ops[i].found[d].version)
  {
    hide Run, Accepted, Fenced, Checks, RowsRead, Distinct, Agrees, ListedJobs;
    Reachable(ops, now);
    var s := After(ops, now);
    assert Lifecycle(s.docs[d], s.jobs[s.docs[d].job], d in s.outbox);
    i := VersionsTraced(ops, now, d);
  }

  // ---------------------------------------------------------------- batches

  /** create() under a free key: one UPLOADING job with its one to 4000 documents, nothing verified yet. */
  lemma CreateOutcome(ops: seq<Op>, now: int, owner: nat, key: string, hash: string, j: JobId, ds: set<DocId>)
    requires var s := After(ops, now);
             j !in s.usedJobs && ds !! s.usedDocs && forall i :: i in s.jobs ==> !(s.jobs[i].owner == owner && s.jobs[i].idempotencyKey == key)
    ensures var s := After(ops, now);
            var r := Create(s, owner, key, hash, j, ds);
            if 1 <= |ds| <= 4000
            then r.jobs == s.jobs[j := Job(owner, key, hash, JUploading, 0, None, None, s.now, s.now)] &&
                 (forall d :: d in r.docs <==> d in s.docs || d in ds) && (forall d :: d in s.docs ==> r.docs[d] == s.docs[d]) &&
                 forall d :: d in ds ==>
                   r.docs[d].job == j && r.docs[d].status == Uploading && r.docs[d].attempts == 0 && r.docs[d].verified < 0 &&
                   r.docs[d].version == None && r.docs[d].token == None
            else r == s
  {
    hide Run, Inv;
    Reachable(ops, now);
    var s := After(ops, now);
    RowsUsed(s);
    assert Existing(s.jobs, owner, key) == {};
    NewDocsShape(s.docs, ds, j, s.now);
  }

  /** submit() starts a new generation of an UPLOADING job, and does nothing else. */
  lemma SubmitOutcome(s: State, j: JobId)
    ensures var r := Submit(s, j);
            if j in s.jobs && s.jobs[j].status == JUploading
            then j in r.jobs && r.jobs[j].status == JVerifying && r.jobs[j].generation == s.jobs[j].generation + 1 && r.jobs[j].checker == None &&
                 r.jobs[j].checkUntil == None && r.docs == s.docs && r.outbox == s.outbox && forall i :: i in s.jobs && i != j ==> r.jobs[i] == s.jobs[i]
            else r == s
  {
  }

  /** delete() marks any job DELETING as of now, the first time, and clears its outbox rows. */
  lemma DeleteOutcome(s: State, j: JobId, d: DocId)
    requires j in s.jobs
    ensures var r := Delete(s, j);
            j in r.jobs && r.jobs[j].status == JDeleting && r.docs == s.docs &&
            r.jobs[j].updated == (if s.jobs[j].status == JDeleting then s.jobs[j].updated else s.now) &&
            (d in r.outbox <==> d in s.outbox && !(d in s.docs && s.docs[d].job == j))
  {
  }

  /** Uploads are given up after 86400 seconds. */
  lemma ExpireIff(s: State, j: JobId)
    requires j in s.jobs
    ensures j in ExpireUploads(s).jobs
    ensures ExpireUploads(s).jobs[j].status == JDeleting <==>
            s.jobs[j].status == JDeleting || (s.jobs[j].status == JUploading && s.jobs[j].created < s.now - 86400)
  {
  }

  /** A deleted job's rows and an orphan are cleaned up after 1200 seconds. */
  lemma CleanupTimes(s: State, j: JobId, i: nat, k: Key)
    requires i !in s.collections && j !in s.doomed
    ensures j in ListDeleting(s, j).doomed <==> j in s.jobs && s.jobs[j].status == JDeleting && s.jobs[j].updated < s.now - 1200
    ensures i in ListOrphan(s, i, k).collections <==> k in s.orphans && s.orphans[k] < s.now - 1200
  {
  }
}
