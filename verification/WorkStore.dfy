/** The database and the object store as one mutable object: each method is one atomic step, or one
    operation run through without interruption, and does what the step functions say of the same rows. */
module WorkStore {
  import opened Text
  import opened Ledger
  import opened Steps
  import opened Invariants
  import opened Runs
  import opened Guarantees
  import opened Effects

  class Database {
    var now: int
    var jobs: map<JobId, Job>
    var docs: map<DocId, Doc>
    var outbox: map<DocId, int>
    var orphans: map<Key, int>
    var blobs: set<Key>
    // What has been issued, and what is under way elsewhere.
    ghost var usedJobs: set<JobId>
    ghost var usedDocs: set<DocId>
    ghost var claims: map<Token, Claim>
    ghost var completes: map<Token, Complete>
    ghost var verifiers: map<Token, Verifier>
    ghost var expired: set<JobId>
    ghost var dispatches: map<nat, map<DocId, int>>
    ghost var doomed: set<JobId>
    ghost var sweeps: map<nat, Sweep>
    ghost var collections: map<nat, Collection>

    ghost function View(): State
      reads this
    {
      State(now, jobs, docs, outbox, orphans, blobs, usedJobs, usedDocs, claims, completes, verifiers, expired,
            dispatches, doomed, sweeps, collections)
    }

    constructor (clock: int)
      ensures View() == Start(clock)
    {
      now := clock;
      jobs, docs, outbox, orphans, blobs := map[], map[], map[], map[], {};
      usedJobs, usedDocs, claims, completes, verifiers := {}, {}, map[], map[], map[];
      expired, dispatches, doomed, sweeps, collections := {}, map[], {}, map[], map[];
    }

    // -------------------------------------------------------------- claims

    /** UPDATE jobs SET status = CASE ... END, of a job that is not DELETING. */
    method RefreshJob(job: JobId)
      modifies this`jobs
      ensures jobs == Refresh(old(jobs), docs, job, now)
    {
      if job in jobs && !jobs[job].status.JDeleting? {
        jobs := jobs[job := jobs[job].(status := Summary(Statuses(docs, job)), updated := now)];
      }
    }

    /** claim(); token is the UUID drawn for it. */
    method ClaimDocument(document: DocId, token: Token) returns (c: Option<Claim>)
      requires token !in claims
      modifies this`docs, this`jobs, this`claims
      ensures View() == ClaimDoc(old(View()), document, token)
      ensures c.Some? <==> token in claims
      ensures Inv(old(View())) ==> (c.Some? <==> Ready(old(View()), document))
      ensures c.Some? ==> claims[token] == c.value && Passes(View(), token)
    {
      hide ClaimDoc, Passes, Inv, Ready;
      ghost var before := View();
      ClaimDocCases(before, document, token);
      ClaimIssues(before, document, token);
      if document !in docs {
        return None;
      }
      var row := docs[document];
      if row.job !in jobs || !Working(jobs[row.job].status) {
        return None;
      }
      if !Waiting(row.status) || row.available > now || row.attempts >= MAX_ATTEMPTS {
        return None;
      }
      row := row.(status := Processing, attempts := row.attempts + 1, token := Some(token), lease := Some(now + LEASE));
      docs := docs[document := row];
      jobs := jobs[row.job := jobs[row.job].(status := JProcessing, updated := now)];
      var claim := Claim(document, row.job, row.version, row.attempts);
      claims := claims[token := claim];
      ClaimedPasses(before, document, token);
      return Some(claim);
    }

    /** lock(). */
    method Lock(c: Claim, token: Token) returns (ok: bool)
      requires token in claims && claims[token] == c
      ensures ok <==> Passes(View(), token)
    {
      if c.job !in jobs || jobs[c.job].status.JDeleting? {
        return false;
      }
      return c.doc in docs && Held(docs[c.doc], token, now);
    }

    /** heartbeat(): false tells the worker that its claim is no longer good. */
    method Heartbeat(c: Claim, token: Token) returns (alive: bool)
      requires token in claims && claims[token] == c
      modifies this
      ensures View() == Steps.Heartbeat(old(View()), token)
      ensures Inv(old(View())) ==> (alive <==> Passes(old(View()), token))
    {
      hide Inv;
      HeartbeatMeans(View(), token);
      alive := c.doc in docs && Held(docs[c.doc], token, now) && docs[c.doc].job in jobs && !jobs[docs[c.doc].job].status.JDeleting?;
      if alive {
        docs := docs[c.doc := docs[c.doc].(lease := Some(now + LEASE))];
      }
    }

    // -------------------------------------------------------------- complete(), step by step

    /** The first lock()'s SELECT on the job. */
    method LockJob(c: Claim, token: Token) returns (ok: bool)
      requires token in claims && claims[token] == c && token !in completes
      modifies this
      ensures View() == ReadJob(old(View()), token)
      ensures ok <==> token in completes
    {
      ok := c.job in jobs && !jobs[c.job].status.JDeleting?;
      if ok {
        completes := completes[token := Complete(now, Opened)];
      }
    }

    /** The first lock()'s SELECT on the document. */
    method LockDocument(c: Claim, token: Token) returns (ok: bool)
      requires token in claims && claims[token] == c && token in completes && completes[token].phase.Opened?
      modifies this
      ensures View() == LockResult(old(View()), token)
      ensures ok <==> completes[token].phase.Locked?
    {
      ok := c.doc in docs && Held(docs[c.doc], token, now);
      if ok {
        completes := completes[token := completes[token].(phase := Locked)];
      }
    }

    /** Both in one go, which they need not be. */
    method LockForComplete(c: Claim, token: Token) returns (ok: bool)
      requires token in claims && claims[token] == c && token !in completes
      modifies this
      ensures View() == LockResult(ReadJob(old(View()), token), token)
      ensures ok <==> token in completes && completes[token].phase.Locked?
      ensures ok <==> Passes(old(View()), token)
    {
      ok := LockJob(c, token);
      if ok {
        ok := LockDocument(c, token);
      }
    }

    method RecordOrphan(c: Claim, token: Token, key: Key)
      requires token in claims && claims[token] == c && key == Key(c.job, c.doc, token)
      requires token in completes && completes[token].phase.Locked?
      modifies this
      ensures View() == RecordResult(old(View()), token)
    {
      if key !in orphans {
        orphans := orphans[key := now];
      }
      completes := completes[token := completes[token].(phase := Recorded(now))];
    }

    method Upload(c: Claim, token: Token, key: Key)
      requires token in claims && claims[token] == c && key == Key(c.job, c.doc, token)
      requires token in completes && completes[token].phase.Recorded?
      modifies this
      ensures View() == UploadResult(old(View()), token)
    {
      blobs := blobs + {key};
      completes := completes[token := completes[token].(phase := Uploaded(completes[token].phase.at))];
    }

    method CommitComplete(c: Claim, token: Token, key: Key) returns (done: bool)
      requires token in claims && claims[token] == c && key == Key(c.job, c.doc, token)
      requires token in completes && completes[token].phase.Uploaded?
      modifies this
      ensures View() == CommitResult(old(View()), token)
      ensures done <==> completes[token].phase.Committed?
    {
      var held := Lock(c, token);
      if !held {
        return false;
      }
      docs := docs[c.doc := docs[c.doc].(status := Succeeded, resultKey := Some(key), error := None, lease := None)];
      RefreshJob(c.job);
      orphans := orphans - {key};
      completes := completes[token := completes[token].(phase := Committed)];
      return true;
    }

    /** fail()'s writes, for a claim that passed lock(). */
    method WriteFailure(c: Claim, code: string, retry: bool, delay: int)
      requires c.doc in docs
      modifies this`docs, this`outbox, this`jobs
      ensures View() == Stop(old(View()), c, code, retry, now + delay)
    {
      hide Refresh;
      docs := docs[c.doc := docs[c.doc].(status := if retry then RetryWait else Failed, error := Some(code), lease := None,
                                         available := now + delay)];
      if retry {
        outbox := outbox[c.doc := now + delay];
      }
      RefreshJob(c.job);
    }

    /** fail(): true when the document will not be tried again. */
    method FailClaim(c: Claim, token: Token, code: string, retryable: bool) returns (terminal: bool)
      requires token in claims && claims[token] == c
      modifies this`docs, this`outbox, this`jobs
      ensures View() == Fail(old(View()), token, code, retryable)
      ensures terminal <==> Passes(old(View()), token) && !Retries(c, retryable)
    {
      hide Stop, Held;
      var held := Lock(c, token);
      if !held {
        return false;
      }
      var retry := retryable && c.attempt < MAX_ATTEMPTS;
      var delay := if c.attempt == 1 then 30 else 120;
      WriteFailure(c, code, retry, delay);
      return !retry;
    }

    // -------------------------------------------------------------- recover() and dispatch()

    ghost method ListExpiredJobs(js: set<JobId>)
      requires |js| <= RECOVER_BATCH
      requires forall j :: j in js ==> exists d :: d in docs && docs[d].job == j && Expired(docs[d], now)
      modifies this`expired
      ensures View() == ListExpired(old(View()), js) && expired == old(expired) + js
    {
      hide Expired;
      expired := expired + js;
    }

    method RecoverOne(job: JobId)
      requires job in expired
      modifies this`docs, this`jobs
      ensures View() == RecoverJob(old(View()), job)
    {
      if job !in jobs || jobs[job].status.JDeleting? {
        return;
      }
      docs := RecoveredDocs(docs, job, now);
      RefreshJob(job);
    }

    method EnqueueOverdue()
      modifies this`outbox
      ensures View() == Enqueue(old(View()))
    {
      outbox := (map d | d in docs && Overdue(jobs, docs[d], now) :: docs[d].available) + outbox;
    }

    /** recover(), undisturbed: listed are the rows of its first SELECT. */
    method Recover(listed: seq<JobId>) returns (ghost ops: seq<Op>)
      requires |listed| <= RECOVER_BATCH
      requires forall j :: j in listed ==> exists d :: d in docs && docs[d].job == j && Expired(docs[d], now)
      modifies this`expired, this`docs, this`jobs, this`outbox
      ensures View() == Run(ops, old(View()))
      ensures forall d :: d in docs && Waiting(docs[d].status) && docs[d].job in jobs && Working(jobs[docs[d].job].status) ==>
                d in outbox || (docs[d].lastEnqueued.Some? && docs[d].lastEnqueued.value >= now - LEASE)
    {
      hide Apply, Run, ListExpired, RecoverJob, Enqueue, Expired;
      ghost var start := View();
      ghost var js := ListedSet(listed);
      DistinctRows(listed);
      ListExpiredJobs(js);
      ops := [ListExpiredOp(js)];
      ListExpiredApplied(start, js);
      OneStep(ListExpiredOp(js), start, View());
      for i := 0 to |listed|
        invariant View() == Run(ops, start) && forall j :: j in listed ==> j in expired
      {
        ghost var before := View();
        RecoverOne(listed[i]);
        RecoverJobApplied(before, listed[i]);
        NextStep(ops, RecoverJobOp(listed[i]), start, before, View());
        ops := ops + [RecoverJobOp(listed[i])];
      }
      ghost var last := View();
      EnqueueOverdue();
      EnqueueApplied(last);
      NextStep(ops, EnqueueOp, start, last, View());
      ops := ops + [EnqueueOp];
      forall d | d in docs && Waiting(docs[d].status) && docs[d].job in jobs && Working(jobs[docs[d].job].status)
        ensures d in outbox || (docs[d].lastEnqueued.Some? && docs[d].lastEnqueued.value >= now - LEASE)
      {
        EnqueueRequeues(last, d);
      }
    }

    /** One batch: read, published, committed. */
    method DeliverBatch(ds: set<DocId>, ghost i: nat)
      requires i !in dispatches && DueBatch(View(), ds)
      modifies this`docs, this`outbox, this`dispatches
      ensures View() == CommitOutbox(ReadOutbox(old(View()), i, ds), i) && i !in dispatches
    {
      hide DueBatch;
      var rows := map d | d in ds && d in outbox :: outbox[d];
      dispatches := dispatches[i := rows];
      docs := map d | d in docs :: if d in rows then docs[d].(lastEnqueued := Some(now)) else docs[d];
      outbox := outbox - Delivered(outbox, rows);
      dispatches := dispatches - {i};
    }

    /** dispatch(), undisturbed: select is its SELECT, late its deadline, published the stream's answer. */
    method Dispatch(select: (map<DocId, int>, int) -> set<DocId>, late: nat -> bool, published: nat -> bool, ghost i: nat)
      returns (drained: bool, ghost ops: seq<Op>)
      requires i !in dispatches && forall s: State :: DueBatch(s, select(s.outbox, s.now))
      modifies this`docs, this`outbox, this`dispatches
      ensures View() == Run(ops, old(View())) && |ops| <= 80
      ensures drained ==> forall d :: d in outbox ==> outbox[d] > now
    {
      hide Apply, Run, ReadOutbox, CommitOutbox, DueBatch;
      ghost var start := View();
      ops := [];
      EmptyRun(start);
      for batch := 0 to 40
        invariant View() == Run(ops, start) && |ops| <= 2 * batch && i !in dispatches
      {
        if late(batch) {
          return false, ops;
        }
        var ds := select(outbox, now);
        assert DueBatch(View(), select(View().outbox, View().now));
        if ds == {} {
          NothingDue(View());
          return true, ops;
        }
        if !published(batch) {
          return false, ops;
        }
        ghost var before := View();
        DeliverBatch(ds, i);
        ghost var read := ReadOutbox(before, i, ds);
        ReadOutboxApplied(before, i, ds);
        NextStep(ops, ReadOutboxOp(i, ds), start, before, read);
        CommitOutboxApplied(read, i);
        NextStep(ops + [ReadOutboxOp(i, ds)], CommitOutboxOp(i), start, read, View());
        ops := ops + [ReadOutboxOp(i, ds)] + [CommitOutboxOp(i)];
        if |ds| < BATCH {
          AllDelivered(before, ds, i);
          return true, ops;
        }
      }
      return false, ops;
    }

    // -------------------------------------------------------------- chunk()

    method ClaimChunk(job: JobId, token: Token) returns (generation: Option<nat>)
      requires token !in verifiers
      modifies this`jobs, this`verifiers
      ensures View() == ClaimCheck(old(View()), job, token)
      ensures generation.None? ==> View() == old(View())
      ensures generation.Some? ==> token in verifiers && verifiers[token] == Verifier(job, generation.value, Claimed)
    {
      if job !in jobs || !CanCheck(jobs[job], now) {
        return None;
      }
      jobs := jobs[job := jobs[job].(checker := Some(token), checkUntil := Some(now + CHECK_LEASE))];
      verifiers := verifiers[token := Verifier(job, jobs[job].generation, Claimed)];
      return Some(jobs[job].generation);
    }

    ghost method PickChunk(token: Token, ds: set<DocId>)
      requires token in verifiers && verifiers[token].stage.Claimed?
      requires FirstBatch(ds, Unchecked(docs, verifiers[token].job, verifiers[token].generation))
      modifies this`verifiers
      ensures View() == PickDocs(old(View()), token, ds)
      ensures token in verifiers && verifiers[token] == old(verifiers[token]).(stage := Picked(ds))
    {
      verifiers := verifiers[token := verifiers[token].(stage := Picked(ds))];
    }

    /** What the accepted chunk writes. */
    method WriteChunk(job: JobId, generation: nat, found: map<DocId, Check>)
      requires job in jobs && jobs[job].generation == generation
      modifies this`docs, this`outbox, this`jobs
      ensures View() == Conclude(old(View()).(docs := CheckedDocs(old(docs), job, generation, found)), job)
    {
      hide CheckedDocs, Unchecked, AnyInvalid, QueuedDocs, DocsOf;
      docs := CheckedDocs(docs, job, generation, found);
      if Unchecked(docs, job, generation) == {} {
        var invalid := AnyInvalid(docs, job);
        if !invalid {
          outbox := (map d | d in DocsOf(docs, job) :: now) + outbox;
          docs := QueuedDocs(docs, job);
        }
        jobs := jobs[job := jobs[job].(status := if invalid then JUploading else JQueued, updated := now)];
      }
    }

    method CommitChunk(job: JobId, token: Token, generation: nat, found: map<DocId, Check>)
      requires token in verifiers && verifiers[token] == Verifier(job, generation, Picked(found.Keys))
      modifies this`docs, this`outbox, this`jobs, this`verifiers
      ensures View() == CommitCheck(old(View()), token, found)
      ensures token in verifiers && verifiers[token].job == job
    {
      hide CheckedDocs, Conclude, CommitCheck;
      ghost var before := View();
      CommitCheckCases(before, token, found);
      var held := job in jobs && jobs[job].status.JVerifying? && jobs[job].generation == generation &&
                  jobs[job].checker == Some(token) && jobs[job].checkUntil.Some? && jobs[job].checkUntil.value > now;
      assert held <==> HoldsCheck(before, token);
      verifiers := verifiers[token := verifiers[token].(stage := Finished)];
      if held {
        hide HoldsCheck;
        ghost var finished := View();
        WriteChunk(job, generation, found);
        ConcludeVerifiers(finished.(docs := CheckedDocs(finished.docs, job, generation, found)), job);
      }
    }

    method EndChunk(job: JobId, token: Token)
      requires token in verifiers && verifiers[token].job == job
      modifies this`jobs, this`verifiers
      ensures View() == EndCheck(old(View()), token)
    {
      if job in jobs && jobs[job].checker == Some(token) {
        jobs := jobs[job := jobs[job].(checker := None, checkUntil := None)];
      }
      verifiers := verifiers[token := verifiers[token].(stage := Finished)];
    }

    /** chunk(), undisturbed: select is its SELECT, head the object store's answers, None a failed call. */
    method Chunk(job: JobId, token: Token, select: set<DocId> -> set<DocId>, head: DocId -> Option<Check>)
      returns (worked: bool, ghost ops: seq<Op>)
      requires token !in verifiers && forall all: set<DocId> :: FirstBatch(select(all), all)
      modifies this`docs, this`outbox, this`jobs, this`verifiers
      ensures View() == Run(ops, old(View()))
      ensures !worked ==> View() == old(View())
    {
      hide Apply, Run, FirstBatch, Unchecked, ClaimCheck, PickDocs, CommitCheck, EndCheck;
      ghost var start := View();
      var generation := ClaimChunk(job, token);
      if generation.None? {
        EmptyRun(start);
        return false, [];
      }
      ClaimCheckApplied(start, job, token);
      OneStep(ClaimCheckOp(job, token), start, View());
      ops := [ClaimCheckOp(job, token)];
      ghost var claimed := View();
      var picked := select(Unchecked(docs, job, generation.value));
      PickChunk(token, picked);
      PickDocsApplied(claimed, token, picked);
      NextStep(ops, PickDocsOp(token, picked), start, claimed, View());
      ops := ops + [PickDocsOp(token, picked)];
      if forall d :: d in picked ==> head(d).Some? {
        var found := map d | d in picked :: head(d).value;
        assert found.Keys == picked;
        ghost var before := View();
        CommitChunk(job, token, generation.value, found);
        CommitCheckApplied(before, token, found);
        NextStep(ops, CommitCheckOp(token, found), start, before, View());
        ops := ops + [CommitCheckOp(token, found)];
      }
      ghost var last := View();
      EndChunk(job, token);
      EndCheckApplied(last, token);
      NextStep(ops, EndCheckOp(token), start, last, View());
      ops := ops + [EndCheckOp(token)];
      return true, ops;
    }

    // -------------------------------------------------------------- the API

    method InsertJob(owner: nat, key: string, hash: string, drawn: JobId, files: set<DocId>)
      requires drawn !in usedJobs && files !! usedDocs && 1 <= |files| <= MAX_DOCUMENTS && Existing(jobs, owner, key) == {}
      modifies this`jobs, this`docs, this`usedJobs, this`usedDocs
      ensures View() == Create(old(View()), owner, key, hash, drawn, files)
      ensures drawn in jobs && jobs[drawn] == NewJob(owner, key, hash, now)
    {
      hide Existing;
      jobs := jobs[drawn := NewJob(owner, key, hash, now)];
      docs := docs + map d | d in files :: NewDoc(drawn, now);
      usedJobs, usedDocs := usedJobs + {drawn}, usedDocs + files;
    }

    /** create(): the job an owner already has under this key, or a new one; None is a conflict. */
    method CreateJob(owner: nat, key: string, hash: string, drawn: JobId, files: set<DocId>) returns (job: Option<JobId>)
      requires drawn !in usedJobs && files !! usedDocs && 1 <= |files| <= MAX_DOCUMENTS
      modifies this`jobs, this`docs, this`usedJobs, this`usedDocs
      ensures View() == Create(old(View()), owner, key, hash, drawn, files)
      ensures job.Some? ==> job.value in jobs && Owns(jobs[job.value], owner, key) && jobs[job.value].manifestHash == hash
      ensures job.None? ==> exists j :: j in old(jobs) && Owns(old(jobs)[j], owner, key) && old(jobs)[j].manifestHash != hash
    {
      var existing := Existing(jobs, owner, key);
      if existing != {} {
        NothingCreated(View(), owner, key, hash, drawn, files);
        hide Create;
        var j :| j in existing;
        if jobs[j].manifestHash != hash {
          return None;
        }
        return Some(j);
      }
      hide Create;
      InsertJob(owner, key, hash, drawn, files);
      return Some(drawn);
    }

    /** submit(): None is the refusal to submit a job that is being deleted. */
    method SubmitJob(job: JobId) returns (status: Option<JobStatus>)
      requires job in jobs
      modifies this
      ensures View() == Submit(old(View()), job)
      ensures status == if old(jobs[job].status).JDeleting? then None else Some(jobs[job].status)
    {
      var row := jobs[job];
      if row.status.JDeleting? {
        return None;
      }
      if row.status.JUploading? {
        row := row.(status := JVerifying, generation := row.generation + 1, checker := None, checkUntil := None, updated := now);
        jobs := jobs[job := row];
      }
      return Some(row.status);
    }

    method DeleteJob(job: JobId)
      requires job in jobs
      modifies this
      ensures View() == Delete(old(View()), job)
    {
      if !jobs[job].status.JDeleting? {
        jobs := jobs[job := jobs[job].(status := JDeleting, updated := now)];
      }
      outbox := outbox - DocsOf(docs, job);
    }

    // -------------------------------------------------------------- cleanup()

    ghost method ListDeletingJob(job: JobId)
      requires job in jobs && jobs[job].status.JDeleting? && jobs[job].updated < now - GRACE
      modifies this`doomed
      ensures View() == ListDeleting(old(View()), job) && job in doomed
    {
      doomed := doomed + {job};
    }

    ghost method BeginSweep(job: JobId, i: nat)
      requires job in doomed && i !in sweeps
      modifies this`sweeps
      ensures View() == StartSweep(old(View()), i, job) && i in sweeps && sweeps[i] == Sweep(job, BlobsOf(blobs, job))
    {
      sweeps := sweeps[i := Sweep(job, BlobsOf(blobs, job))];
    }

    method DeleteBlob(key: Key, ghost i: nat)
      requires i in sweeps && key in sweeps[i].remaining
      modifies this`blobs, this`sweeps
      ensures View() == SweepBlob(old(View()), i, key) && blobs == old(blobs) - {key}
      ensures i in sweeps && sweeps[i] == old(sweeps[i]).(remaining := old(sweeps[i]).remaining - {key})
    {
      blobs := blobs - {key};
      sweeps := sweeps[i := sweeps[i].(remaining := sweeps[i].remaining - {key})];
    }

    /** deletePrefix("jobs/<job>/"), one object at a time. */
    method DeletePrefix(job: JobId, ghost i: nat) returns (ghost ops: seq<Op>)
      requires i in sweeps && sweeps[i] == Sweep(job, BlobsOf(blobs, job))
      modifies this`blobs, this`sweeps
      ensures View() == Run(ops, old(View()))
      ensures i in sweeps && sweeps[i] == Sweep(job, {}) && blobs == old(blobs) - BlobsOf(old(blobs), job)
    {
      hide Apply, Run, SweepBlob;
      ghost var start := View();
      ops := [];
      EmptyRun(start);
      var keys := BlobsOf(blobs, job);
      while keys != {}
        invariant View() == Run(ops, start)
        invariant i in sweeps && sweeps[i] == Sweep(job, keys) && keys <= BlobsOf(old(blobs), job)
        invariant blobs == old(blobs) - (BlobsOf(old(blobs), job) - keys)
      {
        var k :| k in keys;
        ghost var before := View();
        DeleteBlob(k, i);
        keys := keys - {k};
        SweepBlobApplied(before, i, k);
        NextStep(ops, SweepBlobOp(i, k), start, before, View());
        ops := ops + [SweepBlobOp(i, k)];
      }
    }

    /** DELETE FROM jobs WHERE id=? AND status='DELETING', with its cascades. */
    method DeleteJobRows(job: JobId, ghost i: nat)
      requires i in sweeps && sweeps[i] == Sweep(job, {})
      modifies this`jobs, this`docs, this`outbox, this`sweeps
      ensures View() == DeleteRows(old(View()), i)
    {
      hide DocsOf;
      sweeps := sweeps - {i};
      if job in jobs && jobs[job].status.JDeleting? {
        var gone := DocsOf(docs, job);
        jobs, docs, outbox := jobs - {job}, docs - gone, outbox - gone;
      }
    }

    /** One job of cleanup(), listed as long DELETING: its blobs first, then its rows. */
    method RemoveJob(job: JobId, ghost i: nat) returns (ghost ops: seq<Op>)
      requires job in jobs && jobs[job].status.JDeleting? && jobs[job].updated < now - GRACE && i !in sweeps
      modifies this`doomed, this`sweeps, this`blobs, this`jobs, this`docs, this`outbox
      ensures View() == Run(ops, old(View()))
      ensures job !in jobs && BlobsOf(blobs, job) == {} && DocsOf(docs, job) == {}
    {
      hide Apply, Run, BlobsOf, ListDeleting, StartSweep, DeleteRows, DocsOf;
      ghost var start := View();
      ListDeletingJob(job);
      ListDeletingApplied(start, job);
      OneStep(ListDeletingOp(job), start, View());
      ghost var listed := View();
      BeginSweep(job, i);
      StartSweepApplied(listed, i, job);
      NextStep([ListDeletingOp(job)], StartSweepOp(i, job), start, listed, View());
      ghost var swept := View();
      ghost var more := DeletePrefix(job, i);
      NoBlobsLeft(swept.blobs, job);
      RunTwice([ListDeletingOp(job)] + [StartSweepOp(i, job)], more, start);
      ops := [ListDeletingOp(job)] + [StartSweepOp(i, job)] + more;
      ghost var last := View();
      DeleteJobRows(job, i);
      DeleteRowsApplied(last, i);
      NextStep(ops, DeleteRowsOp(i), start, last, View());
      ops := ops + [DeleteRowsOp(i)];
      RowsGone(last, i, job);
    }

    ghost method ListOrphanKey(key: Key, i: nat)
      requires key in orphans && orphans[key] < now - GRACE && i !in collections
      modifies this`collections
      ensures View() == ListOrphan(old(View()), i, key) && i in collections && collections[i] == Collection(key, Listed)
    {
      collections := collections[i := Collection(key, Listed)];
    }

    /** SELECT count(*) FROM documents WHERE result_key=?. */
    method CheckOrphanKey(key: Key, ghost i: nat) returns (used: bool)
      requires i in collections && collections[i] == Collection(key, Listed)
      modifies this`collections
      ensures View() == CheckOrphan(old(View()), i) && used == Referenced(docs, key)
      ensures i in collections && collections[i] == Collection(key, if used then Spared else Condemned)
    {
      used := Referenced(docs, key);
      collections := collections[i := Collection(key, if used then Spared else Condemned)];
    }

    method SweepOrphanKey(key: Key, ghost i: nat)
      requires i in collections && collections[i] == Collection(key, Condemned)
      modifies this`collections, this`blobs
      ensures View() == SweepOrphan(old(View()), i) && blobs == old(blobs) - {key}
      ensures i in collections && collections[i] == Collection(key, Swept)
    {
      blobs := blobs - {key};
      collections := collections[i := Collection(key, Swept)];
    }

    method DeleteOrphanKey(key: Key, ghost i: nat)
      requires i in collections && collections[i].key == key && (collections[i].verdict.Swept? || collections[i].verdict.Spared?)
      modifies this`collections, this`orphans
      ensures View() == DeleteOrphan(old(View()), i) && orphans == old(orphans) - {key}
    {
      orphans := orphans - {key};
      collections := collections - {i};
    }

    /** One orphan of cleanup(): its blob goes unless a row refers to it, its own row in any case. */
    method CollectOrphan(key: Key, ghost i: nat) returns (ghost ops: seq<Op>)
      requires key in orphans && orphans[key] < now - GRACE && i !in collections
      modifies this`collections, this`blobs, this`orphans
      ensures View() == Run(ops, old(View()))
      ensures orphans == old(orphans) - {key} && blobs == (if Referenced(docs, key) then old(blobs) else old(blobs) - {key})
    {
      hide Apply, Run, Referenced, ListOrphan, CheckOrphan, SweepOrphan, DeleteOrphan;
      ghost var start := View();
      ListOrphanKey(key, i);
      ListOrphanApplied(start, i, key);
      OneStep(ListOrphanOp(i, key), start, View());
      ghost var listed := View();
      var used := CheckOrphanKey(key, i);
      CheckOrphanApplied(listed, i);
      NextStep([ListOrphanOp(i, key)], CheckOrphanOp(i), start, listed, View());
      ops := [ListOrphanOp(i, key)] + [CheckOrphanOp(i)];
      if !used {
        ghost var checked := View();
        SweepOrphanKey(key, i);
        SweepOrphanApplied(checked, i);
        NextStep(ops, SweepOrphanOp(i), start, checked, View());
        ops := ops + [SweepOrphanOp(i)];
      }
      ghost var last := View();
      DeleteOrphanKey(key, i);
      DeleteOrphanApplied(last, i);
      NextStep(ops, DeleteOrphanOp(i), start, last, View());
      ops := ops + [DeleteOrphanOp(i)];
    }
  }

  // ---------------------------------------------------------------- runs, one step longer

  lemma OneStep(op: Op, s: State, r: State)
    requires r == Apply(op, s)
    ensures r == Run([op], s)
  {
    hide Apply;
    RunOne(op, s);
  }

  lemma NextStep(ops: seq<Op>, op: Op, start: State, before: State, after: State)
    requires before == Run(ops, start) && after == Apply(op, before)
    ensures after == Run(ops + [op], start)
  {
    hide Apply, Run;
    RunTwice(ops, [op], start);
    RunOne(op, before);
  }

  ghost function ListedSet(listed: seq<JobId>): set<JobId> {
    set j | j in listed
  }

  lemma {:induction false} DistinctRows(listed: seq<JobId>)
    ensures |ListedSet(listed)| <= |listed|
  {
    if listed != [] {
      DistinctRows(listed[1..]);
      assert listed == [listed[0]] + listed[1..];
      assert ListedSet(listed) == {listed[0]} + ListedSet(listed[1..]);
    }
  }

  lemma NothingDue(s: State)
    requires DueBatch(s, {})
    ensures forall d :: d in s.outbox ==> s.outbox[d] > s.now
  {
  }

  lemma RowsGone(s: State, i: nat, j: JobId)
    requires i in s.sweeps && s.sweeps[i] == Sweep(j, {}) && j in s.jobs && s.jobs[j].status.JDeleting?
    ensures var r := DeleteRows(s, i); j !in r.jobs && DocsOf(r.docs, j) == {}
  {
  }

  lemma NothingCreated(s: State, owner: nat, key: string, hash: string, j: JobId, ds: set<DocId>)
    requires Existing(s.jobs, owner, key) != {}
    ensures Create(s, owner, key, hash, j, ds) == s
  {
  }

  lemma ClaimedPasses(s: State, d: DocId, t: Token)
    requires ClaimDoc(s, d, t) != s
    ensures t in ClaimDoc(s, d, t).claims && Passes(ClaimDoc(s, d, t), t)
  {
  }

  lemma ClaimDocCases(s: State, d: DocId, t: Token)
    requires t !in s.claims
    ensures ClaimDoc(s, d, t) ==
            if d in s.docs && s.docs[d].job in s.jobs && Claimable(s.docs[d], s.jobs[s.docs[d].job], s.now)
            then var x, j := s.docs[d], s.docs[d].job;
                 s.(docs := s.docs[d := x.(status := Processing, attempts := x.attempts + 1, token := Some(t), lease := Some(s.now + LEASE))],
                    jobs := s.jobs[j := s.jobs[j].(status := JProcessing, updated := s.now)],
                    claims := s.claims[t := Claim(d, j, x.version, x.attempts + 1)])
            else s
  {
    hide Claimable;
  }

  lemma CommitCheckCases(s: State, t: Token, found: map<DocId, Check>)
    requires t in s.verifiers && s.verifiers[t].stage == Picked(found.Keys)
    ensures var j, g := s.verifiers[t].job, s.verifiers[t].generation;
            var m := s.(verifiers := FinishCheck(s, t));
            CommitCheck(s, t, found) ==
              if HoldsCheck(s, t) then Conclude(m.(docs := CheckedDocs(s.docs, j, g, found)), j) else m
  {
    hide CheckedDocs, Conclude;
  }

  lemma QueuedVerifiers(m: State, j: JobId)
    requires j in m.jobs
    ensures AllQueued(m, j).verifiers == m.verifiers && Rejected(m, j).verifiers == m.verifiers
  {
    hide QueuedDocs, DocsOf;
  }

  lemma ConcludeVerifiers(m: State, j: JobId)
    requires j in m.jobs
    ensures Conclude(m, j).verifiers == m.verifiers
  {
    hide Unchecked, AnyInvalid, AllQueued, Rejected;
    QueuedVerifiers(m, j);
  }

  /** A batch that is not full held every due row. */
  lemma AllDelivered(s: State, ds: set<DocId>, i: nat)
    requires DueBatch(s, ds) && |ds| < BATCH && i !in s.dispatches
    ensures var r := CommitOutbox(ReadOutbox(s, i, ds), i); forall d :: d in r.outbox ==> r.outbox[d] > r.now
  {
  }

  lemma NoBlobsLeft(blobs: set<Key>, j: JobId)
    ensures BlobsOf(blobs - BlobsOf(blobs, j), j) == {}
  {
  }

  lemma HeartbeatMeans(s: State, t: Token)
    requires t in s.claims
    ensures Inv(s) ==>
              (Passes(s, t) <==>
                 var c := s.claims[t];
                 c.doc in s.docs && Held(s.docs[c.doc], t, s.now) && s.docs[c.doc].job in s.jobs && !s.jobs[s.docs[c.doc].job].status.JDeleting?)
  {
    hide Held, Rows, Checks, RowsRead, Tokens, Results, OneWinner;
    if Inv(s) {
      assert ClaimFits(t, s.claims[t], s.docs, s.usedDocs);
    }
  }

  // ---------------------------------------------------------------- a step by its name

  lemma RecoverJobApplied(s: State, j: JobId)
    ensures Apply(RecoverJobOp(j), s) == RecoverJob(s, j)
  {
    hide RecoverJob;
  }

  lemma EnqueueApplied(s: State)
    ensures Apply(EnqueueOp, s) == Enqueue(s)
  {
    hide Enqueue;
  }

  lemma ReadOutboxApplied(s: State, i: nat, ds: set<DocId>)
    ensures Apply(ReadOutboxOp(i, ds), s) == ReadOutbox(s, i, ds)
  {
    hide ReadOutbox;
  }

  lemma CommitOutboxApplied(s: State, i: nat)
    ensures Apply(CommitOutboxOp(i), s) == CommitOutbox(s, i)
  {
    hide CommitOutbox;
  }

  lemma ClaimCheckApplied(s: State, j: JobId, t: Token)
    ensures Apply(ClaimCheckOp(j, t), s) == ClaimCheck(s, j, t)
  {
    hide ClaimCheck;
  }

  lemma PickDocsApplied(s: State, t: Token, ds: set<DocId>)
    ensures Apply(PickDocsOp(t, ds), s) == PickDocs(s, t, ds)
  {
    hide PickDocs;
  }

  lemma CommitCheckApplied(s: State, t: Token, found: map<DocId, Check>)
    ensures Apply(CommitCheckOp(t, found), s) == CommitCheck(s, t, found)
  {
    hide CommitCheck;
  }

  lemma EndCheckApplied(s: State, t: Token)
    ensures Apply(EndCheckOp(t), s) == EndCheck(s, t)
  {
    hide EndCheck;
  }

  lemma ListDeletingApplied(s: State, j: JobId)
    ensures Apply(ListDeletingOp(j), s) == ListDeleting(s, j)
  {
    hide ListDeleting;
  }

  lemma StartSweepApplied(s: State, i: nat, j: JobId)
    ensures Apply(StartSweepOp(i, j), s) == StartSweep(s, i, j)
  {
    hide StartSweep;
  }

  lemma SweepBlobApplied(s: State, i: nat, k: Key)
    ensures Apply(SweepBlobOp(i, k), s) == SweepBlob(s, i, k)
  {
    hide SweepBlob;
  }

  lemma DeleteRowsApplied(s: State, i: nat)
    ensures Apply(DeleteRowsOp(i), s) == DeleteRows(s, i)
  {
    hide DeleteRows;
  }

  lemma ListOrphanApplied(s: State, i: nat, k: Key)
    ensures Apply(ListOrphanOp(i, k), s) == ListOrphan(s, i, k)
  {
    hide ListOrphan;
  }

  lemma CheckOrphanApplied(s: State, i: nat)
    ensures Apply(CheckOrphanOp(i), s) == CheckOrphan(s, i)
  {
    hide CheckOrphan;
  }

  lemma SweepOrphanApplied(s: State, i: nat)
    ensures Apply(SweepOrphanOp(i), s) == SweepOrphan(s, i)
  {
    hide SweepOrphan;
  }

  lemma DeleteOrphanApplied(s: State, i: nat)
    ensures Apply(DeleteOrphanOp(i), s) == DeleteOrphan(s, i)
  {
    hide DeleteOrphan;
  }

  lemma ListExpiredApplied(s: State, js: set<JobId>)
    ensures Apply(ListExpiredOp(js), s) == ListExpired(s, js)
  {
    hide ListExpired;
  }
}
