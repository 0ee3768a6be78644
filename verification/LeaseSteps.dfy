/** Claiming, completing, failing and recovering keep the invariant: the steps that hand out work, take
    back what was done with it, and give it to somebody else when a lease runs out. */
module LeaseSteps {
  import opened Text
  import opened Ledger
  import opened Steps
  import opened Invariants
  import opened Frames
  import opened BatchSteps

  // ---------------------------------------------------------------- documents of a working job

  /** A claim that passes lock() works for a job whose work has begun. */
  lemma PassingJob(s: State, t: Token)
    requires Inv(s) && Passes(s, t)
    ensures var c := s.claims[t];
            Settled(s.jobs[c.job].status) && s.docs[c.doc].job == c.job && c.attempt == s.docs[c.doc].attempts &&
            1 <= c.attempt <= MAX_ATTEMPTS
  {
    hide Linked, Distinct, Agrees, Checks, Results, OneWinner, ListedJobs, RowsRead;
    var c := s.claims[t];
    assert ClaimFits(t, c, s.docs, s.usedDocs);
    assert TokenFits(c.doc, s.docs[c.doc], s.claims);
    assert Lifecycle(s.docs[c.doc], s.jobs[c.job], c.doc in s.outbox);
  }

  /** Documents of one job change status; the job is refreshed. */
  lemma WorkStep(s: State, j: JobId, docs2: map<DocId, Doc>, outbox2: map<DocId, int>)
    requires Inv(s) && j in s.jobs && Settled(s.jobs[j].status) && SameDocs(s.docs, docs2)
    requires forall d :: d in s.docs && s.docs[d].job != j ==> docs2[d] == s.docs[d] && (d in outbox2 <==> d in s.outbox)
    requires outbox2.Keys <= s.docs.Keys
    requires forall d :: d in s.docs && s.docs[d].job == j && Lifecycle(s.docs[d], s.jobs[j], d in s.outbox) ==>
               Lifecycle(docs2[d], s.jobs[j], d in outbox2)
    ensures var jobs2 := Refresh(s.jobs, docs2, j, s.now);
            Rows(s.(jobs := jobs2, docs := docs2, outbox := outbox2)) && Checks(jobs2, docs2, s.verifiers) &&
            Claims(s.claims, docs2, s.usedDocs) && Tokens(docs2, s.claims)
  {
    hide Linked, Distinct, Lives, Agrees, Checks, Claims, Tokens, Results, OneWinner, RowsRead, Lifecycle, Summary, Statuses;
    var jobs2 := Refresh(s.jobs, docs2, j, s.now);
    SummarySettles(Statuses(docs2, j));
    SameDocsFiles(s.docs, docs2);
    LinkedSame(s.jobs, jobs2, s.docs, docs2, s.outbox, outbox2, s.usedJobs, s.usedDocs);
    RefreshedOwners(s.jobs, docs2, j, s.now);
    DistinctSame(s.jobs, jobs2);
    forall d | d in s.docs && s.docs[d].job == j && Lifecycle(s.docs[d], s.jobs[j], d in s.outbox)
      ensures Lifecycle(docs2[d], jobs2[j], d in outbox2)
    {
      RefreshFits(docs2[d], s.jobs[j], d in outbox2, Statuses(docs2, j), s.now);
    }
    LivesDocs(s.jobs, jobs2, s.docs, docs2, s.outbox, outbox2, j);
    RefreshAgrees(s.jobs, s.docs, docs2, j, s.now);
    ChecksSame(s.jobs, jobs2, s.docs, docs2, s.verifiers);
    ClaimsSame(s.claims, s.docs, docs2, s.usedDocs);
    TokensSame(s.docs, docs2, s.claims);
  }

  lemma FailedFits(d: Doc, job: Job, q: bool, code: string, retry: bool, due: int)
    requires Lifecycle(d, job, q) && d.status.Processing? && (retry ==> d.attempts < MAX_ATTEMPTS)
    ensures Lifecycle(FailedDoc(d, code, retry, due), job, q || retry) && SameDoc(d, FailedDoc(d, code, retry, due))
  {
  }

  /** One document of a working job changes status; the job is refreshed. */
  lemma OneWorkStep(s: State, d: DocId, x: Doc, outbox2: map<DocId, int>)
    requires Inv(s) && d in s.docs && s.docs[d].job in s.jobs && Settled(s.jobs[s.docs[d].job].status)
    requires SameDoc(s.docs[d], x) && outbox2.Keys <= s.docs.Keys && forall e :: e != d ==> (e in outbox2 <==> e in s.outbox)
    requires Lifecycle(s.docs[d], s.jobs[x.job], d in s.outbox) ==> Lifecycle(x, s.jobs[x.job], d in outbox2)
    ensures var docs2 := s.docs[d := x];
            var jobs2 := Refresh(s.jobs, docs2, x.job, s.now);
            Rows(s.(jobs := jobs2, docs := docs2, outbox := outbox2)) && Checks(jobs2, docs2, s.verifiers) &&
            Claims(s.claims, docs2, s.usedDocs) && Tokens(docs2, s.claims)
  {
    hide Linked, Distinct, Lives, Agrees, Checks, Claims, Tokens, Fenced, RowsRead, ListedJobs, Lifecycle, Refresh, SameDocs;
    OneDoc(s.docs, d, x);
    RefreshedOwners(s.jobs, s.docs[d := x], x.job, s.now);
    LifecyclesElsewhere(s, d, x, outbox2);
    WorkStep(s, x.job, s.docs[d := x], outbox2);
  }

  lemma LifecyclesElsewhere(s: State, d: DocId, x: Doc, outbox2: map<DocId, int>)
    requires forall e :: e != d ==> (e in outbox2 <==> e in s.outbox)
    requires d in s.docs && x.job in s.jobs
    requires Lifecycle(s.docs[d], s.jobs[x.job], d in s.outbox) ==> Lifecycle(x, s.jobs[x.job], d in outbox2)
    ensures forall e :: e in s.docs && s.docs[e].job == x.job && Lifecycle(s.docs[e], s.jobs[x.job], e in s.outbox) ==>
              Lifecycle(s.docs[d := x][e], s.jobs[x.job], e in outbox2)
  {
    hide Lifecycle;
  }

  lemma NoResult(docs: map<DocId, Doc>, d: DocId, x: Doc)
    requires d in docs && !docs[d].status.Succeeded? && !x.status.Succeeded?
    ensures SameResults(docs, docs[d := x])
  {
  }

  /** One document of a working job stops without a result. */
  lemma StoppedInv(s: State, d: DocId, x: Doc, outbox2: map<DocId, int>)
    requires Inv(s) && d in s.docs && s.docs[d].job in s.jobs && Settled(s.jobs[s.docs[d].job].status)
    requires SameDoc(s.docs[d], x) && outbox2.Keys <= s.docs.Keys && forall e :: e != d ==> (e in outbox2 <==> e in s.outbox)
    requires Lifecycle(s.docs[d], s.jobs[x.job], d in s.outbox) ==> Lifecycle(x, s.jobs[x.job], d in outbox2)
    requires !s.docs[d].status.Succeeded? && !x.status.Succeeded?
    ensures Inv(s.(docs := s.docs[d := x], outbox := outbox2, jobs := Refresh(s.jobs, s.docs[d := x], x.job, s.now)))
  {
    hide Rows, Checks, Claims, Tokens, Results, OneWinner, RowsRead, Lifecycle, Refresh, SameResults, SameDoc;
    assert x.job == s.docs[d].job by { SameJob(s.docs[d], x); }
    OneWorkStep(s, d, x, outbox2);
    NoResult(s.docs, d, x);
    ResultsSame(s.docs, s.docs[d := x], s.claims, s.completes);
  }

  lemma SameJob(x: Doc, y: Doc)
    requires SameDoc(x, y)
    ensures y.job == x.job
  {
  }

  lemma FailInv(s: State, t: Token, code: string, retryable: bool)
    requires Inv(s)
    ensures Inv(Fail(s, t, code, retryable))
  {
    hide Inv, Lifecycle, Refresh;
    if Passes(s, t) {
      PassingJob(s, t);
      var c := s.claims[t];
      var d := s.docs[c.doc];
      var retry, due := Retries(c, retryable), s.now + Delay(c.attempt);
      if Lifecycle(d, s.jobs[c.job], c.doc in s.outbox) {
        FailedFits(d, s.jobs[c.job], c.doc in s.outbox, code, retry, due);
      }
      InvOutbox(s);
      StoppedInv(s, c.doc, FailedDoc(d, code, retry, due), if retry then s.outbox[c.doc := due] else s.outbox);
    }
  }

  lemma InvOutbox(s: State)
    requires Inv(s)
    ensures s.outbox.Keys <= s.docs.Keys
  {
    hide Fenced, Checks, RowsRead, Linked, Distinct, Lives, Agrees, ListedJobs;
    OutboxRows(s);
  }

  lemma SucceededFits(d: Doc, job: Job, q: bool, k: Key)
    requires Lifecycle(d, job, q) && d.status.Processing?
    ensures Lifecycle(SucceededDoc(d, k), job, q) && SameDoc(d, SucceededDoc(d, k))
  {
  }

  /** The first result of a document: nobody has won before. */
  lemma WonNow(s: State, t: Token)
    requires Results(s.docs, s.claims, s.completes) && OneWinner(s.claims, s.completes) && Passes(s, t) && t in s.completes
    requires s.docs[s.claims[t].doc].job == s.claims[t].job
    ensures var docs2 := s.docs[s.claims[t].doc := SucceededDoc(s.docs[s.claims[t].doc], KeyOf(s, t))];
            var completes2 := WithPhase(s, t, Committed);
            Results(docs2, s.claims, completes2) && OneWinner(s.claims, completes2)
  {
  }

  lemma CommitResultInv(s: State, t: Token)
    requires Inv(s)
    ensures Inv(CommitResult(s, t))
  {
    hide Linked, Distinct, Lives, Agrees, Checks, Claims, Tokens, Results, OneWinner, RowsRead, ListedJobs, Lifecycle, Refresh;
    if CommitResult(s, t) != s {
      PassingJob(s, t);
      var c := s.claims[t];
      var d := s.docs[c.doc];
      if Lifecycle(d, s.jobs[c.job], c.doc in s.outbox) {
        SucceededFits(d, s.jobs[c.job], c.doc in s.outbox, KeyOf(s, t));
      }
      OutboxRows(s);
      hide Rows;
      OneWorkStep(s, c.doc, SucceededDoc(d, KeyOf(s, t)), s.outbox);
      WonNow(s, t);
    }
  }

  lemma RecoveredFits(d: Doc, job: Job, q: bool, now: int)
    requires Lifecycle(d, job, q) && Expired(d, now)
    ensures Lifecycle(RecoveredDoc(d, now), job, q) && SameDoc(d, RecoveredDoc(d, now))
  {
  }

  lemma RecoverJobInv(s: State, j: JobId)
    requires Inv(s)
    ensures Inv(RecoverJob(s, j))
  {
    hide Linked, Distinct, Lives, Agrees, Checks, Claims, Tokens, Results, OneWinner, RowsRead, Refresh, Lifecycle;
    if RecoverJob(s, j) != s {
      var docs2 := RecoveredDocs(s.docs, j, s.now);
      forall d | d in s.docs ensures SameDoc(s.docs[d], docs2[d]) { }
      assert SameDocs(s.docs, docs2);
      OutboxRows(s);
      forall d | d in s.docs && s.docs[d].job == j && Lifecycle(s.docs[d], s.jobs[j], d in s.outbox)
        ensures Lifecycle(docs2[d], s.jobs[j], d in s.outbox)
      {
        if Expired(s.docs[d], s.now) { RecoveredFits(s.docs[d], s.jobs[j], d in s.outbox, s.now); }
      }
      assert SameResults(s.docs, docs2);
      hide SameDocs, SameResults, RecoveredDocs;
      WorkStep(s, j, docs2, s.outbox);
      ResultsSame(s.docs, docs2, s.claims, s.completes);
    }
  }

  // ---------------------------------------------------------------- claim and heartbeat

  lemma ClaimedFits(d: Doc, job: Job, q: bool, t: Token, now: int)
    requires Lifecycle(d, job, q) && Claimable(d, job, now)
    ensures var x := d.(status := Processing, attempts := d.attempts + 1, token := Some(t), lease := Some(now + LEASE));
            Lifecycle(x, job.(status := JProcessing, updated := now), q)
  {
  }

  lemma BegunFits(d: Doc, job: Job, q: bool, now: int)
    requires Lifecycle(d, job, q) && Working(job.status)
    ensures Lifecycle(d, job.(status := JProcessing, updated := now), q)
  {
  }

  lemma StillProcessing(docs: map<DocId, Doc>, d: DocId)
    requires d in docs && docs[d].status.Processing?
    ensures Summary(Statuses(docs, docs[d].job)) == JProcessing
  {
    assert Processing in Statuses(docs, docs[d].job);
  }

  lemma ClaimedLives(s: State, r: State, d: DocId, t: Token)
    requires Lives(s.jobs, s.docs, s.outbox) && r == ClaimDoc(s, d, t) && r != s && SameFiles(s.docs, r.docs)
    ensures Lives(r.jobs, r.docs, r.outbox)
  {
    hide Lives, Lifecycle, SameFiles;
    var j := s.docs[d].job;
    forall e | e in s.docs && s.docs[e].job == j && Lifecycle(s.docs[e], s.jobs[j], e in s.outbox)
      ensures Lifecycle(r.docs[e], r.jobs[j], e in s.outbox)
    {
      if e == d {
        ClaimedFits(s.docs[d], s.jobs[j], d in s.outbox, t, s.now);
      } else {
        BegunFits(s.docs[e], s.jobs[j], e in s.outbox, s.now);
      }
    }
    LivesDocs(s.jobs, r.jobs, s.docs, r.docs, s.outbox, s.outbox, j);
  }

  lemma ClaimedRows(s: State, d: DocId, t: Token)
    requires Rows(s) && ClaimDoc(s, d, t) != s
    ensures Rows(ClaimDoc(s, d, t))
  {
    hide Linked, Distinct, Lives, Agrees, Lifecycle, Summary, Statuses, Claimable;
    var j := s.docs[d].job;
    var r := ClaimDoc(s, d, t);
    assert Working(s.jobs[j].status) by { ClaimableMeans(s.docs[d], s.jobs[j], s.now); }
    OutboxRows(s);
    assert SameFiles(s.docs, r.docs);
    LinkedSame(s.jobs, r.jobs, s.docs, r.docs, s.outbox, s.outbox, s.usedJobs, s.usedDocs);
    OneJob(s.jobs, j, r.jobs[j]);
    DistinctSame(s.jobs, r.jobs);
    ClaimedLives(s, r, d, t);
    ClaimedAgrees(s, r, d);
  }

  lemma ClaimableMeans(d: Doc, job: Job, now: int)
    requires Claimable(d, job, now)
    ensures Working(job.status) && Waiting(d.status)
  {
  }

  lemma ClaimedAgrees(s: State, r: State, d: DocId)
    requires Agrees(s.jobs, s.docs) && d in s.docs && s.docs[d].job in s.jobs && SameFiles(s.docs, r.docs)
    requires r.docs[d].status.Processing? && forall e :: e in s.docs && e != d ==> r.docs[e] == s.docs[e]
    requires r.jobs.Keys == s.jobs.Keys && r.jobs[s.docs[d].job].status.JProcessing?
    requires forall i :: i in s.jobs && i != s.docs[d].job ==> r.jobs[i] == s.jobs[i]
    ensures Agrees(r.jobs, r.docs)
  {
    hide Summary, Statuses;
    forall i | i in r.jobs && Settled(r.jobs[i].status) ensures r.jobs[i].status == Summary(Statuses(r.docs, i)) {
      if i == s.docs[d].job {
        StillProcessing(r.docs, d);
      } else {
        StatusesSame(s.docs, r.docs, i);
      }
    }
  }

  /** The row after a claim of token t. */
  function ClaimedDoc(d: Doc, t: Token, now: int): Doc {
    d.(status := Processing, attempts := d.attempts + 1, token := Some(t), lease := Some(now + LEASE))
  }

  lemma ClaimedClaims(claims: map<Token, Claim>, docs: map<DocId, Doc>, usedDocs: set<DocId>, d: DocId, t: Token, now: int)
    requires Claims(claims, docs, usedDocs) && t !in claims && d in docs && d in usedDocs
    requires docs[d].version.Some? && !docs[d].status.Uploading?
    ensures Claims(claims[t := Claim(d, docs[d].job, docs[d].version, docs[d].attempts + 1)], docs[d := ClaimedDoc(docs[d], t, now)], usedDocs)
  {
    var claims2 := claims[t := Claim(d, docs[d].job, docs[d].version, docs[d].attempts + 1)];
    var docs2 := docs[d := ClaimedDoc(docs[d], t, now)];
    forall u | u in claims2 ensures ClaimFits(u, claims2[u], docs2, usedDocs) {
      if u != t { assert ClaimFits(u, claims[u], docs, usedDocs); }
    }
  }

  lemma ClaimedTokens(claims: map<Token, Claim>, docs: map<DocId, Doc>, d: DocId, t: Token, now: int)
    requires Tokens(docs, claims) && t !in claims && d in docs
    ensures Tokens(docs[d := ClaimedDoc(docs[d], t, now)], claims[t := Claim(d, docs[d].job, docs[d].version, docs[d].attempts + 1)])
  {
  }

  lemma ClaimedResults(claims: map<Token, Claim>, docs: map<DocId, Doc>, completes: map<Token, Complete>, d: DocId, t: Token, c: Claim, now: int)
    requires Results(docs, claims, completes) && OneWinner(claims, completes) && t !in claims && d in docs && !docs[d].status.Succeeded?
    ensures Results(docs[d := ClaimedDoc(docs[d], t, now)], claims[t := c], completes) && OneWinner(claims[t := c], completes)
  {
  }

  lemma ClaimedFence(s: State, d: DocId, t: Token)
    requires Fenced(s) && ClaimDoc(s, d, t) != s && Lives(s.jobs, s.docs, s.outbox) && s.docs.Keys <= s.usedDocs
    ensures Fenced(ClaimDoc(s, d, t))
  {
    hide Claims, Tokens, Results, OneWinner;
    assert Lifecycle(s.docs[d], s.jobs[s.docs[d].job], d in s.outbox);
    hide Lives;
    ClaimedClaims(s.claims, s.docs, s.usedDocs, d, t, s.now);
    ClaimedTokens(s.claims, s.docs, d, t, s.now);
    ClaimedResults(s.claims, s.docs, s.completes, d, t, Claim(d, s.docs[d].job, s.docs[d].version, s.docs[d].attempts + 1), s.now);
  }

  lemma DocsUsed(s: State)
    requires Linked(s.jobs, s.docs, s.outbox, s.usedJobs, s.usedDocs)
    ensures s.docs.Keys <= s.usedDocs
  {
  }

  lemma ClaimDocInv(s: State, d: DocId, t: Token)
    requires Inv(s)
    ensures Inv(ClaimDoc(s, d, t))
  {
    hide Linked, Distinct, Lives, Agrees, Checks, Claims, Tokens, Results, OneWinner, RowsRead, ListedJobs, Lifecycle;
    if ClaimDoc(s, d, t) != s {
      var r := ClaimDoc(s, d, t);
      DocsUsed(s);
      ClaimedRows(s, d, t);
      ClaimedFence(s, d, t);
      ChecksSame(s.jobs, r.jobs, s.docs, r.docs, s.verifiers);
    }
  }

  lemma LeasedFits(d: Doc, job: Job, q: bool, lease: int)
    requires Lifecycle(d, job, q) && d.status.Processing?
    ensures Lifecycle(d.(lease := Some(lease)), job, q)
  {
  }

  lemma HeartbeatInv(s: State, t: Token)
    requires Inv(s)
    ensures Inv(Heartbeat(s, t))
  {
    hide Linked, Distinct, Lives, Agrees, Checks, Claims, Tokens, Results, OneWinner, RowsRead, ListedJobs, Lifecycle;
    var r := Heartbeat(s, t);
    if r != s {
      var d := s.claims[t].doc;
      if Lifecycle(s.docs[d], s.jobs[s.docs[d].job], d in s.outbox) {
        LeasedFits(s.docs[d], s.jobs[s.docs[d].job], d in s.outbox, s.now + LEASE);
      }
      OneDoc(s.docs, d, r.docs[d]);
      assert SameResults(s.docs, r.docs);
      QuietDocs(s, r, s.docs[d].job);
    }
  }

  /** Document rows change without their status, and nothing else does. */
  lemma QuietDocs(s: State, r: State, j: JobId)
    requires Inv(s) && SameDocs(s.docs, r.docs) && SameResults(s.docs, r.docs) && r == s.(docs := r.docs)
    requires forall d :: d in s.docs ==> r.docs[d].status == s.docs[d].status
    requires forall d :: d in s.docs && s.docs[d].job != j ==> r.docs[d] == s.docs[d]
    requires forall d :: d in s.docs && s.docs[d].job == j && j in s.jobs && Lifecycle(s.docs[d], s.jobs[j], d in s.outbox) ==>
               Lifecycle(r.docs[d], s.jobs[j], d in s.outbox)
    ensures Inv(r)
  {
    hide Linked, Distinct, Lives, Agrees, Checks, Claims, Tokens, Results, OneWinner, RowsRead, ListedJobs, Lifecycle;
    OutboxRows(s);
    SameDocsFiles(s.docs, r.docs);
    LinkedSame(s.jobs, s.jobs, s.docs, r.docs, s.outbox, s.outbox, s.usedJobs, s.usedDocs);
    LivesDocs(s.jobs, s.jobs, s.docs, r.docs, s.outbox, s.outbox, j);
    AgreesSame(s.jobs, s.docs, r.docs);
    ChecksSame(s.jobs, s.jobs, s.docs, r.docs, s.verifiers);
    ClaimsSame(s.claims, s.docs, r.docs, s.usedDocs);
    TokensSame(s.docs, r.docs, s.claims);
    ResultsSame(s.docs, r.docs, s.claims, s.completes);
  }
}
