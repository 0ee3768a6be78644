/** Verification keeps the invariant: claiming a chunk, picking its documents, asking the object
    store about each, committing what was found, and failing, whichever of them comes late. */
module CheckSteps {
  import opened Text
  import opened Ledger
  import opened Steps
  import opened Invariants
  import opened Frames
  import opened BatchSteps

  // ---------------------------------------------------------------- verification: claim, pick, end

  lemma SameStatusDoc(d: Doc, job: Job, job2: Job, q: bool)
    requires Lifecycle(d, job, q) && job2.status == job.status && job2.generation == job.generation
    ensures Lifecycle(d, job2, q)
  {
  }

  lemma CheckRowInv(s: State, j: JobId, job: Job, verifiers: map<Token, Verifier>)
    requires Inv(s) && j in s.jobs && job == s.jobs[j].(checker := job.checker, checkUntil := job.checkUntil)
    requires Checks(s.jobs[j := job], s.docs, verifiers)
    ensures Inv(s.(jobs := s.jobs[j := job], verifiers := verifiers))
  {
    hide Linked, Distinct, Lives, Agrees, Checks, Claims, Tokens, Results, OneWinner, RowsRead, Lifecycle;
    forall d, q | d in s.docs && Lifecycle(s.docs[d], s.jobs[j], q) ensures Lifecycle(s.docs[d], job, q) {
      SameStatusDoc(s.docs[d], s.jobs[j], job, q);
    }
    JobStep(s, j, job);
  }

  lemma ClaimCheckInv(s: State, j: JobId, t: Token)
    requires Inv(s)
    ensures Inv(ClaimCheck(s, j, t))
  {
    hide Linked, Distinct, Lives, Agrees, Claims, Tokens, Results, OneWinner, RowsRead, ListedJobs, Unchecked, FirstBatch, CanCheck;
    if ClaimCheck(s, j, t) != s {
      var job := s.jobs[j].(checker := Some(t), checkUntil := Some(s.now + CHECK_LEASE));
      var verifiers := s.verifiers[t := Verifier(j, s.jobs[j].generation, Claimed)];
      assert CheckerFits(j, s.jobs[j], s.docs, s.verifiers);
      ChecksJob(s, j, job, verifiers);
      hide Checks;
      CheckRowInv(s, j, job, verifiers);
    }
  }

  /** A verifier moves on to a stage its job's row allows. */
  lemma ChecksStage(s: State, t: Token, stage: Stage)
    requires Checks(s.jobs, s.docs, s.verifiers) && t in s.verifiers
    requires stage.Picked? ==> FirstBatch(stage.docs, Unchecked(s.docs, s.verifiers[t].job, s.verifiers[t].generation))
    ensures Checks(s.jobs, s.docs, s.verifiers[t := s.verifiers[t].(stage := stage)])
  {
    hide FirstBatch, Unchecked;
    forall j | j in s.jobs ensures CheckerFits(j, s.jobs[j], s.docs, s.verifiers[t := s.verifiers[t].(stage := stage)]) {
      assert CheckerFits(j, s.jobs[j], s.docs, s.verifiers);
    }
  }

  lemma PickDocsInv(s: State, t: Token, ds: set<DocId>)
    requires Inv(s)
    ensures Inv(PickDocs(s, t, ds))
  {
    hide Linked, Distinct, Lives, Agrees, Checks, Claims, Tokens, Results, OneWinner, RowsRead, ListedJobs, Unchecked, FirstBatch;
    if PickDocs(s, t, ds) != s {
      ChecksStage(s, t, Picked(ds));
    }
  }

  lemma FinishedInv(s: State, t: Token)
    requires Inv(s) && t in s.verifiers
    ensures Inv(s.(verifiers := FinishCheck(s, t)))
  {
    hide Linked, Distinct, Lives, Agrees, Checks, Claims, Tokens, Results, OneWinner, RowsRead, ListedJobs;
    ChecksStage(s, t, Finished);
  }

  lemma EndCheckInv(s: State, t: Token)
    requires Inv(s)
    ensures Inv(EndCheck(s, t))
  {
    hide Linked, Distinct, Lives, Agrees, Checks, Claims, Tokens, Results, OneWinner, RowsRead, ListedJobs;
    if t in s.verifiers {
      FinishedInv(s, t);
      var r := s.(verifiers := FinishCheck(s, t));
      var j := s.verifiers[t].job;
      if j in s.jobs && s.jobs[j].checker == Some(t) {
        var job := s.jobs[j].(checker := None, checkUntil := None);
        assert Checks(r.jobs[j := job], r.docs, r.verifiers) by { EndedChecks(r, j, job); }
        CheckRowInv(r, j, job, r.verifiers);
      }
    }
  }

  lemma EndedChecks(s: State, j: JobId, job: Job)
    requires Checks(s.jobs, s.docs, s.verifiers) && j in s.jobs && job == s.jobs[j].(checker := None, checkUntil := None)
    ensures Checks(s.jobs[j := job], s.docs, s.verifiers)
  {
    hide Unchecked, FirstBatch;
    assert CheckerFits(j, s.jobs[j], s.docs, s.verifiers);
    ChecksJob(s, j, job, s.verifiers);
  }

  // ---------------------------------------------------------------- verification: commit

  /** Documents waiting to be checked have not been queued, claimed or finished. */
  predicate Fresh(d: Doc) {
    d.status.Uploading? && d.token.None?
  }

  lemma VerifyingDocs(s: State, j: JobId, d: DocId)
    requires Lives(s.jobs, s.docs, s.outbox) && j in s.jobs && s.jobs[j].status.JVerifying? && d in s.docs && s.docs[d].job == j
    ensures Fresh(s.docs[d])
  {
    assert Lifecycle(s.docs[d], s.jobs[j], d in s.outbox);
  }

  lemma CheckedFits(d: Doc, job: Job, q: bool, c: Check)
    requires Lifecycle(d, job, q) && Fresh(d)
    ensures Lifecycle(CheckedDoc(d, c, job.generation), job, q)
  {
  }

  /** Everything but the verifiers' part, after the found versions and errors are written. */
  lemma CheckedRows(s: State, j: JobId, found: map<DocId, Check>)
    requires Rows(s) && j in s.jobs && s.jobs[j].status.JVerifying?
    ensures var docs2 := CheckedDocs(s.docs, j, s.jobs[j].generation, found);
            Rows(s.(docs := docs2)) && SameFiles(s.docs, docs2)
  {
    hide Linked, Distinct, Lives, Agrees, ListedJobs, Lifecycle;
    var docs2 := CheckedDocs(s.docs, j, s.jobs[j].generation, found);
    OutboxRows(s);
    LinkedSame(s.jobs, s.jobs, s.docs, docs2, s.outbox, s.outbox, s.usedJobs, s.usedDocs);
    forall d | d in s.docs && s.docs[d].job == j && Lifecycle(s.docs[d], s.jobs[j], d in s.outbox)
      ensures Lifecycle(docs2[d], s.jobs[j], d in s.outbox)
    {
      VerifyingDocs(s, j, d);
      if d in found { CheckedFits(s.docs[d], s.jobs[j], d in s.outbox, found[d]); }
    }
    LivesDocs(s.jobs, s.jobs, s.docs, docs2, s.outbox, s.outbox, j);
    AgreesSame(s.jobs, s.docs, docs2);
  }

  lemma FreshClaims(claims: map<Token, Claim>, docs: map<DocId, Doc>, docs2: map<DocId, Doc>, usedDocs: set<DocId>)
    requires Claims(claims, docs, usedDocs) && docs2.Keys == docs.Keys
    requires forall d :: d in docs ==> docs2[d] == docs[d] || Fresh(docs[d])
    ensures Claims(claims, docs2, usedDocs)
  {
    forall t | t in claims ensures ClaimFits(t, claims[t], docs2, usedDocs) {
      assert ClaimFits(t, claims[t], docs, usedDocs);
    }
  }

  lemma FreshTokens(docs: map<DocId, Doc>, docs2: map<DocId, Doc>, claims: map<Token, Claim>)
    requires Tokens(docs, claims) && docs2.Keys == docs.Keys
    requires forall d :: d in docs ==> docs2[d] == docs[d] || (Fresh(docs[d]) && docs2[d].token.None?)
    ensures Tokens(docs2, claims)
  {
  }

  /** Only fresh documents change, and they are neither claimed nor finished by it. */
  ghost predicate OnlyFresh(docs: map<DocId, Doc>, docs2: map<DocId, Doc>) {
    docs2.Keys == docs.Keys &&
    forall d :: d in docs ==>
      docs2[d] == docs[d] || (Fresh(docs[d]) && docs2[d].token.None? && !docs2[d].status.Succeeded?)
  }

  lemma FreshFence(s: State, docs2: map<DocId, Doc>)
    requires Fenced(s) && OnlyFresh(s.docs, docs2)
    ensures Fenced(s.(docs := docs2))
  {
    hide Claims, Tokens, Results, OneWinner;
    FreshClaims(s.claims, s.docs, docs2, s.usedDocs);
    FreshTokens(s.docs, docs2, s.claims);
    ResultsSame(s.docs, docs2, s.claims, s.completes);
  }

  lemma OnlyChecked(s: State, j: JobId, found: map<DocId, Check>)
    requires Lives(s.jobs, s.docs, s.outbox) && j in s.jobs && s.jobs[j].status.JVerifying?
    ensures OnlyFresh(s.docs, CheckedDocs(s.docs, j, s.jobs[j].generation, found))
  {
    hide Lives;
    var docs2 := CheckedDocs(s.docs, j, s.jobs[j].generation, found);
    forall d | d in s.docs
      ensures docs2[d] == s.docs[d] || (Fresh(s.docs[d]) && docs2[d].token.None? && !docs2[d].status.Succeeded?)
    {
      if s.docs[d].job == j { VerifyingDocs(s, j, d); }
    }
  }

  lemma QueuedFits(d: Doc, job: Job, now: int)
    requires Lifecycle(d, job, false) && Fresh(d) && d.verified == job.generation && d.error.None?
    ensures Lifecycle(d.(status := Queued), job.(status := JQueued, updated := now), true)
  {
  }

  lemma AllQueuedShape(s: State, j: JobId)
    requires j in s.jobs
    ensures var r := AllQueued(s, j);
            SameFiles(s.docs, r.docs) && r.outbox.Keys == DocsOf(s.docs, j) + s.outbox.Keys &&
            (forall d :: d in s.docs && s.docs[d].job != j ==> r.docs[d] == s.docs[d] && (d in r.outbox <==> d in s.outbox)) &&
            forall d :: d in s.docs && s.docs[d].job == j ==> r.docs[d] == s.docs[d].(status := Queued) && d in r.outbox
  {
    assert forall d :: d in DocsOf(s.docs, j) <==> d in s.docs && s.docs[d].job == j;
  }

  lemma QueuedLives(s: State, j: JobId)
    requires Lives(s.jobs, s.docs, s.outbox) && j in s.jobs && s.jobs[j].status.JVerifying?
    requires Unchecked(s.docs, j, s.jobs[j].generation) == {} && !AnyInvalid(s.docs, j)
    ensures var r := AllQueued(s, j); Lives(r.jobs, r.docs, r.outbox) && OnlyFresh(s.docs, r.docs)
  {
    hide Lives, Lifecycle, SameFiles, QueuedDocs, DocsOf;
    var r := AllQueued(s, j);
    AllQueuedShape(s, j);
    forall d | d in s.docs && s.docs[d].job == j ensures Fresh(s.docs[d]) { VerifyingDocs(s, j, d); }
    forall d | d in s.docs && s.docs[d].job == j && Lifecycle(s.docs[d], s.jobs[j], d in s.outbox)
      ensures Lifecycle(r.docs[d], r.jobs[j], d in r.outbox)
    {
      assert d !in Unchecked(s.docs, j, s.jobs[j].generation);
      NotQueuedYet(s.docs[d], s.jobs[j], d in s.outbox);
      QueuedFits(s.docs[d], s.jobs[j], s.now);
    }
    assert r.docs.Keys == s.docs.Keys by { FilesKeys(s.docs, r.docs); }
    LivesDocs(s.jobs, r.jobs, s.docs, r.docs, s.outbox, r.outbox, j);
  }

  lemma FilesKeys(docs: map<DocId, Doc>, docs2: map<DocId, Doc>)
    requires SameFiles(docs, docs2)
    ensures docs2.Keys == docs.Keys
  {
  }

  lemma QueuedRows(s: State, j: JobId)
    requires Rows(s) && j in s.jobs && s.jobs[j].status.JVerifying?
    requires Unchecked(s.docs, j, s.jobs[j].generation) == {} && !AnyInvalid(s.docs, j)
    ensures Rows(AllQueued(s, j)) && OnlyFresh(s.docs, AllQueued(s, j).docs)
  {
    hide Linked, Distinct, Lives, Agrees, SameFiles, QueuedDocs, Unchecked, AnyInvalid, OnlyFresh;
    var r := AllQueued(s, j);
    AllQueuedShape(s, j);
    QueuedLives(s, j);
    OutboxRows(s);
    LinkedSame(s.jobs, r.jobs, s.docs, r.docs, s.outbox, r.outbox, s.usedJobs, s.usedDocs);
    OneJob(s.jobs, j, r.jobs[j]);
    DistinctSame(s.jobs, r.jobs);
    AgreesExcept(s.jobs, s.docs, r.docs, j, r.jobs[j]);
  }

  lemma NotQueuedYet(d: Doc, job: Job, q: bool)
    requires Lifecycle(d, job, q) && Fresh(d) && job.status.JVerifying?
    ensures !q
  {
  }

  lemma AgreesExcept(jobs: map<JobId, Job>, docs: map<DocId, Doc>, docs2: map<DocId, Doc>, j: JobId, job: Job)
    requires Agrees(jobs, docs) && SameFiles(docs, docs2) && !Settled(job.status)
    requires forall d :: d in docs && docs[d].job != j ==> docs2[d] == docs[d]
    ensures Agrees(jobs[j := job], docs2)
  {
    hide Summary, Statuses;
    forall i | i in jobs && i != j && Settled(jobs[i].status) ensures jobs[i].status == Summary(Statuses(docs2, i)) {
      StatusesSame(docs, docs2, i);
    }
  }

  lemma RejectedDoc(d: Doc, job: Job, q: bool, now: int)
    requires Lifecycle(d, job, q) && job.status.JVerifying?
    ensures Lifecycle(d, job.(status := JUploading, updated := now), q)
  {
  }

  lemma RejectedRows(s: State, j: JobId)
    requires Rows(s) && j in s.jobs && s.jobs[j].status.JVerifying?
    ensures Rows(Rejected(s, j))
  {
    hide Linked, Distinct, Lives, Agrees, Lifecycle;
    var job := s.jobs[j].(status := JUploading, updated := s.now);
    forall d, q | d in s.docs && s.docs[d].job == j && Lifecycle(s.docs[d], s.jobs[j], q) ensures Lifecycle(s.docs[d], job, q) {
      RejectedDoc(s.docs[d], s.jobs[j], q, s.now);
    }
    JobStep(s, j, job);
  }

  /** The checkers of all jobs fit, except that j may have nothing left to check. */
  ghost predicate ChecksBut(s: State, j: JobId) {
    (forall i :: i in s.jobs && i != j ==> CheckerFits(i, s.jobs[i], s.docs, s.verifiers)) &&
    (j in s.jobs && s.jobs[j].checker.Some? ==>
      s.jobs[j].checker.value in s.verifiers && var x := s.verifiers[s.jobs[j].checker.value];
      x.job == j && x.generation == s.jobs[j].generation && !x.stage.Picked?)
  }

  lemma ConcludedChecks(s: State, r: State, j: JobId)
    requires ChecksBut(s, j) && j in s.jobs && r.verifiers == s.verifiers && r.docs.Keys == s.docs.Keys
    requires forall d :: d in s.docs ==> r.docs[d].job == s.docs[d].job && (s.docs[d].job != j ==> r.docs[d] == s.docs[d])
    requires j in r.jobs && r.jobs == s.jobs[j := r.jobs[j]]
    requires r.jobs[j].checker == s.jobs[j].checker && r.jobs[j].generation == s.jobs[j].generation
    requires r.jobs[j].status.JVerifying? ==> Unchecked(r.docs, j, r.jobs[j].generation) != {}
    ensures Checks(r.jobs, r.docs, r.verifiers)
  {
    hide FirstBatch;
    forall i | i in r.jobs ensures CheckerFits(i, r.jobs[i], r.docs, r.verifiers) {
      if i != j {
        assert Unchecked(r.docs, i, s.jobs[i].generation) == Unchecked(s.docs, i, s.jobs[i].generation);
      }
    }
  }

  lemma QueuedShape(docs: map<DocId, Doc>, j: JobId)
    ensures var docs2 := QueuedDocs(docs, j);
            docs2.Keys == docs.Keys &&
            forall d :: d in docs ==> docs2[d].job == docs[d].job && (docs[d].job != j ==> docs2[d] == docs[d])
  {
  }

  lemma RejectedInv(s: State, j: JobId)
    requires Rows(s) && Fenced(s) && RowsRead(s.dispatches, s.now) && ChecksBut(s, j)
    requires j in s.jobs && s.jobs[j].status.JVerifying?
    ensures Inv(Rejected(s, j))
  {
    hide Rows, Fenced, RowsRead, ChecksBut, Checks;
    RejectedRows(s, j);
    SameFence(s, Rejected(s, j));
    ConcludedChecks(s, Rejected(s, j), j);
  }

  lemma AllQueuedInv(s: State, j: JobId)
    requires Rows(s) && Fenced(s) && RowsRead(s.dispatches, s.now) && ChecksBut(s, j)
    requires j in s.jobs && s.jobs[j].status.JVerifying?
    requires Unchecked(s.docs, j, s.jobs[j].generation) == {} && !AnyInvalid(s.docs, j)
    ensures Inv(AllQueued(s, j))
  {
    hide Rows, Fenced, RowsRead, ChecksBut, Checks, Unchecked, AnyInvalid, QueuedDocs, OnlyFresh, DocsOf;
    QueuedRows(s, j);
    FreshFence(s, QueuedDocs(s.docs, j));
    SameFence(s.(docs := QueuedDocs(s.docs, j)), AllQueued(s, j));
    QueuedShape(s.docs, j);
    ConcludedChecks(s, AllQueued(s, j), j);
  }

  lemma ConcludeInv(s: State, j: JobId)
    requires Rows(s) && Fenced(s) && RowsRead(s.dispatches, s.now) && ChecksBut(s, j)
    requires j in s.jobs && s.jobs[j].status.JVerifying?
    ensures Inv(Conclude(s, j))
  {
    hide Rows, Fenced, RowsRead, ChecksBut, Checks, Unchecked, AnyInvalid, Rejected, AllQueued;
    if Unchecked(s.docs, j, s.jobs[j].generation) != {} {
      assert s.jobs == s.jobs[j := s.jobs[j]];
      ConcludedChecks(s, s, j);
    } else if AnyInvalid(s.docs, j) {
      RejectedInv(s, j);
    } else {
      AllQueuedInv(s, j);
    }
  }

  lemma SameFence(s: State, r: State)
    requires Fenced(s) && r.docs == s.docs && r.claims == s.claims && r.completes == s.completes && r.usedDocs == s.usedDocs
    ensures Fenced(r)
  {
    hide Claims, Tokens, Results, OneWinner;
  }

  lemma CheckedBut(s: State, t: Token, docs2: map<DocId, Doc>)
    requires HoldsCheck(s, t) && Checks(s.jobs, s.docs, s.verifiers) && docs2.Keys == s.docs.Keys
    requires var j := s.verifiers[t].job;
             forall d :: d in s.docs ==> docs2[d].job == s.docs[d].job && (s.docs[d].job != j ==> docs2[d] == s.docs[d])
    ensures ChecksBut(s.(docs := docs2, verifiers := FinishCheck(s, t)), s.verifiers[t].job)
  {
    hide FirstBatch;
    var j := s.verifiers[t].job;
    forall i | i in s.jobs && i != j ensures CheckerFits(i, s.jobs[i], docs2, FinishCheck(s, t)) {
      assert CheckerFits(i, s.jobs[i], s.docs, s.verifiers);
      assert Unchecked(docs2, i, s.jobs[i].generation) == Unchecked(s.docs, i, s.jobs[i].generation);
    }
    assert CheckerFits(j, s.jobs[j], s.docs, s.verifiers);
  }

  lemma CheckedShape(docs: map<DocId, Doc>, j: JobId, g: nat, found: map<DocId, Check>)
    ensures var docs2 := CheckedDocs(docs, j, g, found);
            docs2.Keys == docs.Keys &&
            forall d :: d in docs ==> docs2[d].job == docs[d].job && (docs[d].job != j ==> docs2[d] == docs[d])
  {
  }

  lemma AcceptedCheck(s: State, t: Token, found: map<DocId, Check>)
    requires Inv(s) && HoldsCheck(s, t)
    ensures var j, g := s.verifiers[t].job, s.verifiers[t].generation;
            var m := s.(docs := CheckedDocs(s.docs, j, g, found), verifiers := FinishCheck(s, t));
            Rows(m) && Fenced(m) && ChecksBut(m, j)
  {
    hide Fenced, Checks, RowsRead, Unchecked, AnyInvalid, CheckedDocs, QueuedDocs, OnlyFresh, Linked, Lives, Agrees, Distinct, ListedJobs, ChecksBut;
    var j, g := s.verifiers[t].job, s.verifiers[t].generation;
    var docs := CheckedDocs(s.docs, j, g, found);
    CheckedRows(s, j, found);
    OnlyChecked(s, j, found);
    FreshFence(s, docs);
    SameFence(s.(docs := docs), s.(docs := docs, verifiers := FinishCheck(s, t)));
    CheckedShape(s.docs, j, g, found);
    CheckedBut(s, t, docs);
  }

  lemma CommitCheckInv(s: State, t: Token, found: map<DocId, Check>)
    requires Inv(s)
    ensures Inv(CommitCheck(s, t, found))
  {
    hide Rows, Fenced, Checks, RowsRead, CheckedDocs, Conclude, ChecksBut;
    if t in s.verifiers && s.verifiers[t].stage == Picked(found.Keys) {
      FinishedInv(s, t);
      if HoldsCheck(s, t) {
        var j, g := s.verifiers[t].job, s.verifiers[t].generation;
        AcceptedCheck(s, t, found);
        ConcludeInv(s.(docs := CheckedDocs(s.docs, j, g, found), verifiers := FinishCheck(s, t)), j);
      }
    }
  }
}
