/** Creating, submitting, deleting and expiring a batch keep the invariant: the steps that bring jobs
    and their documents into being, start a new generation, and take them away again. */
module BatchSteps {
  import opened Text
  import opened Ledger
  import opened Steps
  import opened Invariants
  import opened Frames

  // ---------------------------------------------------------------- one row of a job

  /** A job row changes without any other: what each part needs of the new row. */
  lemma JobStep(s: State, j: JobId, job: Job)
    requires Rows(s) && j in s.jobs && job.owner == s.jobs[j].owner && job.idempotencyKey == s.jobs[j].idempotencyKey
    requires forall d, q :: d in s.docs && s.docs[d].job == j && Lifecycle(s.docs[d], s.jobs[j], q) ==> Lifecycle(s.docs[d], job, q)
    requires job.status == s.jobs[j].status || !Settled(job.status)
    requires j in s.expired ==> job.status == s.jobs[j].status || job.status.JDeleting?
    ensures var jobs2 := s.jobs[j := job];
            Linked(jobs2, s.docs, s.outbox, s.usedJobs, s.usedDocs) && Distinct(jobs2) && Lives(jobs2, s.docs, s.outbox) &&
            Agrees(jobs2, s.docs) && ListedJobs(s.expired, jobs2)
  {
    hide Linked, Distinct, Lives, Agrees, Checks, Claims, Tokens, Results, OneWinner, Lifecycle;
    OutboxRows(s);
    LinkedSame(s.jobs, s.jobs[j := job], s.docs, s.docs, s.outbox, s.outbox, s.usedJobs, s.usedDocs);
    OneJob(s.jobs, j, job);
    DistinctSame(s.jobs, s.jobs[j := job]);
    LivesJob(s.jobs, s.docs, s.outbox, j, job);
    AgreesJob(s.jobs, s.docs, j, job);
  }

  lemma ChecksJob(s: State, j: JobId, job: Job, verifiers: map<Token, Verifier>)
    requires Checks(s.jobs, s.docs, s.verifiers) && j in s.jobs && CheckerFits(j, job, s.docs, verifiers)
    requires forall t :: t in s.verifiers && s.verifiers[t].job != j ==> t in verifiers && verifiers[t] == s.verifiers[t]
    ensures Checks(s.jobs[j := job], s.docs, verifiers)
  {
    hide FirstBatch, Unchecked;
    forall i | i in s.jobs && i != j ensures CheckerFits(i, s.jobs[i], s.docs, verifiers) {
      assert CheckerFits(i, s.jobs[i], s.docs, s.verifiers);
    }
  }

  lemma SubmittedDoc(d: Doc, job: Job, q: bool, now: int)
    requires Lifecycle(d, job, q) && job.status.JUploading?
    ensures Lifecycle(d, job.(status := JVerifying, generation := job.generation + 1, checker := None, checkUntil := None, updated := now), q)
  {
  }

  /** Every document is unchecked in a new generation. */
  lemma NewGeneration(s: State, j: JobId)
    requires Linked(s.jobs, s.docs, s.outbox, s.usedJobs, s.usedDocs) && Lives(s.jobs, s.docs, s.outbox) && j in s.jobs
    ensures Unchecked(s.docs, j, s.jobs[j].generation + 1) == DocsOf(s.docs, j) != {}
  {
    hide AttemptsFit, EarlyDoc, LateDoc;
    forall d | d in DocsOf(s.docs, j) ensures s.docs[d].verified != s.jobs[j].generation + 1 {
      assert Lifecycle(s.docs[d], s.jobs[s.docs[d].job], d in s.outbox);
    }
  }

  lemma SubmitInv(s: State, j: JobId)
    requires Inv(s)
    ensures Inv(Submit(s, j))
  {
    hide Linked, Distinct, Lives, Agrees, Checks, Claims, Tokens, Results, OneWinner, RowsRead, Lifecycle;
    if Submit(s, j) != s {
      var job := s.jobs[j].(status := JVerifying, generation := s.jobs[j].generation + 1, checker := None, checkUntil := None, updated := s.now);
      forall d, q | d in s.docs && Lifecycle(s.docs[d], s.jobs[j], q) ensures Lifecycle(s.docs[d], job, q) {
        SubmittedDoc(s.docs[d], s.jobs[j], q, s.now);
      }
      JobStep(s, j, job);
      NewGeneration(s, j);
      ChecksJob(s, j, job, s.verifiers);
    }
  }

  lemma DeletedDoc(d: Doc, job: Job, q: bool, now: int)
    requires Lifecycle(d, job, q)
    ensures Lifecycle(d, job.(status := JDeleting, updated := now), q)
    ensures job.status.JDeleting? ==> Lifecycle(d, job, false)
  {
  }

  lemma LivesWithout(jobs: map<JobId, Job>, docs: map<DocId, Doc>, outbox: map<DocId, int>, j: JobId)
    requires Lives(jobs, docs, outbox) && j in jobs && jobs[j].status.JDeleting?
    ensures Lives(jobs, docs, outbox - DocsOf(docs, j))
  {
    hide Lifecycle;
    forall d | d in docs && docs[d].job in jobs ensures Lifecycle(docs[d], jobs[docs[d].job], d in outbox - DocsOf(docs, j)) {
      assert Lifecycle(docs[d], jobs[docs[d].job], d in outbox);
      if docs[d].job == j { DeletedDoc(docs[d], jobs[j], d in outbox, 0); }
    }
  }

  lemma DeletingJob(s: State, j: JobId, job: Job)
    requires Inv(s) && j in s.jobs && job == s.jobs[j].(status := JDeleting, updated := s.now)
    ensures Inv(s.(jobs := s.jobs[j := job]))
  {
    hide Linked, Distinct, Lives, Agrees, Claims, Tokens, Results, OneWinner, RowsRead, Lifecycle;
    forall d, q | d in s.docs && Lifecycle(s.docs[d], s.jobs[j], q) ensures Lifecycle(s.docs[d], job, q) {
      DeletedDoc(s.docs[d], s.jobs[j], q, s.now);
    }
    JobStep(s, j, job);
    ChecksJob(s, j, job, s.verifiers);
  }

  /** A deleted job's documents leave the outbox. */
  lemma DroppedRows(s: State, j: JobId)
    requires Inv(s) && j in s.jobs && s.jobs[j].status.JDeleting?
    ensures Inv(s.(outbox := s.outbox - DocsOf(s.docs, j)))
  {
    hide Linked, Distinct, Lives, Agrees, Claims, Checks, Tokens, Results, OneWinner, RowsRead, ListedJobs, DocsOf;
    OutboxRows(s);
    LivesWithout(s.jobs, s.docs, s.outbox, j);
    LinkedSame(s.jobs, s.jobs, s.docs, s.docs, s.outbox, s.outbox - DocsOf(s.docs, j), s.usedJobs, s.usedDocs);
  }

  lemma DeleteInv(s: State, j: JobId)
    requires Inv(s)
    ensures Inv(Delete(s, j))
  {
    hide Inv, DocsOf;
    if j in s.jobs {
      var job := s.jobs[j].(status := JDeleting, updated := s.now);
      if s.jobs[j].status.JDeleting? {
        DroppedRows(s, j);
      } else {
        DeletingJob(s, j, job);
        DroppedRows(s.(jobs := s.jobs[j := job]), j);
      }
    }
  }

  lemma OutboxRows(s: State)
    requires Linked(s.jobs, s.docs, s.outbox, s.usedJobs, s.usedDocs)
    ensures s.outbox.Keys <= s.docs.Keys
  {
  }

  function Doom(jobs: map<JobId, Job>, todo: set<JobId>, now: int): map<JobId, Job> {
    map j | j in jobs :: if j in todo then jobs[j].(status := JDeleting, updated := now) else jobs[j]
  }

  lemma DoomOne(jobs: map<JobId, Job>, todo: set<JobId>, now: int, j: JobId)
    requires j in todo
    ensures var r := Doom(jobs, todo - {j}, now);
            r.Keys == jobs.Keys &&
            Doom(jobs, todo, now) == if j in jobs then r[j := r[j].(status := JDeleting, updated := now)] else r
  {
  }

  lemma DoomedInv(s: State, todo: set<JobId>)
    requires Inv(s)
    ensures Inv(s.(jobs := Doom(s.jobs, todo, s.now)))
    decreases todo
  {
    hide Inv, Doom;
    if j :| j in todo {
      DoomedInv(s, todo - {j});
      var r := s.(jobs := Doom(s.jobs, todo - {j}, s.now));
      DoomOne(s.jobs, todo, s.now, j);
      if j in s.jobs {
        DeletingJob(r, j, r.jobs[j].(status := JDeleting, updated := s.now));
      }
    } else {
      DoomNone(s.jobs, todo, s.now);
      assert s.(jobs := s.jobs) == s;
    }
  }

  lemma DoomNone(jobs: map<JobId, Job>, todo: set<JobId>, now: int)
    requires forall j :: j !in todo
    ensures Doom(jobs, todo, now) == jobs
  {
  }

  function StaleUploads(jobs: map<JobId, Job>, now: int): set<JobId> {
    set j | j in jobs && jobs[j].status.JUploading? && jobs[j].created < now - UPLOAD_LIMIT
  }

  lemma ExpiredAreDoomed(s: State)
    ensures ExpireUploads(s) == s.(jobs := Doom(s.jobs, StaleUploads(s.jobs, s.now), s.now))
  {
    assert ExpireUploads(s).jobs == Doom(s.jobs, StaleUploads(s.jobs, s.now), s.now);
  }

  lemma ExpireUploadsInv(s: State)
    requires Inv(s)
    ensures Inv(ExpireUploads(s))
  {
    hide Inv, ExpireUploads, StaleUploads, Doom;
    DoomedInv(s, StaleUploads(s.jobs, s.now));
    ExpiredAreDoomed(s);
  }

  // ---------------------------------------------------------------- rows appear and disappear

  function WithNew(docs: map<DocId, Doc>, ds: set<DocId>, x: Doc): map<DocId, Doc> {
    docs + map d | d in ds :: x
  }

  lemma NewLinked(s: State, j: JobId, job: Job, ds: set<DocId>, x: Doc)
    requires Linked(s.jobs, s.docs, s.outbox, s.usedJobs, s.usedDocs) && ds != {} && ds !! s.usedDocs && x.job == j
    ensures Linked(s.jobs[j := job], WithNew(s.docs, ds, x), s.outbox, s.usedJobs + {j}, s.usedDocs + ds)
  {
    var docs2 := WithNew(s.docs, ds, x);
    var d :| d in ds;
    assert d in DocsOf(docs2, j);
    forall i | i in s.jobs && i != j ensures DocsOf(docs2, i) != {} {
      var e :| e in DocsOf(s.docs, i);
      assert e in DocsOf(docs2, i);
    }
  }

  lemma NewStatuses(docs: map<DocId, Doc>, ds: set<DocId>, x: Doc, i: JobId)
    requires ds !! docs.Keys && x.job != i
    ensures Statuses(WithNew(docs, ds, x), i) == Statuses(docs, i)
    ensures forall g :: Unchecked(WithNew(docs, ds, x), i, g) == Unchecked(docs, i, g)
  {
    StatusesSame(docs, WithNew(docs, ds, x), i);
  }

  lemma NewFits(j: JobId, owner: nat, key: string, hash: string, now: int)
    ensures Lifecycle(NewDoc(j, now), NewJob(owner, key, hash, now), false)
  {
  }

  lemma NewAgrees(jobs: map<JobId, Job>, docs: map<DocId, Doc>, j: JobId, job: Job, ds: set<DocId>, x: Doc)
    requires Agrees(jobs, docs) && ds !! docs.Keys && x.job == j && !Settled(job.status)
    ensures Agrees(jobs[j := job], WithNew(docs, ds, x))
  {
    hide Summary, Statuses, WithNew;
    var jobs2 := jobs[j := job];
    forall i | i in jobs2 && Settled(jobs2[i].status) ensures jobs2[i].status == Summary(Statuses(WithNew(docs, ds, x), i)) {
      NewStatuses(docs, ds, x, i);
    }
  }

  lemma NewLives(s: State, j: JobId, job: Job, ds: set<DocId>, x: Doc)
    requires Lives(s.jobs, s.docs, s.outbox) && Linked(s.jobs, s.docs, s.outbox, s.usedJobs, s.usedDocs)
    requires j !in s.usedJobs && ds !! s.usedDocs && x.job == j && Lifecycle(x, job, false)
    ensures Lives(s.jobs[j := job], WithNew(s.docs, ds, x), s.outbox)
  {
    hide Lifecycle;
    var jobs2, docs2 := s.jobs[j := job], WithNew(s.docs, ds, x);
    forall d | d in docs2 && docs2[d].job in jobs2 ensures Lifecycle(docs2[d], jobs2[docs2[d].job], d in s.outbox) {
      if d in ds { assert d !in s.outbox; }
    }
  }

  lemma NewRows(s: State, j: JobId, job: Job, ds: set<DocId>, x: Doc)
    requires Rows(s) && j !in s.usedJobs && ds !! s.usedDocs && ds != {} && x.job == j && Lifecycle(x, job, false)
    requires !Settled(job.status) && Existing(s.jobs, job.owner, job.idempotencyKey) == {}
    ensures Rows(s.(jobs := s.jobs[j := job], docs := WithNew(s.docs, ds, x), usedJobs := s.usedJobs + {j}, usedDocs := s.usedDocs + ds))
  {
    hide Lifecycle, Linked, Lives, Agrees, Distinct, Existing, WithNew;
    AllUsed(s);
    NewLinked(s, j, job, ds, x);
    NewDistinct(s.jobs, j, job);
    NewAgrees(s.jobs, s.docs, j, job, ds, x);
    NewLives(s, j, job, ds, x);
  }

  lemma NewDistinct(jobs: map<JobId, Job>, j: JobId, job: Job)
    requires Distinct(jobs) && j !in jobs && Existing(jobs, job.owner, job.idempotencyKey) == {}
    ensures Distinct(jobs[j := job])
  {
    forall i | i in jobs ensures !Owns(jobs[i], job.owner, job.idempotencyKey) {
      assert i !in Existing(jobs, job.owner, job.idempotencyKey);
    }
  }

  lemma NewFence(s: State, ds: set<DocId>, x: Doc)
    requires Fenced(s) && s.docs.Keys <= s.usedDocs && ds !! s.usedDocs && x.token.None? && !x.status.Succeeded?
    ensures Fenced(s.(docs := WithNew(s.docs, ds, x), usedDocs := s.usedDocs + ds))
  {
    var docs2 := WithNew(s.docs, ds, x);
    assert Claims(s.claims, docs2, s.usedDocs + ds) by {
      hide Tokens, Results, OneWinner;
      forall t | t in s.claims ensures ClaimFits(t, s.claims[t], docs2, s.usedDocs + ds) {
        assert ClaimFits(t, s.claims[t], s.docs, s.usedDocs);
      }
    }
    assert Tokens(docs2, s.claims) by { hide Claims, Results, OneWinner; }
    assert Results(docs2, s.claims, s.completes) by {
      hide Tokens, OneWinner;
      forall t | Won(s.completes, t) ensures s.claims[t].doc !in ds {
        assert ClaimFits(t, s.claims[t], s.docs, s.usedDocs);
      }
    }
  }

  lemma NewChecks(s: State, j: JobId, job: Job, ds: set<DocId>, x: Doc)
    requires Checks(s.jobs, s.docs, s.verifiers) && ds !! s.docs.Keys && x.job == j && !job.status.JVerifying? && job.checker.None?
    ensures Checks(s.jobs[j := job], WithNew(s.docs, ds, x), s.verifiers)
  {
    hide FirstBatch, Unchecked;
    forall i | i in s.jobs && i != j ensures CheckerFits(i, s.jobs[i], WithNew(s.docs, ds, x), s.verifiers) {
      assert CheckerFits(i, s.jobs[i], s.docs, s.verifiers);
      NewStatuses(s.docs, ds, x, i);
    }
  }

  lemma SameNew(docs: map<DocId, Doc>, ds: set<DocId>, j: JobId, now: int)
    ensures docs + (map d | d in ds :: NewDoc(j, now)) == WithNew(docs, ds, NewDoc(j, now))
  {
  }

  lemma CreateInv(s: State, owner: nat, key: string, hash: string, j: JobId, ds: set<DocId>)
    requires Inv(s)
    ensures Inv(Create(s, owner, key, hash, j, ds))
  {
    hide Claims, Tokens, Results, OneWinner, Checks, RowsRead, Linked, Distinct, Lives, Agrees, ListedJobs, Existing, WithNew, Lifecycle;
    if Create(s, owner, key, hash, j, ds) != s {
      var x, job := NewDoc(j, s.now), NewJob(owner, key, hash, s.now);
      SameNew(s.docs, ds, j, s.now);
      NewFits(j, owner, key, hash, s.now);
      AllUsed(s);
      NewRows(s, j, job, ds, x);
      NewFence(s, ds, x);
      NewChecks(s, j, job, ds, x);
    }
  }

  lemma AllUsed(s: State)
    requires Linked(s.jobs, s.docs, s.outbox, s.usedJobs, s.usedDocs)
    ensures s.docs.Keys <= s.usedDocs && s.jobs.Keys <= s.usedJobs
  {
  }

  lemma WithoutShape(s: State, j: JobId)
    ensures var r := Without(s, j);
            (forall d :: d in r.docs <==> d in s.docs && s.docs[d].job != j) &&
            (forall d :: d in r.docs ==> r.docs[d] == s.docs[d] && (d in r.outbox <==> d in s.outbox)) &&
            (forall d :: d in r.outbox ==> d in s.outbox && d !in DocsOf(s.docs, j))
  {
  }

  lemma WithoutLinked(s: State, j: JobId)
    requires Linked(s.jobs, s.docs, s.outbox, s.usedJobs, s.usedDocs) && j in s.jobs
    ensures var r := Without(s, j); Linked(r.jobs, r.docs, r.outbox, r.usedJobs, r.usedDocs)
  {
    var r := Without(s, j);
    WithoutShape(s, j);
    forall i | i in r.jobs ensures DocsOf(r.docs, i) != {} {
      var e :| e in DocsOf(s.docs, i);
      assert e in DocsOf(r.docs, i);
    }
  }

  lemma WithoutAgrees(s: State, j: JobId)
    requires Agrees(s.jobs, s.docs)
    ensures Agrees(Without(s, j).jobs, Without(s, j).docs)
  {
    hide Summary, Statuses, DocsOf;
    var r := Without(s, j);
    WithoutShape(s, j);
    forall i | i in r.jobs && Settled(r.jobs[i].status) ensures r.jobs[i].status == Summary(Statuses(r.docs, i)) {
      StatusesSame(s.docs, r.docs, i);
    }
  }

  lemma WithoutLives(s: State, j: JobId)
    requires Lives(s.jobs, s.docs, s.outbox)
    ensures var r := Without(s, j); Lives(r.jobs, r.docs, r.outbox)
  {
    hide Lifecycle, DocsOf;
    WithoutShape(s, j);
  }

  lemma WithoutRows(s: State, j: JobId)
    requires Rows(s) && j in s.jobs
    ensures Rows(Without(s, j))
  {
    hide Linked, Lives, Agrees, DocsOf;
    WithoutLinked(s, j);
    WithoutLives(s, j);
    WithoutAgrees(s, j);
  }

  lemma WithoutFence(s: State, j: JobId)
    requires Fenced(s)
    ensures Fenced(Without(s, j))
  {
    var r := Without(s, j);
    assert forall d :: d in r.docs ==> d in s.docs && r.docs[d] == s.docs[d];
    hide DocsOf, Without;
    assert Claims(r.claims, r.docs, r.usedDocs) by {
      hide Tokens, Results, OneWinner;
      forall t | t in r.claims ensures ClaimFits(t, r.claims[t], r.docs, r.usedDocs) {
        assert ClaimFits(t, s.claims[t], s.docs, s.usedDocs);
      }
    }
    assert Tokens(r.docs, r.claims) by { hide Claims, Results, OneWinner; }
    assert Results(r.docs, r.claims, r.completes) by { hide Claims, Tokens, OneWinner; }
  }

  lemma WithoutChecks(s: State, j: JobId)
    requires Checks(s.jobs, s.docs, s.verifiers)
    ensures Checks(Without(s, j).jobs, Without(s, j).docs, s.verifiers)
  {
    hide FirstBatch;
    var r := Without(s, j);
    forall i | i in r.jobs ensures CheckerFits(i, r.jobs[i], r.docs, s.verifiers) {
      assert CheckerFits(i, s.jobs[i], s.docs, s.verifiers);
      assert Unchecked(r.docs, i, s.jobs[i].generation) == Unchecked(s.docs, i, s.jobs[i].generation);
    }
  }

  lemma WithoutInv(s: State, j: JobId)
    requires Inv(s) && j in s.jobs
    ensures Inv(Without(s, j))
  {
    hide Rows, Fenced, Checks, RowsRead, DocsOf;
    WithoutRows(s, j);
    WithoutFence(s, j);
    WithoutChecks(s, j);
  }

  lemma DeleteRowsInv(s: State, i: nat)
    requires Inv(s)
    ensures Inv(DeleteRows(s, i))
  {
    hide Inv, Without;
    if i in s.sweeps && s.sweeps[i].remaining == {} {
      var j := s.sweeps[i].job;
      var rest := s.(sweeps := s.sweeps - {i});
      SameInv(s, rest);
      if j in s.jobs && s.jobs[j].status.JDeleting? { WithoutInv(rest, j); }
    }
  }

  /** The invariant does not speak of blobs, orphans, sweeps or collections. */
  lemma SameInv(s: State, r: State)
    requires Inv(s)
    requires r == s.(orphans := r.orphans, blobs := r.blobs, doomed := r.doomed, sweeps := r.sweeps, collections := r.collections)
    ensures Inv(r)
  {
    hide Claims, Tokens, Results, OneWinner, Checks, RowsRead, Linked, Distinct, Lives, Agrees, ListedJobs;
  }
}
