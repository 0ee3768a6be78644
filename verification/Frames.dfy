/** How the invariant's parts survive a change of some rows: each part speaks of a job or a document
    and of what belongs to it, so it holds afterwards wherever those stayed the same. */
module Frames {
  import opened Text
  import opened Ledger
  import opened Steps
  import opened Invariants

  // ---------------------------------------------------------------- changes of job rows

  /** The same jobs, with the same owner and key. */
  ghost predicate SameOwners(jobs: map<JobId, Job>, jobs2: map<JobId, Job>) {
    jobs2.Keys == jobs.Keys &&
    forall j :: j in jobs ==> jobs2[j].owner == jobs[j].owner && jobs2[j].idempotencyKey == jobs[j].idempotencyKey
  }

  lemma DistinctSame(jobs: map<JobId, Job>, jobs2: map<JobId, Job>)
    requires Distinct(jobs) && SameOwners(jobs, jobs2)
    ensures Distinct(jobs2)
  {
  }

  lemma OneJob(jobs: map<JobId, Job>, j: JobId, job: Job)
    requires j in jobs && job.owner == jobs[j].owner && job.idempotencyKey == jobs[j].idempotencyKey
    ensures SameOwners(jobs, jobs[j := job])
  {
  }

  lemma RefreshedOwners(jobs: map<JobId, Job>, docs: map<DocId, Doc>, j: JobId, now: int)
    ensures SameOwners(jobs, Refresh(jobs, docs, j, now))
  {
    hide Summary, Statuses;
  }

  // ---------------------------------------------------------------- changes of document rows

  /** What identifies a document, its claim and its verification. */
  predicate SameDoc(x: Doc, y: Doc) {
    y.job == x.job && y.version == x.version && y.verified == x.verified && y.attempts == x.attempts &&
    y.token == x.token && (y.status.Uploading? <==> x.status.Uploading?)
  }

  ghost predicate SameDocs(docs: map<DocId, Doc>, docs2: map<DocId, Doc>) {
    docs2.Keys == docs.Keys && forall d :: d in docs ==> SameDoc(docs[d], docs2[d])
  }

  lemma OneDoc(docs: map<DocId, Doc>, d: DocId, x: Doc)
    requires d in docs && SameDoc(docs[d], x)
    ensures SameDocs(docs, docs[d := x])
  {
  }

  ghost predicate SameFiles(docs: map<DocId, Doc>, docs2: map<DocId, Doc>) {
    docs2.Keys == docs.Keys && forall d :: d in docs ==> docs2[d].job == docs[d].job
  }

  ghost predicate SameVerified(docs: map<DocId, Doc>, docs2: map<DocId, Doc>) {
    docs2.Keys == docs.Keys && forall d :: d in docs ==> docs2[d].job == docs[d].job && docs2[d].verified == docs[d].verified
  }

  lemma SameDocsFiles(docs: map<DocId, Doc>, docs2: map<DocId, Doc>)
    requires SameDocs(docs, docs2)
    ensures SameFiles(docs, docs2) && SameVerified(docs, docs2)
  {
  }

  lemma LinkedSame(jobs: map<JobId, Job>, jobs2: map<JobId, Job>, docs: map<DocId, Doc>, docs2: map<DocId, Doc>,
                   outbox: map<DocId, int>, outbox2: map<DocId, int>, usedJobs: set<JobId>, usedDocs: set<DocId>)
    requires Linked(jobs, docs, outbox, usedJobs, usedDocs)
    requires jobs2.Keys == jobs.Keys && SameFiles(docs, docs2) && outbox2.Keys <= docs.Keys
    ensures Linked(jobs2, docs2, outbox2, usedJobs, usedDocs)
  {
    forall j | j in jobs2 ensures DocsOf(docs2, j) != {} {
      var d :| d in DocsOf(docs, j);
      assert d in DocsOf(docs2, j);
    }
  }

  lemma UncheckedSame(docs: map<DocId, Doc>, docs2: map<DocId, Doc>, j: JobId, g: nat)
    requires SameVerified(docs, docs2)
    ensures Unchecked(docs2, j, g) == Unchecked(docs, j, g)
  {
  }

  /** Nothing a checker relies on. */
  predicate SameCheck(a: Job, b: Job) {
    b.generation == a.generation && b.checker == a.checker && (b.status.JVerifying? ==> a.status.JVerifying?)
  }

  lemma ChecksSame(jobs: map<JobId, Job>, jobs2: map<JobId, Job>, docs: map<DocId, Doc>, docs2: map<DocId, Doc>,
                   verifiers: map<Token, Verifier>)
    requires Checks(jobs, docs, verifiers) && SameVerified(docs, docs2)
    requires jobs2.Keys <= jobs.Keys && forall j :: j in jobs2 ==> SameCheck(jobs[j], jobs2[j])
    ensures Checks(jobs2, docs2, verifiers)
  {
    hide FirstBatch, SameVerified, Unchecked;
    forall j | j in jobs2 ensures CheckerFits(j, jobs2[j], docs2, verifiers) {
      assert CheckerFits(j, jobs[j], docs, verifiers);
      UncheckedSame(docs, docs2, j, jobs[j].generation);
    }
  }

  lemma ClaimsSame(claims: map<Token, Claim>, docs: map<DocId, Doc>, docs2: map<DocId, Doc>, usedDocs: set<DocId>)
    requires Claims(claims, docs, usedDocs) && SameDocs(docs, docs2)
    ensures Claims(claims, docs2, usedDocs)
  {
  }

  lemma TokensSame(docs: map<DocId, Doc>, docs2: map<DocId, Doc>, claims: map<Token, Claim>)
    requires Tokens(docs, claims) && SameDocs(docs, docs2)
    ensures Tokens(docs2, claims)
  {
  }

  /** No document becomes, or stops being, SUCCEEDED. */
  ghost predicate SameResults(docs: map<DocId, Doc>, docs2: map<DocId, Doc>) {
    docs2.Keys == docs.Keys &&
    forall d :: d in docs ==>
      (docs2[d].status.Succeeded? <==> docs[d].status.Succeeded?) &&
      (docs[d].status.Succeeded? ==> docs2[d].job == docs[d].job && docs2[d].token == docs[d].token && docs2[d].resultKey == docs[d].resultKey)
  }

  lemma ResultsSame(docs: map<DocId, Doc>, docs2: map<DocId, Doc>, claims: map<Token, Claim>, completes: map<Token, Complete>)
    requires Results(docs, claims, completes) && SameResults(docs, docs2)
    ensures Results(docs2, claims, completes)
  {
  }

  // ---------------------------------------------------------------- lifecycles

  /** One job changes; each of its documents still fits it. */
  lemma LivesJob(jobs: map<JobId, Job>, docs: map<DocId, Doc>, outbox: map<DocId, int>, j: JobId, job: Job)
    requires Lives(jobs, docs, outbox) && j in jobs
    requires forall d, q :: d in docs && docs[d].job == j && Lifecycle(docs[d], jobs[j], q) ==> Lifecycle(docs[d], job, q)
    ensures Lives(jobs[j := job], docs, outbox)
  {
    hide Lifecycle;
  }

  /** Documents of one job change, and the job with them. */
  lemma LivesDocs(jobs: map<JobId, Job>, jobs2: map<JobId, Job>, docs: map<DocId, Doc>, docs2: map<DocId, Doc>,
                  outbox: map<DocId, int>, outbox2: map<DocId, int>, j: JobId)
    requires Lives(jobs, docs, outbox) && SameFiles(docs, docs2) && jobs2.Keys == jobs.Keys
    requires forall i :: i in jobs && i != j ==> jobs2[i] == jobs[i]
    requires forall d :: d in docs && docs[d].job != j ==> docs2[d] == docs[d] && (d in outbox2 <==> d in outbox)
    requires forall d :: d in docs && docs[d].job == j && j in jobs && Lifecycle(docs[d], jobs[j], d in outbox) ==>
               Lifecycle(docs2[d], jobs2[j], d in outbox2)
    ensures Lives(jobs2, docs2, outbox2)
  {
    hide Lifecycle;
  }

  /** The job's status is refreshed after its documents changed. */
  lemma RefreshFits(d: Doc, job: Job, q: bool, sts: set<DocStatus>, now: int)
    requires Lifecycle(d, job, q) && !job.status.JDeleting? && Settled(job.status)
    ensures Lifecycle(d, job.(status := Summary(sts), updated := now), q)
  {
    hide Summary, AttemptsFit;
    SummarySettles(sts);
  }

  lemma AgreesJob(jobs: map<JobId, Job>, docs: map<DocId, Doc>, j: JobId, job: Job)
    requires Agrees(jobs, docs) && j in jobs && (job.status == jobs[j].status || !Settled(job.status))
    ensures Agrees(jobs[j := job], docs)
  {
    hide Summary, Statuses;
  }

  lemma AgreesSame(jobs: map<JobId, Job>, docs: map<DocId, Doc>, docs2: map<DocId, Doc>)
    requires Agrees(jobs, docs) && SameFiles(docs, docs2) && forall d :: d in docs ==> docs2[d].status == docs[d].status
    ensures Agrees(jobs, docs2)
  {
    hide Summary, Statuses;
    forall j | j in jobs && Settled(jobs[j].status) ensures jobs[j].status == Summary(Statuses(docs2, j)) {
      StatusesSame(docs, docs2, j);
    }
  }
}
