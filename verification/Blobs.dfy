/** No result is lost and none is left behind, as long as every upload and every commit happens
    within 1200 seconds of the lock() its complete() began with. */
module Blobs {
  import opened Text
  import opened Ledger
  import opened Steps
  import opened Invariants
  import opened BatchSteps
  import opened Progress

  // ---------------------------------------------------------------- the timing assumption

  predicate Within(s: State, t: Token, limit: nat) {
    t in s.completes ==> s.now <= s.completes[t].lockAt + limit
  }

  predicate InTime(s: State, t: Token) {
    Within(s, t, GRACE)
  }

  /** Uploads and commits happen, if at all, within their limits, counted from the first lock(). */
  predicate Timely(op: Op, s: State, uploads: nat, commits: nat) {
    match op
    case UploadResultOp(t) => Within(s, t, uploads)
    case CommitResultOp(t) => Within(s, t, commits)
    case _ => true
  }

  // ---------------------------------------------------------------- what holds of blobs

  predicate Pending(p: Phase) {
    p.Recorded? || p.Uploaded?
  }

  predicate Live(jobs: map<JobId, Job>, j: JobId) {
    j in jobs && !jobs[j].status.JDeleting?
  }

  /** A complete() still in time: its job was alive at its lock(), its key is tracked, and what it
      uploaded is there unless the job is being deleted. */
  predicate PhaseFits(t: Token, x: Complete, claims: map<Token, Claim>, now: int, jobs: map<JobId, Job>,
                      orphans: map<Key, int>, blobs: set<Key>) {
    t in claims && x.lockAt <= now &&
    (now <= x.lockAt + GRACE && !x.phase.Committed? ==>
      var c := claims[t];
      c.job in jobs && (jobs[c.job].status.JDeleting? ==> jobs[c.job].updated >= x.lockAt) &&
      (Pending(x.phase) ==> Key(c.job, c.doc, t) in orphans) &&
      (x.phase.Uploaded? && Live(jobs, c.job) ==> Key(c.job, c.doc, t) in blobs))
  }

  ghost predicate Phases(completes: map<Token, Complete>, claims: map<Token, Claim>, now: int, jobs: map<JobId, Job>,
                         orphans: map<Key, int>, blobs: set<Key>) {
    forall t :: t in completes ==> PhaseFits(t, completes[t], claims, now, jobs, orphans, blobs)
  }

  /** A key names its claim. */
  predicate Named(k: Key, claims: map<Token, Claim>) {
    k.token in claims && claims[k.token].job == k.job && claims[k.token].doc == k.doc
  }

  ghost predicate OrphansFit(orphans: map<Key, int>, claims: map<Token, Claim>, completes: map<Token, Complete>) {
    forall k :: k in orphans ==>
      Named(k, claims) && k.token in completes && Pending(completes[k.token].phase) &&
      orphans[k] >= completes[k.token].lockAt
  }

  /** Every blob is a document's result or is tracked as an orphan, and its job still has its row. */
  predicate TracedBlob(k: Key, jobs: map<JobId, Job>, docs: map<DocId, Doc>, orphans: map<Key, int>) {
    k.job in jobs && (k in orphans || (k.doc in docs && docs[k.doc].resultKey == Some(k)))
  }

  ghost predicate Traced(blobs: set<Key>, claims: map<Token, Claim>, jobs: map<JobId, Job>, docs: map<DocId, Doc>,
                         orphans: map<Key, int>) {
    forall k :: k in blobs ==> Named(k, claims) && TracedBlob(k, jobs, docs, orphans)
  }

  /** Every SUCCEEDED document of a live job has its blob. */
  ghost predicate Conserved(jobs: map<JobId, Job>, docs: map<DocId, Doc>, blobs: set<Key>) {
    forall d :: d in docs && docs[d].status.Succeeded? && Live(jobs, docs[d].job) ==>
      docs[d].resultKey.Some? && docs[d].resultKey.value in blobs
  }

  /** What cleanup has decided about an orphan stays right. */
  predicate CollectionFits(x: Collection, completes: map<Token, Complete>, claims: map<Token, Claim>, blobs: set<Key>, now: int) {
    Named(x.key, claims) && x.key.token in completes && !completes[x.key.token].phase.Committed? &&
    now > completes[x.key.token].lockAt + GRACE && !x.verdict.Spared? && (x.verdict.Swept? ==> x.key !in blobs)
  }

  ghost predicate Collecting(collections: map<nat, Collection>, completes: map<Token, Complete>, claims: map<Token, Claim>,
                             blobs: set<Key>, now: int) {
    forall i :: i in collections ==> CollectionFits(collections[i], completes, claims, blobs, now)
  }

  /** A job listed for deletion has been DELETING for longer than GRACE, or is gone. */
  ghost predicate DoomedFit(doomed: set<JobId>, jobs: map<JobId, Job>, usedJobs: set<JobId>, now: int) {
    doomed <= usedJobs &&
    forall j :: j in doomed && j in jobs ==> jobs[j].status.JDeleting? && jobs[j].updated < now - GRACE
  }

  /** A sweep has all its job's blobs before it. */
  predicate SweepFits(x: Sweep, doomed: set<JobId>, blobs: set<Key>) {
    x.job in doomed && BlobsOf(blobs, x.job) <= x.remaining && forall k :: k in x.remaining ==> k.job == x.job
  }

  ghost predicate Sweeping(sweeps: map<nat, Sweep>, doomed: set<JobId>, blobs: set<Key>) {
    forall i :: i in sweeps ==> SweepFits(sweeps[i], doomed, blobs)
  }

  ghost predicate BlobInv(s: State) {
    Phases(s.completes, s.claims, s.now, s.jobs, s.orphans, s.blobs) && OrphansFit(s.orphans, s.claims, s.completes) &&
    Traced(s.blobs, s.claims, s.jobs, s.docs, s.orphans) && Conserved(s.jobs, s.docs, s.blobs) &&
    Collecting(s.collections, s.completes, s.claims, s.blobs, s.now) &&
    DoomedFit(s.doomed, s.jobs, s.usedJobs, s.now) && Sweeping(s.sweeps, s.doomed, s.blobs)
  }

  lemma StartBlobs(now: int)
    ensures BlobInv(Start(now))
  {
  }

  // ---------------------------------------------------------------- steps that touch no blob

  ghost predicate SameClaims(claims: map<Token, Claim>, claims2: map<Token, Claim>) {
    forall t :: t in claims ==> t in claims2 && claims2[t] == claims[t]
  }

  /** Nothing about blobs changes, no document succeeds, no row disappears. */
  ghost predicate Quiet(s: State, r: State) {
    r.now == s.now && r.orphans == s.orphans && r.blobs == s.blobs && r.completes == s.completes &&
    r.doomed == s.doomed && r.sweeps == s.sweeps && r.collections == s.collections &&
    s.jobs.Keys <= r.jobs.Keys && s.docs.Keys <= r.docs.Keys && SameClaims(s.claims, r.claims) &&
    forall d :: d in r.docs && r.docs[d].status.Succeeded? ==> d in s.docs && s.docs[d].status.Succeeded?
  }

  /** What the quiet steps do to a job, as far as blobs are concerned. */
  ghost predicate JobsQuiet(jobs: map<JobId, Job>, jobs2: map<JobId, Job>, now: int) {
    jobs.Keys <= jobs2.Keys &&
    forall j :: j in jobs ==>
      (jobs[j].status.JDeleting? ==> jobs2[j].status.JDeleting? && jobs2[j].updated == jobs[j].updated) &&
      (jobs2[j].status.JDeleting? && !jobs[j].status.JDeleting? ==> jobs2[j].updated == now)
  }

  lemma MovesQuietly(s: State, r: State)
    requires Moves(s, r) && s.jobs.Keys <= r.jobs.Keys
    ensures JobsQuiet(s.jobs, r.jobs, s.now) && forall j :: j in r.jobs && j !in s.jobs ==> j !in s.usedJobs
  {
    hide DocsMove;
  }

  lemma QuietPhases(s: State, r: State)
    requires Phases(s.completes, s.claims, s.now, s.jobs, s.orphans, s.blobs) && Quiet(s, r) && JobsQuiet(s.jobs, r.jobs, s.now)
    ensures Phases(r.completes, r.claims, r.now, r.jobs, r.orphans, r.blobs)
  {
    forall t | t in r.completes ensures PhaseFits(t, r.completes[t], r.claims, r.now, r.jobs, r.orphans, r.blobs) {
      assert PhaseFits(t, s.completes[t], s.claims, s.now, s.jobs, s.orphans, s.blobs);
    }
  }

  /** A document's result never changes. */
  lemma ResultKept(s: State, r: State, d: DocId)
    requires Moves(s, r) && d in s.docs && d in r.docs && s.docs[d].status.Succeeded?
    ensures r.docs[d].status.Succeeded? && r.docs[d].resultKey == s.docs[d].resultKey && r.docs[d].job == s.docs[d].job
  {
    hide JobsMove, Measure;
  }

  lemma ResultMeansSucceeded(s: State, d: DocId)
    requires Rows(s) && d in s.docs
    ensures s.docs[d].job in s.jobs && (s.docs[d].status.Succeeded? <==> s.docs[d].resultKey.Some?)
  {
    hide Distinct, Agrees, ListedJobs, AttemptsFit, EarlyDoc, LateDoc;
    assert Lifecycle(s.docs[d], s.jobs[s.docs[d].job], d in s.outbox);
  }

  lemma QuietTraced(s: State, r: State)
    requires Rows(s) && Traced(s.blobs, s.claims, s.jobs, s.docs, s.orphans) && Quiet(s, r) && Moves(s, r)
    ensures Traced(r.blobs, r.claims, r.jobs, r.docs, r.orphans)
  {
    hide Moves, Rows;
    forall k | k in r.blobs ensures Named(k, r.claims) && TracedBlob(k, r.jobs, r.docs, r.orphans) {
      if k !in s.orphans {
        ResultMeansSucceeded(s, k.doc);
        ResultKept(s, r, k.doc);
      }
    }
  }

  lemma QuietConserved(s: State, r: State)
    requires Rows(s) && Conserved(s.jobs, s.docs, s.blobs) && Quiet(s, r) && Moves(s, r) && JobsQuiet(s.jobs, r.jobs, s.now)
    ensures Conserved(r.jobs, r.docs, r.blobs)
  {
    hide Moves, Rows;
    forall d | d in r.docs && r.docs[d].status.Succeeded? && Live(r.jobs, r.docs[d].job)
      ensures r.docs[d].resultKey.Some? && r.docs[d].resultKey.value in r.blobs
    {
      ResultKept(s, r, d);
      ResultMeansSucceeded(s, d);
    }
  }

  lemma MoreClaims(orphans: map<Key, int>, claims: map<Token, Claim>, claims2: map<Token, Claim>, completes: map<Token, Complete>)
    requires OrphansFit(orphans, claims, completes) && SameClaims(claims, claims2)
    ensures OrphansFit(orphans, claims2, completes)
  {
  }

  lemma CollectingMore(xs: map<nat, Collection>, completes: map<Token, Complete>, claims: map<Token, Claim>, claims2: map<Token, Claim>,
                       blobs: set<Key>, now: int)
    requires Collecting(xs, completes, claims, blobs, now) && SameClaims(claims, claims2)
    ensures Collecting(xs, completes, claims2, blobs, now)
  {
  }

  lemma DoomedMore(doomed: set<JobId>, jobs: map<JobId, Job>, jobs2: map<JobId, Job>, used: set<JobId>, used2: set<JobId>, now: int)
    requires DoomedFit(doomed, jobs, used, now) && JobsQuiet(jobs, jobs2, now) && used <= used2
    requires forall j :: j in jobs2 && j !in jobs ==> j !in used
    ensures DoomedFit(doomed, jobs2, used2, now)
  {
  }

  lemma QuietBlobs(s: State, r: State)
    requires Rows(s) && BlobInv(s) && Quiet(s, r) && Moves(s, r)
    ensures BlobInv(r)
  {
    hide Rows, Phases, OrphansFit, Traced, Conserved, Collecting, DoomedFit, Sweeping, DocsMove, JobsMove, JobsQuiet, SameClaims;
    MovesQuietly(s, r);
    QuietPhases(s, r);
    QuietTraced(s, r);
    QuietConserved(s, r);
    MoreClaims(s.orphans, s.claims, r.claims, s.completes);
    CollectingMore(s.collections, s.completes, s.claims, r.claims, s.blobs, s.now);
    DoomedMore(s.doomed, s.jobs, r.jobs, s.usedJobs, r.usedJobs, s.now);
  }

  // ---------------------------------------------------------------- time

  lemma LaterPhases(s: State, now: int)
    requires Phases(s.completes, s.claims, s.now, s.jobs, s.orphans, s.blobs) && s.now <= now
    ensures Phases(s.completes, s.claims, now, s.jobs, s.orphans, s.blobs)
  {
    forall t | t in s.completes ensures PhaseFits(t, s.completes[t], s.claims, now, s.jobs, s.orphans, s.blobs) {
      assert PhaseFits(t, s.completes[t], s.claims, s.now, s.jobs, s.orphans, s.blobs);
    }
  }

  lemma LaterCleanup(s: State, now: int)
    requires Collecting(s.collections, s.completes, s.claims, s.blobs, s.now) && DoomedFit(s.doomed, s.jobs, s.usedJobs, s.now)
    requires s.now <= now
    ensures Collecting(s.collections, s.completes, s.claims, s.blobs, now) && DoomedFit(s.doomed, s.jobs, s.usedJobs, now)
  {
  }

  lemma TickBlobs(s: State, n: nat)
    requires BlobInv(s)
    ensures BlobInv(s.(now := s.now + n))
  {
    hide Phases, OrphansFit, Traced, Conserved, Collecting, DoomedFit, Sweeping;
    LaterPhases(s, s.now + n);
    LaterCleanup(s, s.now + n);
  }

  // ---------------------------------------------------------------- complete()

  /** One complete() call moves on; keys and blobs only grow. */
  lemma PhaseStep(s: State, t: Token, x: Complete, orphans2: map<Key, int>, blobs2: set<Key>)
    requires Phases(s.completes, s.claims, s.now, s.jobs, s.orphans, s.blobs)
    requires s.orphans.Keys <= orphans2.Keys && s.blobs <= blobs2
    requires PhaseFits(t, x, s.claims, s.now, s.jobs, orphans2, blobs2)
    ensures Phases(s.completes[t := x], s.claims, s.now, s.jobs, orphans2, blobs2)
  {
    forall u | u in s.completes && u != t ensures PhaseFits(u, s.completes[u], s.claims, s.now, s.jobs, orphans2, blobs2) {
      assert PhaseFits(u, s.completes[u], s.claims, s.now, s.jobs, s.orphans, s.blobs);
    }
  }

  lemma PhaseOf(s: State, t: Token)
    requires Phases(s.completes, s.claims, s.now, s.jobs, s.orphans, s.blobs) && t in s.completes
    ensures PhaseFits(t, s.completes[t], s.claims, s.now, s.jobs, s.orphans, s.blobs)
  {
  }

  /** The orphans stay right when a complete() stays, or becomes, pending. */
  lemma OrphansStep(s: State, t: Token, x: Complete)
    requires OrphansFit(s.orphans, s.claims, s.completes)
    requires t in s.completes ==> x.lockAt == s.completes[t].lockAt && (Pending(s.completes[t].phase) ==> Pending(x.phase))
    ensures OrphansFit(s.orphans, s.claims, s.completes[t := x])
  {
  }

  lemma CollectingStep(s: State, t: Token, x: Complete)
    requires Collecting(s.collections, s.completes, s.claims, s.blobs, s.now)
    requires t in s.completes ==> x.lockAt == s.completes[t].lockAt
    requires !x.phase.Committed? || (t in s.completes && s.now <= s.completes[t].lockAt + GRACE)
    ensures Collecting(s.collections, s.completes[t := x], s.claims, s.blobs, s.now)
  {
    forall i | i in s.collections ensures CollectionFits(s.collections[i], s.completes[t := x], s.claims, s.blobs, s.now) {
      assert CollectionFits(s.collections[i], s.completes, s.claims, s.blobs, s.now);
    }
  }

  lemma ReadJobBlobs(s: State, t: Token)
    requires BlobInv(s)
    ensures BlobInv(ReadJob(s, t))
  {
    hide Phases, OrphansFit, Traced, Conserved, Collecting, DoomedFit, Sweeping;
    if ReadJob(s, t) != s {
      var x := Complete(s.now, Opened);
      PhaseStep(s, t, x, s.orphans, s.blobs);
      OrphansStep(s, t, x);
      assert OrphansFit(s.orphans, s.claims, s.completes[t := x]);
      CollectingStep(s, t, x);
    }
  }

  lemma LockResultBlobs(s: State, t: Token)
    requires BlobInv(s)
    ensures BlobInv(LockResult(s, t))
  {
    hide Phases, OrphansFit, Traced, Conserved, Collecting, DoomedFit, Sweeping, Held;
    if LockResult(s, t) != s {
      var x := s.completes[t].(phase := Locked);
      PhaseOf(s, t);
      PhaseStep(s, t, x, s.orphans, s.blobs);
      OrphansStep(s, t, x);
      CollectingStep(s, t, x);
    }
  }

  lemma NewOrphan(s: State, t: Token, x: Complete)
    requires OrphansFit(s.orphans, s.claims, s.completes) && t in s.claims && Pending(x.phase) && x.lockAt <= s.now
    requires t in s.completes && x.lockAt == s.completes[t].lockAt && s.completes[t].phase.Locked?
    ensures KeyOf(s, t) !in s.orphans && OrphansFit(s.orphans[KeyOf(s, t) := s.now], s.claims, s.completes[t := x])
  {
  }

  lemma TracedMore(s: State, orphans2: map<Key, int>)
    requires Traced(s.blobs, s.claims, s.jobs, s.docs, s.orphans) && s.orphans.Keys <= orphans2.Keys
    ensures Traced(s.blobs, s.claims, s.jobs, s.docs, orphans2)
  {
  }

  lemma RecordResultBlobs(s: State, t: Token)
    requires BlobInv(s)
    ensures BlobInv(RecordResult(s, t))
  {
    hide Phases, OrphansFit, Traced, Conserved, Collecting, DoomedFit, Sweeping;
    if RecordResult(s, t) != s {
      var x := s.completes[t].(phase := Recorded(s.now));
      PhaseOf(s, t);
      NewOrphan(s, t, x);
      PhaseStep(s, t, x, s.orphans[KeyOf(s, t) := s.now], s.blobs);
      TracedMore(s, s.orphans[KeyOf(s, t) := s.now]);
      CollectingStep(s, t, x);
    }
  }

  /** A complete() in time is not one of a job already listed for deletion. */
  lemma InTimeNotDoomed(s: State, t: Token)
    requires Phases(s.completes, s.claims, s.now, s.jobs, s.orphans, s.blobs) && DoomedFit(s.doomed, s.jobs, s.usedJobs, s.now)
    requires t in s.completes && InTime(s, t) && !s.completes[t].phase.Committed?
    ensures t in s.claims && s.claims[t].job in s.jobs && s.claims[t].job !in s.doomed
  {
    PhaseOf(s, t);
  }

  lemma NewBlob(s: State, k: Key)
    requires Traced(s.blobs, s.claims, s.jobs, s.docs, s.orphans) && Named(k, s.claims) && k.job in s.jobs && k in s.orphans
    ensures Traced(s.blobs + {k}, s.claims, s.jobs, s.docs, s.orphans)
  {
  }

  lemma ConservedMore(jobs: map<JobId, Job>, docs: map<DocId, Doc>, blobs: set<Key>, blobs2: set<Key>)
    requires Conserved(jobs, docs, blobs) && blobs <= blobs2
    ensures Conserved(jobs, docs, blobs2)
  {
  }

  lemma CollectingBlob(s: State, k: Key)
    requires Collecting(s.collections, s.completes, s.claims, s.blobs, s.now)
    requires k.token in s.completes && s.now <= s.completes[k.token].lockAt + GRACE
    ensures Collecting(s.collections, s.completes, s.claims, s.blobs + {k}, s.now)
  {
    forall i | i in s.collections ensures CollectionFits(s.collections[i], s.completes, s.claims, s.blobs + {k}, s.now) {
      assert CollectionFits(s.collections[i], s.completes, s.claims, s.blobs, s.now);
    }
  }

  lemma SweepingBlob(s: State, k: Key)
    requires Sweeping(s.sweeps, s.doomed, s.blobs) && k.job !in s.doomed
    ensures Sweeping(s.sweeps, s.doomed, s.blobs + {k})
  {
    forall i | i in s.sweeps ensures SweepFits(s.sweeps[i], s.doomed, s.blobs + {k}) {
      assert SweepFits(s.sweeps[i], s.doomed, s.blobs);
    }
  }

  lemma UploadResultBlobs(s: State, t: Token)
    requires BlobInv(s) && InTime(s, t)
    ensures BlobInv(UploadResult(s, t))
  {
    hide Phases, OrphansFit, Traced, Conserved, Collecting, DoomedFit, Sweeping;
    if UploadResult(s, t) != s {
      var k := KeyOf(s, t);
      var x := s.completes[t].(phase := Uploaded(s.completes[t].phase.at));
      InTimeNotDoomed(s, t);
      PhaseOf(s, t);
      PhaseStep(s, t, x, s.orphans, s.blobs + {k});
      OrphansStep(s, t, x);
      NewBlob(s, k);
      ConservedMore(s.jobs, s.docs, s.blobs, s.blobs + {k});
      CollectingBlob(s, k);
      CollectingStep(s.(blobs := s.blobs + {k}), t, x);
      SweepingBlob(s, k);
    }
  }

  // ---------------------------------------------------------------- the commit of a result

  lemma CommittedPhases(s: State, jobs2: map<JobId, Job>, t: Token, k: Key)
    requires Phases(s.completes, s.claims, s.now, s.jobs, s.orphans, s.blobs) && JobsQuiet(s.jobs, jobs2, s.now)
    requires t in s.completes && Named(k, s.claims) && k.token == t
    ensures Phases(s.completes[t := s.completes[t].(phase := Committed)], s.claims, s.now, jobs2, s.orphans - {k}, s.blobs)
  {
    PhaseOf(s, t);
    forall u | u in s.completes && u != t ensures PhaseFits(u, s.completes[u], s.claims, s.now, jobs2, s.orphans - {k}, s.blobs) {
      PhaseOf(s, u);
    }
  }

  lemma CommittedOrphans(s: State, t: Token, x: Complete, k: Key)
    requires OrphansFit(s.orphans, s.claims, s.completes) && Named(k, s.claims) && k.token == t
    ensures OrphansFit(s.orphans - {k}, s.claims, s.completes[t := x])
  {
  }

  /** The row now refers to the blob its orphan row tracked. */
  lemma CommittedTraced(s: State, docs2: map<DocId, Doc>, jobs2: map<JobId, Job>, k: Key)
    requires Traced(s.blobs, s.claims, s.jobs, s.docs, s.orphans) && s.jobs.Keys <= jobs2.Keys && k.doc in docs2
    requires docs2[k.doc].resultKey == Some(k) && k.doc in s.docs && s.docs[k.doc].resultKey.None?
    requires forall d :: d in s.docs && d != k.doc ==> d in docs2 && docs2[d] == s.docs[d]
    ensures Traced(s.blobs, s.claims, jobs2, docs2, s.orphans - {k})
  {
  }

  lemma CommittedConserved(s: State, docs2: map<DocId, Doc>, jobs2: map<JobId, Job>, k: Key)
    requires Conserved(s.jobs, s.docs, s.blobs) && JobsQuiet(s.jobs, jobs2, s.now) && k in s.blobs && jobs2.Keys == s.jobs.Keys
    requires k.doc in s.docs && k.doc in docs2 && docs2 == s.docs[k.doc := docs2[k.doc]] && docs2[k.doc].resultKey == Some(k)
    ensures Conserved(jobs2, docs2, s.blobs)
  {
  }

  lemma CommitResultBlobs(s: State, t: Token)
    requires Inv(s) && BlobInv(s) && InTime(s, t)
    ensures BlobInv(CommitResult(s, t))
  {
    hide Phases, OrphansFit, Traced, Conserved, Collecting, DoomedFit, Sweeping, Rows, Fenced, Checks, RowsRead, Refresh, Moves, JobsQuiet;
    if CommitResult(s, t) != s {
      var r := CommitResult(s, t);
      var k, d := KeyOf(s, t), s.claims[t].doc;
      PhaseOf(s, t);
      CommitResultMoves(s, t);
      assert r.jobs.Keys == s.jobs.Keys by { RefreshKeys(s.jobs, r.docs, s.claims[t].job, s.now); }
      MovesQuietly(s, r);
      ResultMeansSucceeded(s, d);
      CommittedPhases(s, r.jobs, t, k);
      CommittedOrphans(s, t, r.completes[t], k);
      CommittedTraced(s, r.docs, r.jobs, k);
      CommittedConserved(s, r.docs, r.jobs, k);
      CollectingStep(s, t, r.completes[t]);
      DoomedMore(s.doomed, s.jobs, r.jobs, s.usedJobs, s.usedJobs, s.now);
    }
  }

  lemma RefreshKeys(jobs: map<JobId, Job>, docs: map<DocId, Doc>, j: JobId, now: int)
    ensures Refresh(jobs, docs, j, now).Keys == jobs.Keys
  {
    hide Summary, Statuses;
  }

  // ---------------------------------------------------------------- deleting a job

  lemma ListDeletingBlobs(s: State, j: JobId)
    requires BlobInv(s) && s.jobs.Keys <= s.usedJobs
    ensures BlobInv(ListDeleting(s, j))
  {
    hide Phases, OrphansFit, Traced, Conserved, Collecting;
  }

  lemma StartSweepBlobs(s: State, i: nat, j: JobId)
    requires BlobInv(s)
    ensures BlobInv(StartSweep(s, i, j))
  {
    hide Phases, OrphansFit, Traced, Conserved, Collecting, DoomedFit;
  }

  lemma FewerBlobs(s: State, k: Key)
    requires Traced(s.blobs, s.claims, s.jobs, s.docs, s.orphans) && Collecting(s.collections, s.completes, s.claims, s.blobs, s.now)
    ensures Traced(s.blobs - {k}, s.claims, s.jobs, s.docs, s.orphans)
    ensures Collecting(s.collections, s.completes, s.claims, s.blobs - {k}, s.now)
  {
  }

  /** A blob nobody alive needs goes. */
  lemma UnneededBlob(s: State, k: Key)
    requires Phases(s.completes, s.claims, s.now, s.jobs, s.orphans, s.blobs) && Conserved(s.jobs, s.docs, s.blobs)
    requires forall d :: d in s.docs && s.docs[d].status.Succeeded? && Live(s.jobs, s.docs[d].job) ==> s.docs[d].resultKey != Some(k)
    requires !Live(s.jobs, k.job) || (k.token in s.completes && !InTime(s, k.token))
    ensures Phases(s.completes, s.claims, s.now, s.jobs, s.orphans, s.blobs - {k}) && Conserved(s.jobs, s.docs, s.blobs - {k})
  {
    forall t | t in s.completes ensures PhaseFits(t, s.completes[t], s.claims, s.now, s.jobs, s.orphans, s.blobs - {k}) {
      PhaseOf(s, t);
    }
  }

  lemma SweptOne(s: State, i: nat, k: Key)
    requires Sweeping(s.sweeps, s.doomed, s.blobs) && i in s.sweeps
    ensures Sweeping(s.sweeps[i := s.sweeps[i].(remaining := s.sweeps[i].remaining - {k})], s.doomed, s.blobs - {k})
  {
    forall h | h in s.sweeps
      ensures SweepFits(s.sweeps[h], s.doomed, s.blobs - {k}) &&
              SweepFits(s.sweeps[h].(remaining := s.sweeps[h].remaining - {k}), s.doomed, s.blobs - {k})
    {
      assert SweepFits(s.sweeps[h], s.doomed, s.blobs);
    }
  }

  /** A result key names its own row. */
  lemma ResultNames(s: State, d: DocId)
    requires Inv(s) && d in s.docs && s.docs[d].resultKey.Some?
    ensures s.docs[d].status.Succeeded? && s.docs[d].resultKey.value.doc == d && s.docs[d].resultKey.value.job == s.docs[d].job
    ensures Won(s.completes, s.docs[d].resultKey.value.token)
  {
    hide Checks, RowsRead, Claims, Tokens, OneWinner, Rows;
    ResultMeansSucceeded(s, d);
  }

  lemma SweepBlobBlobs(s: State, i: nat, k: Key)
    requires Inv(s) && BlobInv(s)
    ensures BlobInv(SweepBlob(s, i, k))
  {
    hide Phases, OrphansFit, Traced, Conserved, Collecting, Inv, BlobsOf;
    if SweepBlob(s, i, k) != s {
      assert SweepFits(s.sweeps[i], s.doomed, s.blobs);
      forall d | d in s.docs && s.docs[d].status.Succeeded? && Live(s.jobs, s.docs[d].job) ensures s.docs[d].resultKey != Some(k) {
        if s.docs[d].resultKey == Some(k) { ResultNames(s, d); }
      }
      UnneededBlob(s, k);
      FewerBlobs(s, k);
      SweptOne(s, i, k);
    }
  }

  lemma WithoutPhases(s: State, j: JobId)
    requires Phases(s.completes, s.claims, s.now, s.jobs, s.orphans, s.blobs) && DoomedFit(s.doomed, s.jobs, s.usedJobs, s.now)
    requires j in s.doomed && j in s.jobs
    ensures Phases(s.completes, s.claims, s.now, s.jobs - {j}, s.orphans, s.blobs)
  {
    forall t | t in s.completes ensures PhaseFits(t, s.completes[t], s.claims, s.now, s.jobs - {j}, s.orphans, s.blobs) {
      PhaseOf(s, t);
    }
  }

  lemma WithoutTraced(s: State, j: JobId)
    requires Inv(s) && Traced(s.blobs, s.claims, s.jobs, s.docs, s.orphans) && BlobsOf(s.blobs, j) == {}
    ensures var r := Without(s, j); Traced(r.blobs, r.claims, r.jobs, r.docs, r.orphans) && r.blobs == s.blobs
  {
    hide Inv, DocsOf, Without;
    WithoutShape(s, j);
    WithoutOthers(s, j);
    var r := Without(s, j);
    forall k | k in s.blobs ensures Named(k, r.claims) && TracedBlob(k, r.jobs, r.docs, r.orphans) {
      assert k !in BlobsOf(s.blobs, j);
      if k !in s.orphans { ResultNames(s, k.doc); }
    }
  }

  lemma WithoutOthers(s: State, j: JobId)
    ensures var r := Without(s, j);
            r.blobs == s.blobs && r.claims == s.claims && r.orphans == s.orphans && r.jobs == s.jobs - {j} && r.completes == s.completes &&
            r.now == s.now && r.doomed == s.doomed && r.sweeps == s.sweeps && r.collections == s.collections && r.usedJobs == s.usedJobs
  {
  }

  lemma WithoutConserved(s: State, j: JobId)
    requires Conserved(s.jobs, s.docs, s.blobs)
    ensures Conserved(Without(s, j).jobs, Without(s, j).docs, s.blobs)
  {
    hide DocsOf;
    WithoutShape(s, j);
  }

  lemma WithoutBlobs(s: State, j: JobId)
    requires Inv(s) && BlobInv(s) && j in s.doomed && j in s.jobs && BlobsOf(s.blobs, j) == {}
    ensures BlobInv(Without(s, j))
  {
    hide Phases, OrphansFit, Traced, Conserved, Collecting, Sweeping, Inv, BlobsOf, Without;
    WithoutOthers(s, j);
    WithoutPhases(s, j);
    WithoutTraced(s, j);
    WithoutConserved(s, j);
  }

  lemma DeleteRowsBlobs(s: State, i: nat)
    requires Inv(s) && BlobInv(s)
    ensures BlobInv(DeleteRows(s, i))
  {
    hide Phases, OrphansFit, Traced, Conserved, Collecting, DoomedFit, Inv, Without;
    if i in s.sweeps && s.sweeps[i].remaining == {} {
      var j := s.sweeps[i].job;
      var rest := s.(sweeps := s.sweeps - {i});
      assert SweepFits(s.sweeps[i], s.doomed, s.blobs);
      assert BlobInv(rest);
      if j in s.jobs && s.jobs[j].status.JDeleting? {
        SameInv(s, rest);
        WithoutBlobs(rest, j);
      }
    }
  }

  // ---------------------------------------------------------------- collecting orphans

  lemma ListOrphanBlobs(s: State, i: nat, k: Key)
    requires BlobInv(s)
    ensures BlobInv(ListOrphan(s, i, k))
  {
    hide Phases, Traced, Conserved, Sweeping, DoomedFit;
    assert k in s.orphans ==> Named(k, s.claims);
  }

  lemma CheckOrphanBlobs(s: State, i: nat)
    requires Inv(s) && BlobInv(s)
    ensures BlobInv(CheckOrphan(s, i))
  {
    hide Phases, Traced, Conserved, Sweeping, DoomedFit, OrphansFit, Inv;
    if CheckOrphan(s, i) != s {
      var k := s.collections[i].key;
      assert CollectionFits(s.collections[i], s.completes, s.claims, s.blobs, s.now);
      assert !Referenced(s.docs, k) by {
        if d :| d in s.docs && s.docs[d].resultKey == Some(k) { ResultNames(s, d); }
      }
    }
  }

  lemma SweepOrphanBlobs(s: State, i: nat)
    requires Inv(s) && BlobInv(s)
    ensures BlobInv(SweepOrphan(s, i))
  {
    hide Phases, Traced, Conserved, Sweeping, DoomedFit, OrphansFit, Inv;
    if SweepOrphan(s, i) != s {
      var k := s.collections[i].key;
      assert CollectionFits(s.collections[i], s.completes, s.claims, s.blobs, s.now);
      forall d | d in s.docs && s.docs[d].status.Succeeded? && Live(s.jobs, s.docs[d].job) ensures s.docs[d].resultKey != Some(k) {
        if s.docs[d].resultKey == Some(k) { ResultNames(s, d); }
      }
      UnneededBlob(s, k);
      FewerBlobs(s, k);
      FewerToSweep(s, k);
    }
  }

  lemma FewerToSweep(s: State, k: Key)
    requires Sweeping(s.sweeps, s.doomed, s.blobs)
    ensures Sweeping(s.sweeps, s.doomed, s.blobs - {k})
  {
    forall h | h in s.sweeps ensures SweepFits(s.sweeps[h], s.doomed, s.blobs - {k}) {
      assert SweepFits(s.sweeps[h], s.doomed, s.blobs);
    }
  }

  lemma CollectedPhases(s: State, k: Key)
    requires Phases(s.completes, s.claims, s.now, s.jobs, s.orphans, s.blobs) && k.token in s.completes && !InTime(s, k.token)
    ensures Phases(s.completes, s.claims, s.now, s.jobs, s.orphans - {k}, s.blobs)
  {
    forall t | t in s.completes ensures PhaseFits(t, s.completes[t], s.claims, s.now, s.jobs, s.orphans - {k}, s.blobs) {
      PhaseOf(s, t);
    }
  }

  lemma DeleteOrphanBlobs(s: State, i: nat)
    requires BlobInv(s)
    ensures BlobInv(DeleteOrphan(s, i))
  {
    hide Phases, Conserved, Sweeping, DoomedFit;
    if DeleteOrphan(s, i) != s {
      var k := s.collections[i].key;
      assert CollectionFits(s.collections[i], s.completes, s.claims, s.blobs, s.now);
      CollectedPhases(s, k);
    }
  }
}
