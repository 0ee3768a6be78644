/** The outbox, the lists read earlier, and the steps of complete() before its commit keep the
    invariant: none of them changes a document's status, so only what they track is at stake. */
module DeliverySteps {
  import opened Text
  import opened Ledger
  import opened Steps
  import opened Invariants
  import opened Frames
  import opened BatchSteps

  lemma TickInv(s: State, n: nat)
    requires Inv(s)
    ensures Inv(s.(now := s.now + n))
  {
    hide Claims, Tokens, Results, OneWinner, Checks, Linked, Distinct, Lives, Agrees, ListedJobs;
  }

  lemma DeliveredFits(d: Doc, job: Job, q: bool, q2: bool, now: int)
    requires Lifecycle(d, job, q) && (q2 ==> q)
    ensures Lifecycle(d.(lastEnqueued := Some(now)), job, q2)
  {
  }

  lemma CommittedLives(s: State, i: nat)
    requires Lives(s.jobs, s.docs, s.outbox) && i in s.dispatches
    ensures Lives(s.jobs, CommitOutbox(s, i).docs, CommitOutbox(s, i).outbox)
  {
    hide Lifecycle;
    var r := CommitOutbox(s, i);
    forall d | d in r.docs && r.docs[d].job in s.jobs ensures Lifecycle(r.docs[d], s.jobs[r.docs[d].job], d in r.outbox) {
      assert Lifecycle(s.docs[d], s.jobs[s.docs[d].job], d in s.outbox);
      if d in s.dispatches[i] {
        DeliveredFits(s.docs[d], s.jobs[s.docs[d].job], d in s.outbox, d in r.outbox, s.now);
      }
    }
  }

  lemma CommitOutboxInv(s: State, i: nat)
    requires Inv(s)
    ensures Inv(CommitOutbox(s, i))
  {
    hide Claims, Tokens, Results, OneWinner, Checks, Linked, Distinct, Lives, Agrees, ListedJobs;
    if i in s.dispatches {
      var r := CommitOutbox(s, i);
      assert SameDocs(s.docs, r.docs) && SameResults(s.docs, r.docs);
      SameDocsFiles(s.docs, r.docs);
      CommittedLives(s, i);
      OutboxRows(s);
      LinkedSame(s.jobs, s.jobs, s.docs, r.docs, s.outbox, r.outbox, s.usedJobs, s.usedDocs);
      AgreesSame(s.jobs, s.docs, r.docs);
      ChecksSame(s.jobs, s.jobs, s.docs, r.docs, s.verifiers);
      ClaimsSame(s.claims, s.docs, r.docs, s.usedDocs);
      TokensSame(s.docs, r.docs, s.claims);
      ResultsSame(s.docs, r.docs, s.claims, s.completes);
    }
  }

  lemma ReadOutboxInv(s: State, i: nat, ds: set<DocId>)
    requires Inv(s)
    ensures Inv(ReadOutbox(s, i, ds))
  {
    hide Claims, Tokens, Results, OneWinner, Checks, Linked, Distinct, Lives, Agrees, ListedJobs;
  }

  lemma EnqueuedFits(d: Doc, job: Job)
    requires Lifecycle(d, job, false) && Waiting(d.status)
    ensures Lifecycle(d, job, true)
  {
  }

  lemma EnqueueInv(s: State)
    requires Inv(s)
    ensures Inv(Enqueue(s))
  {
    hide Claims, Tokens, Results, OneWinner, Checks, Linked, Distinct, Agrees, ListedJobs, RowsRead, Lifecycle, SameFiles;
    var r := Enqueue(s);
    OutboxRows(s);
    assert SameFiles(s.docs, s.docs) by { FilesSelf(s.docs); }
    LinkedSame(s.jobs, s.jobs, s.docs, s.docs, s.outbox, r.outbox, s.usedJobs, s.usedDocs);
    forall d | d in s.docs && s.docs[d].job in s.jobs ensures Lifecycle(s.docs[d], s.jobs[s.docs[d].job], d in r.outbox) {
      if d in r.outbox && d !in s.outbox { EnqueuedFits(s.docs[d], s.jobs[s.docs[d].job]); }
    }
  }

  lemma FilesSelf(docs: map<DocId, Doc>)
    ensures SameFiles(docs, docs)
  {
  }

  /** A job with an expired lease has begun. */
  lemma ExpiredJob(s: State, d: DocId)
    requires Rows(s) && d in s.docs && Expired(s.docs[d], s.now)
    ensures s.docs[d].job in s.jobs && s.docs[d].job in s.usedJobs
    ensures Settled(s.jobs[s.docs[d].job].status) || s.jobs[s.docs[d].job].status.JDeleting?
  {
    hide Distinct, Agrees, ListedJobs;
    assert Lifecycle(s.docs[d], s.jobs[s.docs[d].job], d in s.outbox);
  }

  lemma ListExpiredInv(s: State, js: set<JobId>)
    requires Inv(s)
    ensures Inv(ListExpired(s, js))
  {
    hide Fenced, Checks, Linked, Distinct, Lives, Agrees, RowsRead, Expired;
    if ListExpired(s, js) != s {
      forall j | j in js ensures j in s.usedJobs && (j in s.jobs ==> Settled(s.jobs[j].status) || s.jobs[j].status.JDeleting?) {
        var d :| d in s.docs && s.docs[d].job == j && Expired(s.docs[d], s.now);
        ExpiredJob(s, d);
      }
      SameFenceListed(s, js);
    }
  }

  lemma SameFenceListed(s: State, js: set<JobId>)
    requires Fenced(s)
    ensures Fenced(s.(expired := s.expired + js))
  {
    hide Claims, Tokens, Results, OneWinner;
  }

  // ---------------------------------------------------------------- complete() before its commit

  lemma OpenPhase(s: State, t: Token, c: Complete)
    requires Fenced(s) && t in s.claims && !c.phase.Committed? && !Won(s.completes, t)
    ensures Results(s.docs, s.claims, s.completes[t := c]) && OneWinner(s.claims, s.completes[t := c])
  {
    hide Claims, Tokens;
  }

  /** A complete() call moves on, short of its commit. */
  lemma PhaseInv(s: State, r: State, t: Token)
    requires Inv(s) && t in s.claims && !Won(s.completes, t) && t in r.completes && !r.completes[t].phase.Committed?
    requires r == s.(completes := s.completes[t := r.completes[t]], orphans := r.orphans, blobs := r.blobs)
    ensures Inv(r)
  {
    hide Claims, Tokens, Results, OneWinner, Checks, RowsRead, Linked, Distinct, Lives, Agrees, ListedJobs;
    OpenPhase(s, t, r.completes[t]);
  }

  lemma LockInv(s: State, t: Token)
    requires Inv(s)
    ensures Inv(ReadJob(s, t)) && Inv(LockResult(s, t))
  {
    hide Inv, Held;
    if ReadJob(s, t) != s { PhaseInv(s, ReadJob(s, t), t); }
    if LockResult(s, t) != s { PhaseInv(s, LockResult(s, t), t); }
  }

  lemma CompleteInv(s: State, t: Token)
    requires Inv(s)
    ensures Inv(RecordResult(s, t)) && Inv(UploadResult(s, t))
  {
    hide Inv, Held;
    if RecordResult(s, t) != s { PhaseInv(s, RecordResult(s, t), t); }
    if UploadResult(s, t) != s { PhaseInv(s, UploadResult(s, t), t); }
  }
}
