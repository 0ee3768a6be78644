/** The steps that touch neither a blob nor what tracks it: conservation needs nothing about them
    beyond the rows they leave alone, so one argument about quiet changes serves all of them. */
module QuietSteps {
  import opened Text
  import opened Ledger
  import opened Steps
  import opened Invariants
  import opened Frames
  import opened CheckSteps
  import opened Blobs

  /** Enough to be quiet: rows stay, and no document succeeds. */
  lemma RowsQuiet(s: State, r: State)
    requires r.now == s.now && r.orphans == s.orphans && r.blobs == s.blobs && r.completes == s.completes && r.claims == s.claims
    requires r.doomed == s.doomed && r.sweeps == s.sweeps && r.collections == s.collections
    requires r.jobs.Keys == s.jobs.Keys && r.docs.Keys == s.docs.Keys
    requires forall d :: d in s.docs && r.docs[d].status.Succeeded? ==> s.docs[d].status.Succeeded?
    ensures Quiet(s, r)
  {
  }

  lemma MoreRows(s: State, jobs2: map<JobId, Job>, docs2: map<DocId, Doc>, usedJobs2: set<JobId>, usedDocs2: set<DocId>)
    requires s.jobs.Keys <= jobs2.Keys && s.docs.Keys <= docs2.Keys
    requires forall d :: d in docs2 && docs2[d].status.Succeeded? ==> d in s.docs && s.docs[d].status.Succeeded?
    ensures Quiet(s, s.(jobs := jobs2, docs := docs2, usedJobs := usedJobs2, usedDocs := usedDocs2))
  {
  }

  lemma CreateQuiet(s: State, owner: nat, key: string, hash: string, j: JobId, ds: set<DocId>)
    ensures Quiet(s, Create(s, owner, key, hash, j, ds))
  {
    hide Existing, Quiet;
    QuietSelf(s);
    MoreRows(s, s.jobs[j := NewJob(owner, key, hash, s.now)], s.docs + map d | d in ds :: NewDoc(j, s.now), s.usedJobs + {j}, s.usedDocs + ds);
  }

  lemma OneJobQuiet(s: State, j: JobId, job: Job, verifiers: map<Token, Verifier>)
    requires j in s.jobs
    ensures Quiet(s, s.(jobs := s.jobs[j := job], verifiers := verifiers))
  {
  }

  lemma SubmitQuiet(s: State, j: JobId)
    ensures Quiet(s, Submit(s, j))
  {
    hide Quiet;
    RowsQuiet(s, Submit(s, j));
  }

  lemma DeleteQuiet(s: State, j: JobId)
    ensures Quiet(s, Delete(s, j))
  {
    hide DocsOf, Quiet;
    RowsQuiet(s, Delete(s, j));
  }

  lemma ExpireUploadsQuiet(s: State)
    ensures Quiet(s, ExpireUploads(s))
  {
    hide Quiet;
    RowsQuiet(s, ExpireUploads(s));
  }

  lemma ClaimCheckQuiet(s: State, j: JobId, t: Token)
    ensures Quiet(s, ClaimCheck(s, j, t))
  {
    hide CanCheck, Quiet;
    QuietSelf(s);
    if ClaimCheck(s, j, t) != s {
      OneJobQuiet(s, j, s.jobs[j].(checker := Some(t), checkUntil := Some(s.now + CHECK_LEASE)),
                  s.verifiers[t := Verifier(j, s.jobs[j].generation, Claimed)]);
    }
  }

  lemma PickDocsQuiet(s: State, t: Token, ds: set<DocId>)
    ensures Quiet(s, PickDocs(s, t, ds))
  {
    hide FirstBatch, Unchecked, Quiet;
    RowsQuiet(s, PickDocs(s, t, ds));
  }

  lemma EndCheckQuiet(s: State, t: Token)
    ensures Quiet(s, EndCheck(s, t))
  {
    hide Quiet;
    RowsQuiet(s, EndCheck(s, t));
  }

  lemma RejectedQuiet(s: State, m: State, j: JobId)
    requires Quiet(s, m) && j in m.jobs
    ensures Quiet(s, Rejected(m, j))
  {
  }

  lemma AllQueuedQuiet(s: State, m: State, j: JobId)
    requires Quiet(s, m) && j in m.jobs
    ensures Quiet(s, AllQueued(m, j))
  {
    hide DocsOf;
  }

  lemma ConcludeQuiet(s: State, m: State, j: JobId)
    requires Quiet(s, m) && j in m.jobs
    ensures Quiet(s, Conclude(m, j))
  {
    hide Quiet, Rejected, AllQueued, Unchecked, AnyInvalid;
    RejectedQuiet(s, m, j);
    AllQueuedQuiet(s, m, j);
  }

  lemma CheckedQuiet(s: State, t: Token, found: map<DocId, Check>)
    requires HoldsCheck(s, t)
    ensures var j, g := s.verifiers[t].job, s.verifiers[t].generation;
            Quiet(s, s.(docs := CheckedDocs(s.docs, j, g, found), verifiers := FinishCheck(s, t)))
  {
    var j, g := s.verifiers[t].job, s.verifiers[t].generation;
    RowsQuiet(s, s.(docs := CheckedDocs(s.docs, j, g, found), verifiers := FinishCheck(s, t)));
  }

  lemma CommitCheckQuiet(s: State, t: Token, found: map<DocId, Check>)
    ensures Quiet(s, CommitCheck(s, t, found))
  {
    hide Conclude, CheckedDocs, Quiet;
    QuietSelf(s);
    if t in s.verifiers && s.verifiers[t].stage == Picked(found.Keys) {
      if HoldsCheck(s, t) {
        var j, g := s.verifiers[t].job, s.verifiers[t].generation;
        CheckedQuiet(s, t, found);
        ConcludeQuiet(s, s.(docs := CheckedDocs(s.docs, j, g, found), verifiers := FinishCheck(s, t)), j);
      } else {
        RowsQuiet(s, s.(verifiers := FinishCheck(s, t)));
      }
    }
  }

  lemma QuietSelf(s: State)
    ensures Quiet(s, s)
  {
  }

  lemma MoreClaimsQuiet(s: State, t: Token, c: Claim)
    requires t !in s.claims
    ensures Quiet(s, s.(claims := s.claims[t := c]))
  {
  }

  /** Quiet, and then rows change without a success. */
  lemma QuietTwice(s: State, m: State, r: State)
    requires Quiet(s, m) && r == m.(docs := r.docs, jobs := r.jobs) && r.jobs.Keys == m.jobs.Keys && r.docs.Keys == m.docs.Keys
    requires forall d :: d in m.docs && r.docs[d].status.Succeeded? ==> m.docs[d].status.Succeeded?
    ensures Quiet(s, r)
  {
    hide SameClaims;
  }

  lemma ClaimDocQuiet(s: State, d: DocId, t: Token)
    ensures Quiet(s, ClaimDoc(s, d, t))
  {
    hide Claimable, Quiet;
    QuietSelf(s);
    if ClaimDoc(s, d, t) != s {
      MoreClaimsQuiet(s, t, Claim(d, s.docs[d].job, s.docs[d].version, s.docs[d].attempts + 1));
      QuietTwice(s, s.(claims := ClaimDoc(s, d, t).claims), ClaimDoc(s, d, t));
    }
  }

  lemma HeartbeatQuiet(s: State, t: Token)
    ensures Quiet(s, Heartbeat(s, t))
  {
    hide Held, Quiet;
    RowsQuiet(s, Heartbeat(s, t));
  }

  lemma FailQuiet(s: State, t: Token, code: string, retryable: bool)
    ensures Quiet(s, Fail(s, t, code, retryable))
  {
    hide Refresh, Held, Quiet;
    QuietSelf(s);
    if Passes(s, t) {
      var r := Fail(s, t, code, retryable);
      RefreshKeys(s.jobs, r.docs, s.claims[t].job, s.now);
      RowsQuiet(s, r);
    }
  }

  lemma RecoverJobQuiet(s: State, j: JobId)
    ensures Quiet(s, RecoverJob(s, j))
  {
    hide Refresh, Quiet, Expired;
    QuietSelf(s);
    if RecoverJob(s, j) != s {
      var r := RecoverJob(s, j);
      RefreshKeys(s.jobs, r.docs, j, s.now);
      RowsQuiet(s, r);
    }
  }

  lemma ReadOutboxQuiet(s: State, i: nat, ds: set<DocId>)
    ensures Quiet(s, ReadOutbox(s, i, ds))
  {
    hide DueBatch, Quiet;
    RowsQuiet(s, ReadOutbox(s, i, ds));
  }

  lemma EnqueueQuiet(s: State)
    ensures Quiet(s, Enqueue(s))
  {
    hide Overdue, Quiet;
    RowsQuiet(s, Enqueue(s));
  }

  lemma ListExpiredQuiet(s: State, js: set<JobId>)
    ensures Quiet(s, ListExpired(s, js))
  {
    hide Expired, Quiet;
    QuietSelf(s);
    RowsQuiet(s, s.(expired := s.expired + js));
  }

  lemma CommitOutboxQuiet(s: State, i: nat)
    ensures Quiet(s, CommitOutbox(s, i))
  {
    hide Delivered, Quiet;
    RowsQuiet(s, CommitOutbox(s, i));
  }
}
