# A verified model of rescan's core

This project models four parts of rescan in Dafny and proves properties of them that no single
function shows.

* **The leased-work protocol** (`Ledger`, `Steps`, `Invariants`, `Frames`, `BatchSteps`, `CheckSteps`,
  `LeaseSteps`, `DeliverySteps`, `Progress`, `Blobs`, `QuietSteps`, `Runs`, `Writes`,
  `Schedules`, `Overtime`, `Guarantees`, `Effects`, `WorkStore`). A state holds the database rows, the blobs, a clock, every claim and verification token
  ever issued, and every operation that is under way between two of its steps. Each transaction, single
  statement or object-store call is one step (`Steps.Op`); a run is any sequence of steps. So any number
  of workers, verifiers and controllers may crash, stall or act late at any point. Messages are not
  modelled as such: a claim may be attempted for any document at any time, which covers a stream that
  drops, repeats or reorders. `WorkStore.Database` holds the same rows in mutable fields; each of its
  methods does what one step function, or a run of them, says.
* **The rule language** (`Text`, `Quoting`, `Decimals`, `Vocabulary`, `Syntax`, `Lexer`, `Spelling`,
  `Grammar`, `Parser`, `Typing`, `Soundness`, `RoundTrip`, `Canonical`, `Rounding`, `Adjacency`,
  `Exponents`, `Verbatim`, `Layout`, `Kleene`, `Aggregates`, `Evaluation`, `Evaluator`, `Questions`, `Silence`, `Meaning`, `Queries`): tokenizer, recursive-descent parser with
  its cursor, canonical printer, and three-valued evaluator. The vocabulary is a parameter
  (`Vocabulary.Vocab`); a profile is what the field readers return (`Evaluation.Subject`), an absent key
  being a reader that returned nothing. Numbers are exact decimals in texts and reals in evaluation.
* **The reading order** of a recognised page (`ReadingOrder`): the recursive whitespace cut over stable
  sorts.
* **From rules to a shortlist** (`LegalGate`, `RuleSets`, `GateTexts`, `Replies`, `Screening`, `Shortlist`, `Rescoring`): the statute table's gate
  on rules, histories of a run's rule set, whom its requirements exclude, and the ranking with its second
  opinion. The table's patterns are any predicates on texts (`LegalGate.ValidTable`: ids are distinct, none
  is the model's own, nothing matches an empty text); all model answers, repaired clauses included, are
  parameters.

## Where the code and its promises part

* An `ANY ... WHERE` swallows every `AND` and `OR` behind it, and the printer writes no parentheses around
  it. `Verbatim.QueryVerbatimIff` gives the exact condition, `Canonical.GreedyWhere` the failing family.
* A number prints with six significant digits, perhaps with an exponent. `Decimals.NumberRoundTripIff` gives
  the exact condition for one number. A rule with a number shown with an exponent has a text the parser
  refuses (`Verbatim.ExponentIsRefused`); any other tail-safe one is read back with its numbers rounded
  (`Verbatim.QueryReadsRounded`).
* An empty BECAUSE is dropped by the printer; `Verbatim.ProgramVerbatimIff` has it in its condition.
* The evaluator's header says a model call is never spent when the structured part already decides. That is
  exact for one level of AND or OR (`Questions.FlatAsksIff`) and fails below it (`Questions.NestedStillAsks`);
  `Questions.AsksNothingIff` says for every rule when no call is spent.
* COUNT compares its two endpoints only, which is wrong for `=` and `!=` when the target lies strictly
  between them (`Aggregates.CountExactIff`, `Aggregates.CountTurns`).
* A partial SUM is taken for a lower bound although nothing in the code keeps the summed values from being
  negative (`Aggregates.SumTurns`). `Aggregates.SumStaysIff` says exactly when its verdict stays, for a field
  that may be negative and for one declared not to be.
* `work_rights IN (... "unrestricted" ...)` answers no when the flag is merely unstated
  (`Silence.LeafStaysIff`).
* Results are conserved only if uploads and commits come soon enough after the lock() their complete() began
  with. 1200 seconds is the exact bound for either (`Guarantees.LimitsIff`): one second more, and there is a
  run from nothing that loses a result (`Overtime.LateCommitRun`) or leaves a blob behind
  (`Overtime.LateUploadRun`). The second needs no delay after the orphan row, so bounding the time since that
  row is not enough.
* Rule ids are unique at any moment, not over time: `RuleSets.IdComesBackIff` says when the id of a removed
  rule is given out again.
* The ensemble's header says the majority decides on inclusion. The code only records the majority; the order
  uses the rounded median. The two agree unless the vote is tied (`Shortlist.MajorityDecidesScore`,
  `Shortlist.TieStillReaches`).
* The screening results are kept by candidate reference, so of two candidates under one reference the later
  one's result stands for both (`Shortlist.TwinsAreRanked`). `Shortlist.ShortlistConservesIff` says exactly
  when each candidate is still listed by their own result.

## Model

| member | source | states |
|---|---|---|
| Guarantees.OnlyNewestPasses | common/src/main/java/dev/rescan/common/WorkStore.java:129-139 | Fencing: after any run at most one claim ever issued for a document passes lock(); it is the newest, its attempt is the row's attempts and its version the verified one. |
| Guarantees.OneComplete | common/src/main/java/dev/rescan/common/WorkStore.java:74-96 | At most one complete() of a document ever returns true. |
| Guarantees.AttemptsBounded | common/src/main/java/dev/rescan/common/WorkStore.java:34-43 | Attempts never exceed three; QUEUED has none, RETRY_WAIT one or two, PROCESSING one to three. |
| Guarantees.ResultsAreFinal | common/src/main/java/dev/rescan/common/WorkStore.java:129-155 | Along any run: a SUCCEEDED or FAILED document keeps status and result key; a queued document keeps its source version; below DELETING status, lease and result key are frozen; a finished job only becomes DELETING. |
| Guarantees.AtMostSixChanges | common/src/main/java/dev/rescan/common/WorkStore.java:98-112 | Retries end: once queued, a document changes status at most six times in any run, by a measure on attempts left and status. |
| Guarantees.NoLostWork | common/src/main/java/dev/rescan/common/WorkStore.java:180-187 | Whatever the stream loses, a waiting document of a working job is in the outbox or has last_enqueued_at set. |
| Guarantees.RecoverRequeues | common/src/main/java/dev/rescan/common/WorkStore.java:157-188 | However other steps fall in between: at the end of recover() a waiting document of a working job is in the outbox or was enqueued at most 120 seconds ago; every document listed with an expired lease has left it unless its job is being deleted; and rows already in the outbox keep their due time. |
| Guarantees.DispatchSparesRescheduled | common/src/main/java/dev/rescan/common/WorkStore.java:118-123 | A dispatch that read the outbox before fail() rescheduled a document spares the document's row whenever it commits, whatever other steps fall in between: from the failure on the row is never due before the retry, so later than anything read. |
| Guarantees.JobsAgree | common/src/main/java/dev/rescan/common/WorkStore.java:141-155 | From verification to deletion a job is SUCCEEDED, FAILED, PARTIAL_SUCCESS or working exactly when its documents stand that way; a QUEUED job has only QUEUED documents. |
| Guarantees.QueuedMeansChecked | common/src/main/java/dev/rescan/common/Verification.java:86-111 | Every document of a QUEUED job was checked in the current generation, has a source version and no error. |
| Guarantees.StaleVerifierWritesNothing | common/src/main/java/dev/rescan/common/Verification.java:64-73 | Along any run a document's version, checked generation and verification error change, and a job leaves VERIFYING other than for deletion, only if on the way a chunk of that job was accepted from a verifier whose generation, token and lease then held; no two hold one job. |
| Guarantees.EveryChunkCounts | common/src/main/java/dev/rescan/common/Verification.java:28-98 | However a run interleaves, while a generation stands the accepted chunks and ceil(n / 100) of the documents still unchecked add up; a generation ends, other than by deletion, with none unchecked. |
| Guarantees.GenerationTakes | common/src/main/java/dev/rescan/common/Verification.java:28-98 | A submitted job of n documents leaves VERIFYING, unless deleted, by exactly ceil(n / 100) accepted chunks. |
| Guarantees.CreateIsIdempotent | api/src/main/java/dev/rescan/api/BatchService.java:60-73 | After any run following a create(), as long as its job has a row, that job is the only one under the owner's key, with its manifest hash, and creating again changes nothing. |
| Guarantees.BlobsConserved | controller/src/main/java/dev/rescan/controller/Controller.java:163-186 | After every run whose uploads and commits happen within 1200 seconds of their first lock(): a SUCCEEDED document of a live job has its blob; every blob is a row's result or tracked as an orphan; no blob outlives its job's rows. |
| Guarantees.LimitsIff | controller/src/main/java/dev/rescan/controller/Controller.java:163-186 | For all limits on uploads and commits: every run from nothing that keeps them conserves blobs if and only if neither is beyond 1200 seconds. |
| Effects.ClaimIff | common/src/main/java/dev/rescan/common/WorkStore.java:22-62 | After every run from nothing, with an unused token: claim() issues a claim if and only if the document is QUEUED or RETRY_WAIT, due, and of a QUEUED or PROCESSING job - the attempts guard never bars it, a third attempt included. The row is then PROCESSING with one attempt more, and the claim passes lock() for 120 seconds; otherwise nothing changes. |
| Effects.HeartbeatIff | common/src/main/java/dev/rescan/common/WorkStore.java:64-72 | After every run a heartbeat renews the lease to 120 seconds if and only if the claim passes lock(), and otherwise changes nothing. |
| Effects.PromptCompleteSucceeds | common/src/main/java/dev/rescan/common/WorkStore.java:74-96 | After every run, a claim that passes lock() and completes at once ends with its document SUCCEEDED, its blob stored under the row's key and no orphan row left. |
| Effects.FailOutcome | common/src/main/java/dev/rescan/common/WorkStore.java:98-127 | After every run a claim that passes lock() and fails goes to RETRY_WAIT, with its outbox row due after 30 seconds the first time and 120 later, exactly if the failure is retryable and fewer than three attempts were made; a non-retryable or third one is FAILED for good. A claim that does not pass changes nothing. |
| Effects.ListIff | common/src/main/java/dev/rescan/common/WorkStore.java:157-162 | recover() may list jobs if and only if there are at most ten and each has a PROCESSING document whose lease is over. |
| Effects.RecoverOutcome | common/src/main/java/dev/rescan/common/WorkStore.java:163-179 | After every run, recovering a listed live job sends each of its documents with an expired lease to RETRY_WAIT at once, or to FAILED after three attempts, with LEASE_EXPIRED, and leaves every other document alone. |
| Effects.EnqueueIff | common/src/main/java/dev/rescan/common/WorkStore.java:180-187 | The last statement of recover() adds an outbox row, due as the document is, exactly for waiting documents of working jobs without one whose last enqueuing is none or more than 120 seconds old. |
| Effects.BatchDelivered | common/src/main/java/dev/rescan/common/WorkStore.java:217-228 | An undisturbed dispatch marks exactly the documents of its batch as enqueued and removes exactly their outbox rows. |
| Effects.ClaimCheckIff | common/src/main/java/dev/rescan/common/Verification.java:16-26 | A chunk is claimed if and only if the job is VERIFYING and no other verifier's lease is running; its fence then holds for 90 seconds. |
| Effects.ChunkOutcome | common/src/main/java/dev/rescan/common/Verification.java:62-113 | After every run, an accepted chunk writes what HEAD found: a valid upload its version and no error, an invalid one its error and no version, other documents nothing; and once all are checked the job is QUEUED with every document, or back to UPLOADING if any is invalid. |
| Effects.VersionsTraced | common/src/main/java/dev/rescan/common/Verification.java:62-113 | Along every run, what a checked document carries is what a chunk accepted in the generation it is marked with found of it. |
| Effects.QueuedVersionWasFound | common/src/main/java/dev/rescan/common/Verification.java:75-111 | After every run, the version of each document past UPLOADING is the one a chunk accepted in its job's current generation found to be valid. |
| Effects.EndFrees | common/src/main/java/dev/rescan/common/Verification.java:117-123 | Ending a chunk frees its job for the next verifier at once and touches nobody else's lease. |
| Effects.CreateOutcome | api/src/main/java/dev/rescan/api/BatchService.java:58-102 | After every run, create() with fresh ids under an unused key, and 1 to 4000 files, adds one UPLOADING job with exactly these documents. |
| Effects.SubmitOutcome | api/src/main/java/dev/rescan/api/BatchService.java:145-161 | submit() moves an UPLOADING job to VERIFYING in a new generation with no verifier, and changes nothing else. |
| Effects.DeleteOutcome | api/src/main/java/dev/rescan/api/ResultsController.java:25-35 | delete() makes the job DELETING and clears its outbox rows, no others. |
| Effects.ExpireIff | controller/src/main/java/dev/rescan/controller/Controller.java:163-166 | An UPLOADING job becomes DELETING in cleanup if and only if it was created more than 24 hours ago. |
| Effects.CleanupTimes | controller/src/main/java/dev/rescan/controller/Controller.java:167-185 | Cleanup takes up a DELETING job, or an orphan, if and only if it has been so for more than 1200 seconds. |
| Overtime.LateCommitLosesResult | controller/src/main/java/dev/rescan/controller/Controller.java:176-185 | From any state within the invariant in which a claim passes lock(), its complete() not yet begun and its key neither an orphan nor referenced: a worker that keeps its lease but commits n seconds after its lock(), for any n beyond 1200, can end with a SUCCEEDED document of a live job whose blob was collected. |
| Overtime.LateUploadLeavesBlob | common/src/main/java/dev/rescan/common/WorkStore.java:74-78 | From any state in which a claim passes lock(), its complete() not yet begun, its key no orphan and its job without blobs: a worker that uploads n seconds after its lock(), for any n beyond 1200, can leave a blob of a job whose rows are gone, even with the orphan row written in the same second. |
| Overtime.LateCommitRun | controller/src/main/java/dev/rescan/controller/Controller.java:176-185 | For every n beyond 1200 a run from nothing, with immediate uploads and commits within n seconds, that ends with a lost result. |
| Overtime.LateUploadRun | controller/src/main/java/dev/rescan/controller/Controller.java:167-175 | For every n beyond 1200 a run from nothing, with uploads within n seconds, that ends with a blob of a job whose rows are gone. |
| Runs.Step | common/src/main/java/dev/rescan/common/WorkStore.java:22-188 | Every single step keeps the whole invariant and moves rows only forward. |
| Runs.RunKeepsInv | common/src/main/java/dev/rescan/common/WorkStore.java:22-234 | The invariant holds after every run from every state that satisfies it. |
| Runs.RunKeepsBlobs | common/src/main/java/dev/rescan/common/WorkStore.java:74-96 | Conservation, tracing and the facts cleanup relies on hold after every timely run. |
| LeaseSteps.ClaimDocInv | common/src/main/java/dev/rescan/common/WorkStore.java:22-62 | Claiming keeps links, lifecycles, job status, verification, fencing and results intact. |
| LeaseSteps.FailInv | common/src/main/java/dev/rescan/common/WorkStore.java:98-127 | Failing keeps the invariant, the job's refreshed status included. |
| LeaseSteps.CommitResultInv | common/src/main/java/dev/rescan/common/WorkStore.java:78-95 | Committing a result keeps the invariant, in particular that no earlier complete() of the document has won. |
| LeaseSteps.RecoverJobInv | common/src/main/java/dev/rescan/common/WorkStore.java:163-179 | Recovering a job listed at any earlier time keeps the invariant. |
| CheckSteps.CommitCheckInv | common/src/main/java/dev/rescan/common/Verification.java:62-113 | Committing a chunk keeps the invariant in all three outcomes: more to check, back to UPLOADING, everything QUEUED. |
| BatchSteps.DeleteRowsInv | controller/src/main/java/dev/rescan/controller/Controller.java:174 | Removing a job's rows with their cascades keeps the invariant. |
| DeliverySteps.CommitOutboxInv | common/src/main/java/dev/rescan/common/WorkStore.java:217-228 | Committing a dispatch keeps the invariant, so no document leaves the outbox without having been enqueued. |
| Blobs.CommitResultBlobs | common/src/main/java/dev/rescan/common/WorkStore.java:78-95 | A timely commit finds its blob in place and takes its key from the orphans to the row. |
| Blobs.UploadResultBlobs | common/src/main/java/dev/rescan/common/WorkStore.java:75-77 | A timely upload is tracked by its orphan row and never falls behind the sweep of its job. |
| Blobs.CheckOrphanBlobs | controller/src/main/java/dev/rescan/controller/Controller.java:181-183 | Cleanup never finds a listed orphan referenced, and its decision stays right until it acts on it. |
| Blobs.DeleteRowsBlobs | controller/src/main/java/dev/rescan/controller/Controller.java:167-175 | When a job's rows go, none of its result blobs is left. |
| WorkStore.Database.ClaimDocument | common/src/main/java/dev/rescan/common/WorkStore.java:22-62 | claim() on the mutable rows is the claim step; it returns a claim exactly when it issued one, and that claim passes lock(). |
| WorkStore.Database.Heartbeat | common/src/main/java/dev/rescan/common/WorkStore.java:64-72 | heartbeat() is the renewal step and says yes exactly to a claim that passes lock(). |
| WorkStore.Database.Lock | common/src/main/java/dev/rescan/common/WorkStore.java:129-139 | lock() answers exactly whether the claim may still act. |
| WorkStore.Database.LockJob | common/src/main/java/dev/rescan/common/WorkStore.java:129-131 | The first lock() of complete(), outside a transaction: its SELECT on the job. |
| WorkStore.Database.LockDocument | common/src/main/java/dev/rescan/common/WorkStore.java:132-138 | Its SELECT on the document, at any later time. |
| WorkStore.Database.LockForComplete | common/src/main/java/dev/rescan/common/WorkStore.java:74-75 | Both SELECTs of the first lock() in one go: it answers whether the claim passes. |
| WorkStore.Database.RecordOrphan | common/src/main/java/dev/rescan/common/WorkStore.java:76 | The orphan row of complete(), kept if already there. |
| WorkStore.Database.Upload | common/src/main/java/dev/rescan/common/WorkStore.java:77 | The upload of complete(). |
| WorkStore.Database.CommitComplete | common/src/main/java/dev/rescan/common/WorkStore.java:78-95 | The commit of complete(); it returns true exactly when the result was committed. |
| WorkStore.Database.FailClaim | common/src/main/java/dev/rescan/common/WorkStore.java:98-127 | fail() is the failing step; it returns true exactly when the claim held and will not be retried. |
| WorkStore.Database.RefreshJob | common/src/main/java/dev/rescan/common/WorkStore.java:141-155 | refresh() writes the summary of the documents' statuses unless the job is DELETING. |
| WorkStore.Database.Recover | common/src/main/java/dev/rescan/common/WorkStore.java:157-188 | recover(), undisturbed, is a run of the recovery steps, after which every waiting document of a working job is in the outbox or recently enqueued. |
| WorkStore.Database.Dispatch | common/src/main/java/dev/rescan/common/WorkStore.java:190-234 | dispatch(), undisturbed, is a run of at most forty read and commit steps; when it ends early for lack of rows no due row is left. |
| WorkStore.Database.ClaimChunk | common/src/main/java/dev/rescan/common/Verification.java:16-26 | The claim of chunk(): a token and a 90-second lease in the current generation. |
| WorkStore.Database.CommitChunk | common/src/main/java/dev/rescan/common/Verification.java:62-113 | The commit of chunk() on the mutable rows is the fenced step. |
| WorkStore.Database.Chunk | common/src/main/java/dev/rescan/common/Verification.java:16-124 | chunk(), undisturbed, is a run of claim, pick, commit and end; a failed HEAD leaves out the commit; without the claim nothing changes. |
| WorkStore.Database.CreateJob | api/src/main/java/dev/rescan/api/BatchService.java:58-102 | create() returns the owner's job under the key with the same manifest hash, a new one, or a conflict if the hash differs. |
| WorkStore.Database.SubmitJob | api/src/main/java/dev/rescan/api/BatchService.java:145-161 | submit() starts a new generation of an UPLOADING job, refuses a DELETING one and reports any other. |
| WorkStore.Database.DeleteJob | api/src/main/java/dev/rescan/api/ResultsController.java:25-35 | delete() marks the job DELETING and clears its outbox rows. |
| WorkStore.Database.DeletePrefix | common/src/main/java/dev/rescan/common/BlobStore.java:86-106 | deletePrefix() removes exactly the blobs under the job's prefix, as a run of single deletions. |
| WorkStore.Database.RemoveJob | controller/src/main/java/dev/rescan/controller/Controller.java:167-175 | Cleanup of a long-DELETING job leaves neither its row nor its documents nor its blobs. |
| WorkStore.Database.CollectOrphan | controller/src/main/java/dev/rescan/controller/Controller.java:176-185 | Cleanup of an orphan removes its row, and its blob unless a document refers to it. |
| Quoting.QuoteReadsBack | rescan/dsl/ast.py:18-19 | Every text, quoted, is one string literal whatever follows, and reads as itself. |
| Quoting.TwoReplacementsUnescape | rescan/dsl/parser.py:161 | On every body the tokenizer accepts, the two global replacements equal one left-to-right unescape. |
| Quoting.ScanFindsValid | rescan/dsl/parser.py:123 | What the tokenizer takes for a literal body is a valid one. |
| Quoting.ValidIsScanned | rescan/dsl/parser.py:123 | Every valid body is taken whole. |
| Decimals.NumberRoundTripIff | rescan/dsl/ast.py:22-23 | A printed number is one NUMBER token of the same value if and only if it has at most six significant digits and needs no exponent. |
| Lexer.Tokenize | rescan/dsl/parser.py:137-185 | The tokenizer loop computes the lexical grammar, error included. |
| Lexer.LexCloses | rescan/dsl/parser.py:137-185 | A token list ends with the only EOF in it. |
| Spelling.ExprText | rescan/dsl/ast.py:32-144 | The canonical text of every spellable tree lexes as exactly the tree's tokens. |
| Spelling.ProgramText | rescan/dsl/ast.py:165-178 | So does the text of a program. |
| Parser.Cursor.StringList | rescan/dsl/parser.py:502-515 | The value list loop computes the grammar's list and leaves the cursor where the grammar ends. |
| Parser.Cursor.EnumValues | rescan/dsl/parser.py:493-500 | Written enum values are normalised and looked up, the first unknown one refusing the list. |
| Parser.Cursor.Comparison | rescan/dsl/parser.py:431-491 | A leaf: field, operator allowed for its kind, value. |
| Parser.Cursor.Expression | rescan/dsl/parser.py:277-282 | The OR loop computes the grammar on the remaining tokens and never passes EOF. |
| Parser.Cursor.AndExpr | rescan/dsl/parser.py:284-289 | The AND loop computes the grammar on the remaining tokens. |
| Parser.Cursor.NotExpr | rescan/dsl/parser.py:291-295 | NOT and its argument. |
| Parser.Cursor.Primary | rescan/dsl/parser.py:297-324 | Parentheses, ANY, aggregates, ASK and leaves, with no ANY, aggregate or ASK below WHERE. |
| Parser.Cursor.Quantified | rescan/dsl/parser.py:326-337 | ANY record WHERE expr. |
| Parser.Cursor.Measured | rescan/dsl/parser.py:339-381 | COUNT, SUM, MAX, MIN and AVG with their target, filter and bound. |
| Parser.Cursor.OneClause | rescan/dsl/parser.py:257-275 | A clause with WEIGHT and BECAUSE. |
| Parser.Cursor.Clauses | rescan/dsl/parser.py:243-255 | The clause loop over optional semicolons. |
| Parser.ReadProgram | rescan/dsl/parser.py:528-530 | parse_program is the grammar applied to the lexed text. |
| Parser.ReadQuery | rescan/dsl/parser.py:533-547 | parse_expr is the grammar applied to the lexed text. |
| Soundness.ExprSound | rescan/dsl/parser.py:277-381 | What the grammar accepts is well-typed, is at least as long in tokens as its canonical form, and as long as it only if that form is read back alike. |
| Canonical.AcceptedQueryIsTyped | rescan/dsl/parser.py:533-547 | Everything parse_expr accepts is well-typed. |
| Canonical.AcceptedProgramIsTyped | rescan/dsl/parser.py:243-275 | Everything parse_program accepts has at least one clause, well-typed conditions, positive weights, and weight 1 on REQUIRE. |
| RoundTrip.ExprReadsBack | rescan/dsl/parser.py:277-337 | The tokens of a tail-safe tree parse to its flattened form in front of anything but AND or OR. |
| Canonical.QueryRoundTripIff | rescan/dsl/ast.py:110-144 | A well-typed tree whose numbers all print exactly is read back as its flattened form if and only if no unparenthesised ANY ... WHERE precedes an AND or OR. |
| Canonical.ProgramRoundTripIff | rescan/dsl/ast.py:165-178 | A program whose numbers all print exactly is read back as its flattened form if and only if it has a clause and every clause is tail-safe, has a positive weight (1 on REQUIRE) and no empty BECAUSE. |
| Canonical.ReprintedAlike | rescan/dsl/ast.py:121-135 | The flattened tree prints as the same text. |
| Canonical.GreedyWhere | rescan/dsl/ast.py:138-144 | A WHERE swallows what follows: ANY r WHERE p, AND q has the text of ANY r WHERE (p AND q) or, where p is an OR, of the WHERE with AND q below p's last alternative; for all p without an empty OR at their end, and all q. |
| Verbatim.QueryVerbatimIff | rescan/dsl/ast.py:110-144 | Whatever its numbers, a well-typed tree is read back from its text as its flattened form if and only if no unparenthesised ANY ... WHERE precedes an AND or OR and every number has at most six significant digits and needs no exponent. |
| Verbatim.ProgramVerbatimIff | rescan/dsl/ast.py:165-178 | The same for whole programs, weights included: exactly if there is a clause and every clause is faithful and prints its numbers exactly. |
| Verbatim.ExponentIsRefused | rescan/dsl/ast.py:22-23 | The text of a tree with a number that needs an exponent, anywhere in it, is refused by parse_expr. |
| Verbatim.QueryReadsRounded | rescan/dsl/ast.py:22-23 | The text of any other tail-safe tree is read back as its flattened form with every number rounded to six significant digits. |
| Verbatim.ProgramReadsShown | rescan/dsl/ast.py:165-178 | Both for programs: refused with an exponent anywhere, otherwise, if every clause is faithful, read back flattened and rounded. |
| Layout.CommentsAreSkipped | rescan/dsl/parser.py:119-185 | A comment runs to the end of its line, whatever it holds, and counts for nothing. |
| Layout.KeywordsInAnyCase | rescan/dsl/parser.py:119-185 | A keyword may be written in any case. |
| Layout.ValuesReadLoosely | rescan/dsl/parser.py:431-500 | An enum value may be written in any case, with spaces or hyphens for underscores, with white space around it, quoted or not. |
| Layout.ParenthesesAreFree | rescan/dsl/parser.py:297-303 | Parentheses around an expression change nothing but must be closed. |
| Layout.SemicolonsAreFree | rescan/dsl/parser.py:243-275 | Semicolons before, between and after clauses may be repeated, or left out. |
| Layout.NumbersReadAsWritten | rescan/dsl/parser.py:164 | The value of a NUMBER is what its digits say, with as many decimals as stand behind the point. |
| Layout.ShownIsNearest | rescan/dsl/ast.py:22-23 | A number with more than six digits is shown as the nearest one with six, the even one of two. |
| Adjacency.ExprNeat | rescan/dsl/parser.py:277-381 | What the grammar takes as an expression never has a name right behind a number. |
| Exponents.ExponentBreaks | rescan/dsl/parser.py:119-185 | The text of a tree with an exponent in it, in front of anything, is not tokenized, or has a name right behind a number. |
| Meaning.EvalMeans | rescan/dsl/eval.py:111-435 | Where every field a rule reads is stated, every record kind it uses is listed and the judge answers yes or no, the evaluator says TRUE if and only if the rule is true in a two-valued reading written with negation, quantifiers, order and membership alone, and FALSE otherwise: every connective, ANY, COUNT, SUM, MAX, MIN, AVG and leaf. |
| Meaning.LeafUnknownIff | rescan/dsl/eval.py:111-262 | A leaf is undecided if and only if its field is unstated or an empty list, or it asks for the unstated unrestricted flag other than by IN. |
| Meaning.ConnectiveDecidedIff | rescan/dsl/eval.py:375-409 | With anything open: an AND fails exactly if an argument fails and holds exactly if all hold, an OR the other way round, and a NOT swaps the two. |
| Meaning.AnyDecidedIff | rescan/dsl/eval.py:276-296 | With anything open: an ANY holds exactly if a listed record satisfies its filter, and fails exactly if records are listed and none may. |
| Meaning.OpenMeasureIff | rescan/dsl/eval.py:327-362 | With a record that may yet count or a value missing, SUM, MAX, MIN and AVG never answer FALSE, and answer TRUE exactly for a SUM or MAX that already passes >= or >. |
| Meaning.DecidedMeans | rescan/dsl/eval.py:3-8 | A TRUE or FALSE reached while something is open is what the rule means on every profile that fills in the rest, under the side conditions of silence. |
| Meaning.ContainsIff | rescan/dsl/eval.py:111-262 | One text is within another exactly if it is a piece of it. |
| Evaluator.Evaluate | rescan/dsl/eval.py:422-435 | The evaluator's value is the order-independent strong Kleene value of the tree; the questions asked are exactly those of the structured-first order. |
| Evaluator.Conjunction | rescan/dsl/eval.py:375-386 | The AND loop with its early return computes the Kleene meet of all arguments. |
| Evaluator.Disjunction | rescan/dsl/eval.py:389-400 | The OR loop with its early return computes the Kleene join of all arguments. |
| Evaluator.RecordVerdicts | rescan/dsl/eval.py:269-273 | Every record is put against the filter without a judge. |
| Evaluator.AnyOfRecords | rescan/dsl/eval.py:276-296 | ANY is the join over the listed records, unknown when none is listed. |
| Evaluator.ReorderedVerdict | rescan/dsl/eval.py:370-372 | Neither order nor repetition of arguments changes a verdict. |
| Kleene.MeetFolds | rescan/dsl/eval.py:3-8 | Meet and Join are Kleene's binary tables folded over the arguments. |
| Kleene.ConnectivesMonotone | rescan/dsl/eval.py:3-8 | Knowing more never turns a decided conjunction or disjunction around. |
| Questions.StructuredFirst | rescan/dsl/eval.py:370-400 | The judge is consulted about nothing when an ASK-free argument decides an AND or OR, and otherwise exactly as the asking arguments alone would. |
| Questions.OnlyAskedMatter | rescan/dsl/eval.py:412-419 | Verdict and questions depend only on the answers to the questions asked. |
| Questions.FlatAsksIff | rescan/dsl/eval.py:14-16 | For an AND or OR whose asking arguments are questions under NOTs: no model call if and only if the structured part alone decides. |
| Questions.AsksNothingIff | rescan/dsl/eval.py:370-400 | For every rule, however nested: no model call if and only if it asks nothing - a question does; an AND or OR does not if an ASK-free argument decides it, or if its asking arguments, up to one that decides it, ask nothing. |
| Questions.NothingAskedSameVerdict | rescan/dsl/eval.py:370-400 | Such a rule has the same verdict under every judge. |
| Questions.NestedStillAsks | rescan/dsl/eval.py:14-16 | One level deeper a decided rule still asks. |
| Aggregates.CountExactIff | rescan/dsl/eval.py:311-326 | COUNT is decided without straddling its target if and only if all completions of the records agree. |
| Aggregates.CountStays | rescan/dsl/eval.py:311-318 | A decided, unstraddled COUNT survives every filling in. |
| Aggregates.MeasureStays | rescan/dsl/eval.py:327-362 | A decided SUM, MAX, MIN or AVG survives every filling in, through the rounding; a partial SUM if it is settled as it stands. |
| Aggregates.SumStaysIff | rescan/dsl/eval.py:351-353 | A partial SUM that passes keeps its verdict under every filling in if and only if no record that may match leaves the field unstated and the rounded sum still passes with every negative value in doubt; for a field declared never to be negative, if and only if it so passes. |
| Aggregates.Round2Monotone | rescan/dsl/eval.py:348 | Rounding to two decimals keeps order. |
| Aggregates.CountTurns | rescan/dsl/eval.py:311-318 | COUNT = 1 with two open records is answered no, and one more fact makes it yes. |
| Aggregates.SumTurns | rescan/dsl/eval.py:351-353 | A negative value makes a partial SUM that passed fail. |
| Silence.SilenceIsNotEvidence | rescan/dsl/eval.py:3-8 | What a profile decides without a judge, every profile that fills in unstated values (none below zero for fields declared so, if any are) decides the same way, with or without a judge, under side conditions on the profile as it stands. |
| Silence.DecidedStaysDecided | rescan/dsl/eval.py:111-362 | For ASK-free rules, under the same side conditions on the profile as it stands, a TRUE or FALSE never changes when unstated values are filled in. |
| Silence.LeafStaysIff | rescan/dsl/eval.py:220-229 | A leaf survives every filling in if and only if it is not an IN that missed the unstated unrestricted flag. |
| Queries.Answer | rescan/dsl/eval.py:438-440 | parse_expr followed by evaluate is total: a refused text gives its error, an accepted one its verdict. |
| Queries.FlattenKeepsMeaning | rescan/dsl/ast.py:121-135 | Merging nested ANDs and ORs changes no verdict. |
| Queries.StoredTextKeepsMeaning | rescan/dsl/ast.py:110-144 | A tail-safe rule stored as its canonical text means what it meant, on every profile under every judge. |
| ReadingOrder.FindCut | worker/python/reading_order.py:8-18 | The scan of one axis finds the widest gap past the running edge, the last of equals, if any exceeds the threshold. |
| ReadingOrder.OrderPage | worker/python/reading_order.py:3-20 | The recursive procedure computes the ordering the lemmas are about, and ends. |
| ReadingOrder.CutIff | worker/python/reading_order.py:10-18 | A cut is made exactly where the gap is the greatest candidate, and none exactly when there is no candidate. |
| ReadingOrder.Permutes | worker/python/reading_order.py:3-20 | The output is a permutation of the input. |
| ReadingOrder.KeepsTies | worker/python/reading_order.py:9 | Lines that share a corner keep their input order. |
| ReadingOrder.ColumnsStayTogether | worker/python/reading_order.py:6-19 | For every gutter wider than 20 that no line enters, cut first or not, all lines left of it come before all lines right of it. |
| ReadingOrder.CutsColumnsIff | worker/python/reading_order.py:8-19 | The page is cut into columns first if and only if some gutter has lines on both sides. |
| ReadingOrder.BandsThenRows | worker/python/reading_order.py:6-20 | A page without columns is split into bands, top band first, or read row by row. |
| ReadingOrder.InputOrderIrrelevant | worker/python/reading_order.py:3-20 | Two inputs with the same lines, ordered alike among lines sharing a corner, give identical output. |
| ReadingOrder.Idempotent | worker/python/reading_order.py:3-20 | Ordering an ordered page changes nothing. |
| LegalGate.ScanPatterns | rescan/rules/classifier.py:63-82 | The scan loop finds exactly the matching patterns, in table order. |
| LegalGate.MergeFindings | rescan/rules/classifier.py:110-115 | Merging with its set of seen ids keeps the first finding of each pattern. |
| LegalGate.BuiltIsGated | rescan/rules/classifier.py:157-237 | Whatever the model says, a built rule is at least as risky as its text, and applied only if it is not high-risk and neither its text nor any string in its clause matches a high-risk pattern. |
| LegalGate.AppliedIff | rescan/rules/classifier.py:199-213 | A rule is applied if and only if it compiled, nothing in it matches a high-risk pattern and the model did not assess it as high-risk. |
| GateTexts.LiteralsIff | rescan/dsl/ast.py:199-211 | The strings scanned of a clause are exactly those its canonical text spells: every quoted string, ASK questions included, and every name after IS. |
| GateTexts.BuiltVerdict | rescan/rules/classifier.py:157-237 | Whatever the model answers: a text is RISKY, and without a clause, if and only if the text, a string its clause spells, or the model's own assessment is high-risk; otherwise it is APPLICABLE with the clause if it compiled, else UNMAPPABLE. |
| GateTexts.StoredRulesAreClean | rescan/pipeline/runner.py:404-480 | After every history of a rule set, no applied rule has a high-risk pattern in its text, in a quoted string of its clause or in a name after IS. |
| Replies.TextsAreAnswered | rescan/rules/classifier.py:293-309 | Every numbered text is judged by the first answer that carries its number, and as unanswered if there is none or no model. |
| Replies.ExtrasAreJudged | rescan/rules/classifier.py:294-313 | Every other answer makes a rule of its own behind the texts, and nothing else does: the rules number the texts and the answers less the texts answered. |
| Replies.PlanIsAnswered | rescan/rules/classifier.py:276-317 | Without numbered texts each answer makes a rule, in order; without a model each sentence of the plan does. |
| Replies.AddedIff | rescan/pipeline/runner.py:419-466 | add_rule() adds exactly one rule, judged by the model's first answer, if and only if neither the text, typed or trimmed, nor that answer is high-risk; else it changes nothing. |
| RuleSets.FreshIndex | rescan/pipeline/runner.py:429-433 | The fresh-id loop ends, at the first free number. |
| RuleSets.Assign | rescan/rules/classifier.py:294-302 | The assignment loop gives each text the first answer under its number; every other answer is kept as an extra, in order. |
| RuleSets.CompilePlan | rescan/rules/classifier.py:240-320 | The compiling procedure computes the rule list the lemmas are about, in all four cases: nothing to compile, no model, no discrete texts, both. |
| RuleSets.CompiledIsGated | rescan/rules/classifier.py:293-313 | For any model answer every compiled rule is gated, rule k has id rule_k, and each discrete text has its own rule, in order, in front. |
| RuleSets.GateHolds | rescan/pipeline/runner.py:404-480 | Over every history of compiling, copying, adding and removing: every stored rule is gated and ids are unique in each run. |
| RuleSets.IdComesBackIff | rescan/pipeline/runner.py:429-433 | In any stored set of n rules, with m the least free number from n on: the id of a removed rule is the next one given out if and only if its number is one of n .. m - 1; else the next is numbered m. |
| RuleSets.IdComesBack | rescan/pipeline/runner.py:429-433 | So in a compiled set the id of a removed rule is the next one given out exactly when it was the last. |
| RuleSets.Runner.AddRule | rescan/pipeline/runner.py:419-466 | add_rule() refuses on the table's word before any model call, or on the rule's risk after; otherwise it appends one rule under a fresh id. |
| RuleSets.Runner.ClassifyRule | rescan/rules/classifier.py:323-343 | classify_rule() compiles one text under a given id; a blank one becomes an unmappable rule without text. |
| RuleSets.Runner.RemoveRule | rescan/pipeline/runner.py:468-480 | remove_rule() removes exactly the rules of that id and says whether there was one. |
| RuleSets.Runner.CopyRules | rescan/pipeline/runner.py:404-413 | The target run's rules become the source run's. |
| RuleSets.Runner.CompileRules | rescan/pipeline/runner.py:356-360 | The run's rules become the compiled ones. |
| Screening.Screen | rescan/rules/engine.py:83-91 | Every applied requirement, and no preference, is evaluated, in order. |
| Screening.ScreeningStays | rescan/rules/engine.py:8-10 | Whoever their stated values exclude, or clear, stays so on every profile that fills in unstated values, whatever a judge adds, under the same side conditions on the profile as it stands. |
| Screening.StandingIff | rescan/rules/engine.py:26-65 | A candidate is ineligible if and only if an applied requirement fails, and up for review if and only if one is undecided. |
| Screening.StandingMeans | rescan/rules/engine.py:26-65 | On a profile that states all the rules read nobody is in doubt, and excluded is exactly who does not satisfy an applied requirement in the two-valued reading. |
| Screening.BlankIsReviewed | rescan/rules/engine.py:8-10 | A resume that states nothing is never excluded; it goes to review exactly when there is a requirement. |
| Screening.ExclusionHasGrounds | rescan/rules/engine.py:26-45 | After every history of a rule set, whoever is excluded fails a stored requirement that is not high-risk and has no high-risk pattern in its text or clause. |
| Screening.FewerRulesExcludeFewer | rescan/rules/engine.py:54-65 | Dropping rules excludes nobody. |
| Shortlist.BestFirstSorts | rescan/pipeline/rank.py:271 | Sorting by falling score permutes and keeps ties in place. |
| Shortlist.OneBestFirst | rescan/pipeline/rank.py:271 | There is only one such order. |
| Shortlist.EnsembleScore | rescan/pipeline/ensemble.py:57-89 | The voting loop computes votes, rounded median and majority over the members that answered, and fails exactly when none did. |
| Shortlist.MajorityIsLowMiddle | rescan/pipeline/ensemble.py:81-84 | A majority is in favour if and only if the lower middle score reaches the cutoff: for an odd number if and only if the median does, for an even number only if it does. |
| Shortlist.MajorityDecidesScore | rescan/pipeline/ensemble.py:8-10 | More than half in favour put the recorded score at or above the cutoff, more than half against below; without a tie the two agree exactly, rounding included. |
| Shortlist.TieStillReaches | rescan/pipeline/ensemble.py:84 | A tie is recorded as no majority though the score may reach the cutoff. |
| Shortlist.OneOutlierCannotDecide | rescan/pipeline/ensemble.py:11-12 | Where the other votes are a majority of all, no single answer moves the score across the cutoff. |
| Shortlist.BuildShortlist | rescan/pipeline/rank.py:261-308 | The procedure computes the cut the lemmas are about. |
| Shortlist.ShortlistConserves | rescan/pipeline/runner.py:552-592 | With distinct references and whatever the models answer: the ranked and the excluded are everyone screened, once each; the ranked are exactly the eligible, by falling score, numbered 1..n, cut at the size; those for review are exactly the eligible with an undecided rule; and the ranking fails exactly when triage of an eligible candidate does. |
| Shortlist.ShortlistConservesIff | rescan/pipeline/runner.py:504-505 | Whatever the references: each candidate is ranked, excluded and put up for review by their own screening and counted once if and only if, of those under one reference, all are eligible and at most the last is in doubt. |
| Shortlist.OnlyDoubtfulMove | rescan/pipeline/runner.py:594-616 | A score that differs from triage is the members' rounded median, for a candidate near the cutoff or with an undecided rule. |
| Rescoring.ScoreThatStands | rescan/pipeline/runner.py:594-629 | With the ensemble on, every ranked candidate whose screening left a rule undecided, or whose triage score is within the margin of the last one shortlisted while some are cut off, ends with the rounded median of the answers there are; whoever nobody answered for keeps the triage score, as does everyone else. |
| Rescoring.BorderlineMarked | rescan/pipeline/rank.py:261-281 | Marked as borderline is exactly who is, by the final scores, within the margin of the last one shortlisted while some are cut off. |
| Rescoring.MedianIs | rescan/pipeline/ensemble.py:81-85 | The median lies half-way between the greatest score that more than half of the members reach and the greatest one that at least half reach. |
| Rescoring.Round4Nearest | rescan/pipeline/ensemble.py:85 | A recorded score has four decimals and is within half a unit of the last one. |
| Rescoring.KnownAre | rescan/pipeline/ensemble.py:57-80 | Every answer is counted as often as it was given. |
| Shortlist.TwinsAreRanked | rescan/pipeline/runner.py:504-505 | Of two candidates under one reference, one excluded, both are ranked. |

## Left out

- Guarantees.BlobsConserved: that uploads and commits happen within 1200 seconds of their lock() is taken, not proved; the object store client's 20-second limit covers one call, not a stalled worker.
- The stream: publishing, claiming from and acknowledging Redis messages; claims are allowed for any document at any time instead.
- The worker's main loop, heartbeat thread, child process, temporary files and dead-letter stream: the guarantees hold for any order of its calls, provided complete() is called at most once for a claim.
- processing_attempts rows and their timestamps: bookkeeping beside the claims.
- Random UUIDs: tokens and ids are parameters that have not been used before.
- The rows a SELECT returns, where more than one answer is possible, are parameters of the methods, constrained to be an answer of that SELECT.
- Manifest checks other than the number of files, owners' rows, presigned uploads of originals, and the deletion of originals.
- A HEAD answer with an empty version id, which the code would store as checked without version and without error.
- The controller's own lock, ECS scaling and metrics: controllers are not assumed to exclude each other.
- Parsing: token lines and columns, messages, suggestions, and the citation of a forbidden field; the four error classes remain.
- parse_clause, which trims its text and puts REQUIRE in front of a bare expression.
- Characters: `\d` and lower-casing beyond ASCII; NUMBER digits and case folding are ASCII here.
- Floats: negative zero, infinities, and rounding of sums in binary; `round(x, 2)` is exact decimal rounding, ties to even.
- Values of an unexpected Python type, which the evaluator turns into an unknown verdict: readers return their field's kind (`Evaluation.Suits`).
- A record field named work_rights: the shipped records have none.
- Verdict reasons and observed values.
- The individual field readers and the shipped vocabulary tables.
- Bounding boxes with non-integer coordinates or with ends before starts.
- Statute patterns, the splitting of a plan into lines, prompts, repair of clauses, notes, citations and justifications of rules: parameters, or no part of a verdict.
- How one score comes about from criteria and weights; triage and ensemble answers are parameters, one per candidate reference.
- A negative shortlist size.
- The audit trail and the stored form of rule sets, results and shortlists.
- HTTP, authentication, the SQL and S3 clients, text extraction, OCR, anonymisation and the language-model back ends.
