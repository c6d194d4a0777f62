# Verified model of Memdot's kernels

Memdot keeps an account's sources, documents, courses and review history, and answers context requests over them.
This project models the parts of it that decide something and proves what they promise.

| module | what it models |
|---|---|
| `Prerequisites` | the depth-first cycle check and the prerequisite-edge rows it guards |
| `EvidenceTwin` | the replay of learner events into per-concept evidence |
| `Fsrs` | the review scheduler |
| `Attempts` | start, reveal and submit of assessment attempts, and the review rows they feed |
| `Retrieval`, `ContextCompiler` | rank fusion, the private-space filter, and the budgeted selection behind them |
| `Embedding`, `SemanticLane` | hashed bag-of-words vectors, cosine, and the lane ranked by it |
| `RateLimiter` | the fixed-window limiter |
| `DocumentLedger` | document revisions under optimistic concurrency |
| `Idempotency` | idempotency records and the two routes built on them |
| `Jobs`, `Ingestion`, `Processor` | durable jobs, the outbox, ingestion of a revision, and the worker that joins them |
| `Text`, `Markdown`, `BlockIds` | plain-text export, Markdown import, and the block-id walk of document validation |
| `TipTap` | the editor's JSON tree and the stored document |
| `Wrappers`, `Ordering` | results, options, Python's stable sort and list filters |

Code that changes rows, fields or local collections is a method on a class or a loop, proved against a function of
the old state; the theorems are about those functions and about runs of them. `dafny verify dfyconfig.toml` checks
everything.

## Conventions

- Scores, stability, vectors and times are exact reals; `round(x, 4)` is modelled as the nearest four-place decimal
  with ties to even.
- SHA-256 and uuid5 are injective. A token's digest is an arbitrary bucket and sign. The square root is any function
  that is one at the values it is applied to.
- Identifiers are natural numbers with UUID order as number order. Calls receive the ids and clock readings they draw
  as parameters; an id that turns out to be taken aborts the call.
- Each request or worker batch is one atomic transaction over the rows of one account. A call that raises is rolled
  back, except where a route catches the exception and commits: then only what was written before it remains.
- The SQL functions that claim and acknowledge outbox events and that set pointers are modelled from the migration
  files; the verdicts of snapshot validation, parsers and payload validation are inputs.

## Where the code and its description differ

- `services/core/tests/test_processor_auth_snapshot.py` expects an event whose snapshot is invalid to stay
  unacknowledged; `services/core/src/memdot_core/jobs/processor.py:151-170` dead-letters the job and acknowledges the
  event. The model follows the code.
- The cycle check only looks ahead of the new edge. It is exact on acyclic edges, which is what its caller keeps, and
  misses a cycle elsewhere (`CheckIgnoresUnreachableCycle`).
- The replay promises stability under duplicates and reordering. Its deduplicated history has it iff no id has two
  different records tied for its earliest time (`HistoryIsStableIff`). Its projections have it whenever such records
  differ at most in what the replay does not read (`ProjectionIgnoresOrderAndDuplicates`); any other difference shows
  in some list (`TiedRecordsMatterIff`), and two tied grades are enough (`TiedGradesAreOrderSensitive`). A primary key
  on events rules such ties out.
- A zero-length limiter window admits everything, so the sliding bound fails for it and only for it
  (`SlidingBoundIff`).
- Filtering before or after fusion agrees iff a visible candidate raises in both orders, or nothing raises and no id is
  both visible and private (`FilterCommutesIff`); a private rank that cancels `k` raises in one order only
  (`PrivateRankCanRaise`).
- A failed save burns its idempotency key. The record outlives the failure and its fingerprint covers the base
  revision, so the same request stays stale and a rebased one conflicts. Only a valid request whose base names no
  revision stored yet can still succeed under the key (`FailedSaveBurnsKeyIff`).
- Repeating an enqueue under its key finds the first job iff the payload named no job and nobody repeated the request
  for another type of event in between, whatever workers and cancels did (`EnqueueIsIdempotentIff`): that inserts a
  second job under the key, and the lookup then raises (`RepeatAfterOtherEventRaises`).
- The duplicate-id walk looks a raw id up among strings, so equal ids that are not strings pass
  (`EqualScalarIdsPass`), while a string equal to an earlier number's text does not.
- Revealing the same thing twice, or starting twice with an empty client attempt id, collides on a unique key and is
  rolled back rather than answered.
- A parse result with repeated element ids is refused by its insert, before the validation that would name the fault.
- Redelivery of a revision whose OCR run won raises, because the early return looks at the primary parser's run only
  (`RedeliveryCommitsIff`).
- A shadow ingestion that goes well leaves its source RUNNING and its job FAILED (`GoodParseIsPromoted`).
- Normalising the editor's tree drops a text leaf at the top level, and a top-level unsupported block comes back as a
  paragraph (`PlainTextIsKeptIff`, `RoundTripIff`).
- A nonempty text can have the zero vector, and then its cosine with itself is 0 (`SelfCosineIff`, `TokensCancelIff`).

## Model

| member | source | states |
|---|---|---|
| `Prerequisites.CycleSearch.Dfs` | packages/domain-python/src/memdot_domain/learning.py:115-126 | a search that returns true has found a walk back into itself; one that returns false leaves the stack as it was and the node finished, every finished node having only earlier-finished successors |
| `Prerequisites.WouldCreateCycle` | packages/domain-python/src/memdot_domain/learning.py:100-128 | for every edge list and neighbour order, true iff the graph with the new edge has a cycle reachable from the edge's source |
| `Prerequisites.BuildGraph` | packages/domain-python/src/memdot_domain/learning.py:107-109 | the dictionary of successor sets holds exactly the pairs of the edge list |
| `Prerequisites.CheckIsExact` | packages/domain-python/src/memdot_domain/learning.py:107-128 | on acyclic edges the answer is true iff the new target already reaches the new source (or equals it), iff adding the edge would end acyclicity |
| `Prerequisites.CheckIgnoresUnreachableCycle` | packages/domain-python/src/memdot_domain/learning.py:128 | a concrete graph whose existing cycle the check does not see, since it only looks ahead of the new edge |
| `Prerequisites.FinishedHasNoLasso` | packages/domain-python/src/memdot_domain/learning.py:115-126 | no walk from a finished node ever returns to a node it has visited |
| `Prerequisites.RequestKeepsAcyclic` | services/core/src/memdot_core/learning/service.py:102-145 | one call, accepted or refused, keeps every course's confirmed edges acyclic |
| `Prerequisites.RunsKeepAcyclic` | services/core/src/memdot_core/learning/service.py:102-145 | after any sequence of calls on empty rows every course's confirmed edges are acyclic |
| `Prerequisites.RequestRecords` | services/core/src/memdot_core/learning/service.py:132-145 | an accepted call adds exactly one row, with the course, edge and confirmation it was given; confirmed edges grow by that edge iff it was confirmed; a refused call changes nothing |
| `Prerequisites.RowsAreAccepted` | services/core/src/memdot_core/learning/service.py:132-145 | over every run the rows are those of the accepted requests, each as it was asked for |
| `Prerequisites.ConfirmedAreAccepted` | services/core/src/memdot_core/learning/service.py:113-145 | over every run a course's confirmed edges are exactly the edges of its accepted confirmed requests |
| `Prerequisites.HistoryDecides` | services/core/src/memdot_core/learning/service.py:102-145 | after any run each refusal, and acceptance, is characterised by the requests accepted before: a cycle iff accepted confirmed edges lead from the new target back to its source |
| `Prerequisites.ReverseIsRefused` | services/core/src/memdot_core/learning/service.py:127-131 | once an edge was confirmed its reverse is refused as a cycle after any number of other calls |
| `Prerequisites.Curriculum.AddPrerequisiteEdge` | services/core/src/memdot_core/learning/service.py:102-145 | a call is refused for a missing course, a return path, an unknown confirmation or a violated row constraint, in that order, and changes nothing; otherwise exactly its row is added |
| `Prerequisites.RunsKeepPairsUnique` | services/core/alembic/versions/20260719_0004_learning.sql:56-61 | over every run each course holds a pair of nodes at most once and no node is paired with itself |
| `Prerequisites.ConfirmedPairs` | services/core/src/memdot_core/learning/service.py:116-126 | the query returns exactly the confirmed edges of the course |
| `EvidenceTwin.HistoryIsStableIff` | packages/domain-python/src/memdot_domain/evidence_twin.py:40-49 | all reorderings and duplications of an event list leave its deduplicated history, record for record, unchanged iff no id has two different records tied for its earliest time |
| `EvidenceTwin.SameEventsSameHistory` | packages/domain-python/src/memdot_domain/evidence_twin.py:40-49 | two lists with the same set of events have one and the same deduplicated history |
| `EvidenceTwin.CanonicalKeepsEarliest` | packages/domain-python/src/memdot_domain/evidence_twin.py:42-49 | what survives of an id is its earliest record |
| `EvidenceTwin.ConceptEvidence.Apply` | packages/domain-python/src/memdot_domain/evidence_twin.py:52-83 | the branch-by-branch update of one event moves the closed-form summary of a concept's history to that of the longer history |
| `EvidenceTwin.ReplayEvidence` | packages/domain-python/src/memdot_domain/evidence_twin.py:37-84 | the replay loop yields, per concept, the closed form: state fixed by the last eligible grade and the number of correct ones, recall by the last signal, two counts |
| `EvidenceTwin.StateReads` | packages/domain-python/src/memdot_domain/evidence_twin.py:55-77 | the state read off positions: DELAYED_DEMONSTRATED iff the last eligible grade is correct and an earlier one was, DEMONSTRATED iff it is the first correct one, PRACTICING after a wrong one or mere practice |
| `EvidenceTwin.RecallAndCountsRead` | packages/domain-python/src/memdot_domain/evidence_twin.py:55-83 | recall is set by the last grade or known rating, LAPSED iff it was wrong or AGAIN; the counts count correct eligible grades and ineligible events |
| `EvidenceTwin.ProjectionIgnoresOrderAndDuplicates` | packages/domain-python/src/memdot_domain/evidence_twin.py:40 | any order and any duplication give the same projections when records of one id tied for its earliest time differ at most in what the replay does not read |
| `EvidenceTwin.UnambiguousIsObservedUnambiguous` | packages/domain-python/src/memdot_domain/evidence_twin.py:42-49 | that holds in particular when no id has two different records tied for its earliest time |
| `EvidenceTwin.ProjectionReadsObserved` | packages/domain-python/src/memdot_domain/evidence_twin.py:46-84 | the projections depend only on the observed fields: id, time, concept, eligibility, and the kind, correctness or rating class that the branches read |
| `EvidenceTwin.TiedRecordsMatterIff` | packages/domain-python/src/memdot_domain/evidence_twin.py:43-49 | which of two records of one id and time is met first makes no difference in any list iff they agree on what the replay reads |
| `EvidenceTwin.TiedGradesAreOrderSensitive` | packages/domain-python/src/memdot_domain/evidence_twin.py:43-49 | a correct and an incorrect grade tied under one id: two orders of the same list give different projections |
| `EvidenceTwin.ConceptsAreIndependent` | packages/domain-python/src/memdot_domain/evidence_twin.py:52-54 | a concept's evidence equals the replay of that concept's events alone |
| `EvidenceTwin.CanonicalFilters` | packages/domain-python/src/memdot_domain/evidence_twin.py:42-49 | selecting events before or after ordering and deduplication is the same |
| `EvidenceTwin.IneligibleOnlyMarks` | packages/domain-python/src/memdot_domain/evidence_twin.py:55-60 | ineligible events only add hits and turn UNASSESSED into PRACTICING |
| `EvidenceTwin.DeletingIneligibleEvents` | packages/domain-python/src/memdot_domain/evidence_twin.py:55-60 | deleting all ineligible events changes per concept only the hit count and UNASSESSED versus PRACTICING, and drops entries of concepts seen only in them |
| `Fsrs.RoundIsNearest` | packages/domain-python/src/memdot_domain/fsrs.py:95-96 | four-place rounding picks a nearest four-place decimal |
| `Fsrs.RoundMonotone` | packages/domain-python/src/memdot_domain/fsrs.py:95-96 | rounding never reverses an order |
| `Fsrs.ReplayStaysInRange` | packages/domain-python/src/memdot_domain/fsrs.py:59-101 | over every rating sequence stability is at least 0.5, difficulty is in [1, 10] and both stay on their decimal grids |
| `Fsrs.ReplayCounts` | packages/domain-python/src/memdot_domain/fsrs.py:73-91 | `lapses` is the number of AGAINs and `reps` the length of the AGAIN-free tail |
| `Fsrs.DueTimesAreOrdered` | packages/domain-python/src/memdot_domain/fsrs.py:73-92 | from any reachable card AGAIN is due before HARD, HARD no later than GOOD, GOOD before EASY; HARD and GOOD tie iff stability is at most 5/9 |
| `Fsrs.StabilityFollowsRating` | packages/domain-python/src/memdot_domain/fsrs.py:73-96 | a pass never lowers stored stability, a better pass never yields less, AGAIN never raises it |
| `Fsrs.StabilityGrowsByFactor` | packages/domain-python/src/memdot_domain/fsrs.py:59-101 | stored stability lies within half a unit of the fourth place of the answer's factor times the old one; due times use the unrounded interval |
| `Fsrs.DifficultyOfRepeated` | packages/domain-python/src/memdot_domain/fsrs.py:59-92 | difficulty after n equal answers: up 1 per AGAIN, up a half per HARD, down a half per EASY, from 5, between 1 and 10 |
| `Fsrs.ForgottenCard` | packages/domain-python/src/memdot_domain/fsrs.py:66-75 | after any number of AGAINs stability is 0.5, nothing counts as repeated, and the card is due in ten minutes |
| `Fsrs.RoundTiesToEven` | packages/domain-python/src/memdot_domain/fsrs.py:95-96 | halfway between two four-place decimals the even one is taken |
| `Fsrs.OutcomeRatings` | packages/domain-python/src/memdot_domain/fsrs.py:42-56 | AGAIN iff wrong, revealed or hinted; else HARD iff scaffolded, EASY iff effortless only |
| `Attempts.StepKeepsSound` | services/core/src/memdot_core/learning/service.py:228-364 | each call keeps index, events, gradings and review rows in agreement |
| `Attempts.RunKeepsSound` | services/core/src/memdot_core/learning/service.py:228-562 | over every run: one grade event and one grading per graded attempt, eligible iff nothing was revealed, and every stored review state is the scheduler's fold over exactly the unrevealed gradings of that user and item |
| `Attempts.GradeFollowsSealedOption` | services/core/src/memdot_core/learning/service.py:482-562 | a recorded grade, in the reply, the event and the grading, is correct iff the sealed option is there and equals the response; the attempt's row and, if eligible, one review are all else that is written |
| `Attempts.GradingsFollowCalls` | services/core/src/memdot_core/learning/service.py:435-562 | over every run each grading is one submission's response judged against its revision's sealed option, and its attempt's row holds that response |
| `Attempts.SubmitAnswers` | services/core/src/memdot_core/learning/service.py:449-510 | which refusal or replay a submission gets, by confidence, client id, catalogue and the caller's own attempt under that id |
| `Attempts.StepAdvances` | services/core/src/memdot_core/learning/service.py:313-364 | no call deletes a row, clears a reveal flag, rewrites an event or touches a graded attempt |
| `Attempts.RunAdvances` | services/core/src/memdot_core/learning/service.py:228-562 | the same from any point of a run to any later one: reveal flags only turn on and freeze at grading |
| `Attempts.SubmitGradesIff` | services/core/src/memdot_core/learning/service.py:435-562 | a submission records a grade iff it carries a confidence and a client id, its targets resolve, and a matching attempt of this user is in progress |
| `Attempts.StartOpensIff` | services/core/src/memdot_core/learning/service.py:228-310 | a start opens an attempt iff course, item and revision belong together and neither its id nor its client id is in use; it then adds one row and its start event and nothing else |
| `Attempts.StartRefusals` | services/core/src/memdot_core/learning/service.py:240-290 | which refusal a start gets: course, item, revision, conflict or taken id |
| `Attempts.StartReplies` | services/core/src/memdot_core/learning/service.py:262-310 | a repeated start is answered with the attempt it started, with its current status; a new one with the new attempt |
| `Attempts.StartedRow` | services/core/src/memdot_core/learning/service.py:283-310 | a fresh attempt holds its own target and client id, is in progress with nothing revealed, and is announced by one ineligible event |
| `Attempts.RevealMarksIff` | services/core/src/memdot_core/learning/service.py:313-358 | a reveal changes rows iff the user's own attempt is in progress, something is revealed and this kind was not revealed before |
| `Attempts.RevealAnswers` | services/core/src/memdot_core/learning/service.py:313-364 | a reveal sets exactly the flags asked for, adds one ineligible event and reports the resulting flags; otherwise nothing changes |
| `Attempts.GradedAttemptReplays` | services/core/src/memdot_core/learning/service.py:464-471 | a later submission for a graded attempt changes nothing: it is answered as idempotent or refused as a conflict |
| `Attempts.RepeatedRevealAborts` | services/core/src/memdot_core/learning/service.py:332-358 | revealing the same thing twice collides on the event's unique client id and is rolled back |
| `Attempts.RatingExtendsFold` | services/core/src/memdot_core/learning/service.py:644-722 | applying a rating to the stored state is one more step of the fold |
| `Attempts.AssessmentService.StartAttempt` | services/core/src/memdot_core/learning/service.py:228-310 | the row-by-row code computes the start step, errors and idempotent replay included, and keeps the rows sound |
| `Attempts.AssessmentService.RecordReveal` | services/core/src/memdot_core/learning/service.py:313-364 | the row-by-row code computes the reveal step and keeps the rows sound |
| `Attempts.AssessmentService.SubmitAttempt` | services/core/src/memdot_core/learning/service.py:435-562 | the row-by-row code computes the submit step whatever reveal booleans the client sends |
| `Retrieval.Accumulate` | packages/domain-python/src/memdot_domain/retrieval.py:74-96 | one candidate extends the dictionary to the merged entries of one more occurrence |
| `Retrieval.FuseCandidates` | packages/domain-python/src/memdot_domain/retrieval.py:63-101 | the loops and the sort yield the fused list; it raises iff some rank makes k + rank zero |
| `Retrieval.FusionMeetsSpec` | packages/domain-python/src/memdot_domain/retrieval.py:63-101 | output ids are exactly the input ids, once each, strictly ordered by descending score then id, each score the sum over all occurrences |
| `Retrieval.FusedDescribesItsOccurrences` | packages/domain-python/src/memdot_domain/retrieval.py:74-96 | a fused candidate's identity is its first occurrence's, its lanes are all its occurrences' in order, its texts the first's or else the first later nonempty one |
| `Retrieval.ContributionIsWeighted` | packages/domain-python/src/memdot_domain/retrieval.py:59-60 | contribution times k + rank is the lane's weight, 1 for a lane without one |
| `Retrieval.HeavierLaneComesFirst` | packages/domain-python/src/memdot_domain/retrieval.py:72-101 | of two candidates that occur once at equal ranks the one from the heavier lane comes first |
| `Retrieval.DefaultWeights` | packages/domain-python/src/memdot_domain/retrieval.py:71 | no weights or empty ones mean the five default weights |
| `Retrieval.RankingIgnoresOrder` | packages/domain-python/src/memdot_domain/retrieval.py:97-101 | lane order and order inside lanes change neither ids, scores nor ranking |
| `Retrieval.BetterRankContributesMore` | packages/domain-python/src/memdot_domain/retrieval.py:59-60 | with a non-negative weight a smaller positive denominator never contributes less |
| `Retrieval.ImprovementIsMonotone` | packages/domain-python/src/memdot_domain/retrieval.py:59-101 | improving one candidate's rank in one lane never moves it below a candidate it was above |
| `Retrieval.ExcludePrivateSpaces` | packages/domain-python/src/memdot_domain/retrieval.py:104-119 | keeps everything for other purposes and exactly the non-private candidates, in order, for an external read |
| `Retrieval.PrivateCandidatesAreDropped` | packages/domain-python/src/memdot_domain/retrieval.py:104-119 | kept are exactly the candidates whose space is not known to be private |
| `Retrieval.FilterCommutesIff` | services/core/src/memdot_core/context/service.py:185-188 | filtering every lane then fusing answers what fusing then filtering answers, exact ordered list with scores or exception, iff a visible candidate already raises, or none raises and no id occurs in both a visible and a private space |
| `Retrieval.PrivateRankCanRaise` | packages/domain-python/src/memdot_domain/retrieval.py:59-60 | a private candidate whose rank cancels k makes fusing first raise and filtering first return |
| `Retrieval.MixedIdBreaks` | services/core/src/memdot_core/context/service.py:187-188 | an id in both a visible and a private space makes the two lists differ |
| `ContextCompiler.CompileContext` | packages/domain-python/src/memdot_domain/context_compiler.py:84-148 | the loop decides every candidate as specified and is partial iff something was left out |
| `ContextCompiler.WithinBudget` | packages/domain-python/src/memdot_domain/context_compiler.py:104-134 | selected text totals at most 4 * max_tokens characters, at most max_items are selected, no id twice |
| `ContextCompiler.OmissionsAreJustified` | packages/domain-python/src/memdot_domain/context_compiler.py:110-134 | every budget omission would break a bound of the final selection, every duplicate's id is in it, and text is kept iff selected |
| `ContextCompiler.ItemsDescribeTheirCandidates` | packages/domain-python/src/memdot_domain/context_compiler.py:104-134 | each item names its own candidate, is a duplicate iff an earlier item took its id, and shows the corpus' text, else the snippet, else nothing |
| `ContextCompiler.CorpusHidesSnippets` | packages/domain-python/src/memdot_domain/context_compiler.py:106 | snippets of candidates the corpus has a text for do not matter |
| `ContextCompiler.DecisionsAreStable` | packages/domain-python/src/memdot_domain/context_compiler.py:104-134 | candidates that follow never change earlier decisions |
| `ContextCompiler.FewerItemsIsPrefix` | packages/domain-python/src/memdot_domain/context_compiler.py:113-115 | the selection for a smaller item budget is exactly a prefix of that for a larger one |
| `ContextCompiler.PrivateCandidatesLeaveNoTrace` | services/core/src/memdot_core/context/service.py:185-199 | fusing, filtering and packing for an external read gives the same items or the same exception whatever private candidates the lanes held, as long as none of them raises by itself or shares an id with a visible one |
| `RateLimiter.SlidingBoundHolds` | services/core/src/memdot_core/policy.py:31-40 | with a positive window and a monotonic clock, any closed interval as long as the window admits at most 2 * limit requests of a key |
| `RateLimiter.SlidingBoundIff` | services/core/src/memdot_core/policy.py:31-40 | the bound holds for every trace iff the window is not zero or the limit is not positive |
| `RateLimiter.DeniedOnlyWhenFull` | services/core/src/memdot_core/policy.py:37-38 | a denied request finds exactly `limit` admissions of its key since the window opened, all less than one window old |
| `RateLimiter.KeysAreIndependent` | services/core/src/memdot_core/policy.py:33 | a key's bucket and answers depend on its own requests alone |
| `RateLimiter.WindowInvariant` | services/core/src/memdot_core/policy.py:31-40 | the bucket counts exactly the admissions of the current window, and all older requests lie at least one or two windows back |
| `RateLimiter.WindowStarts` | services/core/src/memdot_core/policy.py:26-36 | a window starts at the second clock read of a key's first request, or at the read of a later one |
| `RateLimiter.AdmittedIffRoom` | services/core/src/memdot_core/policy.py:31-40 | a request is admitted iff the limit is positive and it opens a window or finds fewer than `limit` admissions since the current one's start |
| `RateLimiter.RateBucket.Take` | services/core/src/memdot_core/policy.py:34-40 | rolls a due window over, then counts the request iff there is room |
| `RateLimiter.InMemoryRateLimiter.Allow` | services/core/src/memdot_core/policy.py:31-40 | answers and updates one key's bucket object as specified and no other |
| `DocumentLedger.RunIsLinear` | services/core/src/memdot_core/documents/service.py:59-193 | after any run of creates and saves every document has one linear history ending at its current pointer |
| `DocumentLedger.WalkVisitsEveryRevision` | services/core/src/memdot_core/documents/service.py:121-193 | following base pointers from the current revision visits every revision of the document once and ends at the root |
| `DocumentLedger.SameBaseCommitsOnce` | services/core/src/memdot_core/documents/service.py:139-141 | of any two saves of one document on the same base, in any run, at most one commits |
| `DocumentLedger.StaleSaveChangesNothing` | services/core/src/memdot_core/documents/service.py:140-141 | a valid save is refused as stale, with the current revision reported and nothing changed, iff its base is not the current revision |
| `DocumentLedger.CommittedCall` | services/core/src/memdot_core/documents/service.py:59-193 | a committed call adds one revision, based on nothing for a create and on the current revision for a save, points its own document at it and moves no other pointer |
| `DocumentLedger.CommitsIff` | services/core/src/memdot_core/documents/service.py:59-193 | a call commits iff it is valid, its ids are unused and it creates a new document or saves on the current revision of an existing one |
| `DocumentLedger.SaveAnswers` | services/core/src/memdot_core/documents/service.py:121-193 | which refusal a save gets: invalid, stale, not found or a taken id |
| `DocumentLedger.CommittedRowsStay` | services/core/src/memdot_core/documents/service.py:164-190 | every committed call of a run has left a revision with exactly its document, base and content digest, and no later call changes it |
| `DocumentLedger.RowsAreCommitted` | services/core/src/memdot_core/documents/service.py:59-193 | every stored revision is the row of a committed call |
| `DocumentLedger.CurrentIsLastCommit` | services/core/src/memdot_core/documents/service.py:180-190 | the current revision of a document is that of its last committed call |
| `DocumentLedger.LastCommitIsRead` | services/core/src/memdot_core/documents/service.py:121-215 | what is read after a run has the content that the last committed call of the document submitted |
| `DocumentLedger.CurrentIsALeaf` | services/core/src/memdot_core/documents/service.py:180-190 | the current revision is the base of no revision |
| `DocumentLedger.RowsAreImmutable` | services/core/src/memdot_core/documents/service.py:164-190 | no later call changes or removes a stored revision |
| `DocumentLedger.DocumentService.SetCurrentRevision` | services/core/alembic/versions/20260716_0001_phase3_canonical.sql:794-828 | inserts the revision, moves or creates the pointer and records the outbox event, or changes nothing |
| `DocumentLedger.DocumentService.CreateDocument` | services/core/src/memdot_core/documents/service.py:59-118 | computes the create step and keeps histories linear |
| `DocumentLedger.DocumentService.SaveRevision` | services/core/src/memdot_core/documents/service.py:121-193 | computes the save step and keeps histories linear |
| `DocumentLedger.DocumentService.GetCurrentRevision` | services/core/src/memdot_core/documents/service.py:196-215 | never dangles: a revision of the document is returned iff the document exists |
| `Idempotency.Routes.BeginIdempotency` | services/core/src/memdot_core/idempotency.py:42-81 | first use opens a record, the same fingerprint replays it, another one conflicts |
| `Idempotency.Routes.CompleteIdempotency` | services/core/src/memdot_core/idempotency.py:84-102 | stores status and body in the record, if there is one |
| `Idempotency.Routes.PostSource` | services/core/src/memdot_core/sources/routes.py:68-126 | the route computes the create-source step; a failed insert rolls the fresh record back |
| `Idempotency.Routes.PostRevision` | services/core/src/memdot_core/documents/routes.py:89-169 | the route computes the save step, re-executing under an open record |
| `Idempotency.StepOnKey` | services/core/src/memdot_core/idempotency.py:42-102 | one call leaves a key's record and effects alone, opens the record, or completes it with exactly one effect |
| `Idempotency.SourceCallIff` | services/core/src/memdot_core/sources/routes.py:68-126 | a create-source call inserts its source iff its key is unrecorded and its id unused; each answer is characterised |
| `Idempotency.RevisionCallIff` | services/core/src/memdot_core/documents/routes.py:89-169 | a save inserts exactly the revision asked for iff its key is new or its own open one and the ledger accepts it; what a refused call leaves is stated |
| `Idempotency.OneRowPerKey` | services/core/src/memdot_core/idempotency.py:42-102 | of all calls of a run under one key, whatever their route and fingerprint, at most one inserts a source or revision row |
| `Idempotency.RowsStayMatched` | services/core/src/memdot_core/idempotency.py:42-102 | the recorded effects are the rows: every source and every revision with a base is named by exactly one effect |
| `Idempotency.RunKeepsSound` | services/core/src/memdot_core/idempotency.py:42-102 | over every run a key has at most one effect, which names a stored row, and its record holds that effect's fingerprint and body |
| `Idempotency.RecordsOnlyFill` | services/core/src/memdot_core/idempotency.py:50-102 | a recorded fingerprint never changes and a stored response is never replaced |
| `Idempotency.OtherFingerprintConflicts` | services/core/src/memdot_core/idempotency.py:56-60 | after any further calls, another fingerprint under a recorded key changes nothing and is told of the conflict |
| `Idempotency.SuccessIsReplayed` | services/core/src/memdot_core/idempotency.py:61-68 | after any further calls, a matching call changes nothing and returns the stored status and body of the one success |
| `Idempotency.RepeatGetsFirstAnswer` | services/core/src/memdot_core/idempotency.py:61-68 | a call that inserted a row answers 201 or 200 with its body, and every later call with its envelope gets that very answer |
| `Idempotency.FailedSaveBurnsKeyIff` | services/core/src/memdot_core/documents/routes.py:100-151 | after a first save under a key failed and left its record, some run whose calls with that fingerprint are that request creates a row under the key iff the request is valid and its base names no revision stored yet |
| `DocumentLedger.PastBaseFails` | services/core/src/memdot_core/documents/service.py:139-141 | a save on no base, or on a stored revision that is not current, fails in every linear ledger |
| `Jobs.JobTables.EnqueueJob` | services/core/src/memdot_core/jobs/service.py:43-118 | computes the enqueue step: reuse under an idempotency key, conflict, or one job and one event |
| `Jobs.EnqueueAnswers` | services/core/src/memdot_core/jobs/service.py:43-118 | what a request is answered and inserts: a queued job and its unpublished event under an unused key, a conflict iff the key's one job differs in type, space or payload |
| `Processor.EnqueueIsIdempotentIff` | services/core/src/memdot_core/jobs/service.py:55-87 | in every run, after a first request under a key and any further enqueues, worker batches, cancels and uploads, repeating it returns the first ids and inserts nothing iff its payload carried no job id and no call in between repeated it for another event type |
| `Jobs.SecondJobIff` | services/core/src/memdot_core/jobs/service.py:61-87 | while a key has one job, a call gives it a second one iff it repeats that job for another event type with unused ids |
| `Jobs.RepeatAfterOtherEventRaises` | services/core/src/memdot_core/jobs/service.py:55-60 | after the same request for another event type under the key, every repeat raises |
| `Jobs.EnqueueKeepsTables` | services/core/src/memdot_core/jobs/service.py:88-118 | enqueueing keeps digests valid, changes no existing job, event or attempt, and starts nothing |
| `Jobs.JobTables.StartJobAttempt` | services/core/src/memdot_core/jobs/service.py:164-192 | the next attempt number is one above the highest, the job is running |
| `Jobs.JobTables.CompleteJobAttempt` | services/core/src/memdot_core/jobs/service.py:195-219 | closes the attempt and the job with the same outcome |
| `Jobs.StartOpensNext` | services/core/src/memdot_core/jobs/service.py:164-192 | the started attempt takes the number after the job's last one; only it and the job's status are new |
| `Jobs.CompleteClosesOne` | services/core/src/memdot_core/jobs/service.py:195-219 | the one attempt of this id and its job get the same outcome and error |
| `Processor.DeadLetterKeepsTables` | services/core/src/memdot_core/jobs/service.py:227-234 | raises iff the job is missing; otherwise marks that job and leaves every other job, attempt and event alone |
| `Jobs.AttemptCycle` | services/core/src/memdot_core/jobs/service.py:164-219 | starting then completing an attempt leaves nothing running, numbers 1..n without gaps and exactly one more closed attempt |
| `Ingestion.ValidateParseResult` | services/core/src/memdot_core/ingestion/normalize.py:16-27 | no errors iff the result is clean, and each kind of error iff its cause is present |
| `Ingestion.DuplicateElementsAbort` | services/core/src/memdot_core/ingestion/orchestrator.py:381-388 | a result with repeated element ids raises at its insert and never reaches validation |
| `Ingestion.IngestKeepsPointers` | services/core/src/memdot_core/ingestion/orchestrator.py:415-443 | every active pointer names a succeeded, non-shadow run of its revision with valid elements and quality at or above the OCR threshold |
| `Ingestion.PointerMovesIff` | services/core/src/memdot_core/ingestion/orchestrator.py:346-460 | a settled result moves the pointer, to its own run only, iff it is clean, not a shadow and at or above the threshold; the run is recorded as succeeded iff clean and promoted or shadow; the source status follows |
| `Ingestion.BetterResultIsKept` | services/core/src/memdot_core/ingestion/orchestrator.py:343-460 | from the parsers' answers alone: the primary's result is kept when it reaches the threshold or OCR is not better, otherwise OCR's under OCR's run id; the kept result fixes pointer, run, elements, source, promotion event and job |
| `Ingestion.KeptIsBetter` | services/core/src/memdot_core/ingestion/orchestrator.py:343-358 | below the threshold the kept quality is the greater of the two |
| `Ingestion.FailedParseIsRecorded` | services/core/src/memdot_core/ingestion/orchestrator.py:268-341 | a primary parser that raised or returned too many pages leaves one failed run with its code, a failed source and a failed job |
| `Ingestion.TooLargeRecordsOnly` | services/core/src/memdot_core/ingestion/orchestrator.py:207-240 | a file over the limit gets one failed run and fails its source and job, and nothing else changes |
| `Ingestion.IngestReturnsIff` | services/core/src/memdot_core/ingestion/orchestrator.py:168-460 | exactly when a call returns instead of raising, for every request, store and parser answer |
| `Ingestion.OtherwisePointersStay` | services/core/src/memdot_core/ingestion/orchestrator.py:205-344 | a call that returns without settling a result moves no pointer, adds no element and records no succeeded run |
| `Ingestion.SucceededPrimaryIsLeftAlone` | services/core/src/memdot_core/ingestion/orchestrator.py:205-267 | a returned non-shadow call on a revision whose primary run succeeded changes no element or pointer, and no run unless the file exceeds the size limit, which adds one failed run |
| `Ingestion.RedeliveryIsHarmless` | services/core/src/memdot_core/ingestion/orchestrator.py:168-460 | a second delivery of the same request raises or leaves elements, pointers and (within the size limit) runs unchanged |
| `Ingestion.RedeliveryCommitsIff` | services/core/src/memdot_core/ingestion/orchestrator.py:243-460 | with unused ids the second delivery returns iff the file is too large or the primary run is on record as succeeded; a revision whose OCR run won raises |
| `Ingestion.IngestConservesJobs` | services/core/src/memdot_core/ingestion/orchestrator.py:197-460 | a returned call closes exactly one attempt of its job, leaves none open, keeps numbers gapless and digests valid, and ends the job SUCCEEDED or FAILED |
| `Ingestion.Orchestrator.PersistParseRun` | services/core/src/memdot_core/ingestion/orchestrator.py:75-109 | inserts the run unless its id is taken |
| `Ingestion.Orchestrator.PersistElements` | services/core/src/memdot_core/ingestion/orchestrator.py:139-165 | inserts every element or reports the refused one |
| `Ingestion.Orchestrator.SettleRun` | services/core/src/memdot_core/ingestion/orchestrator.py:360-413 | persists and validates the chosen result, rejecting an invalid one, as specified |
| `Ingestion.Orchestrator.SettleClean` | services/core/src/memdot_core/ingestion/orchestrator.py:415-460 | promotes with its event, shadows or rejects a validated run as specified |
| `Ingestion.Orchestrator.RunIngestion` | services/core/src/memdot_core/ingestion/orchestrator.py:168-460 | the row-by-row code computes the ingestion step, every early return and failure branch included |
| `Processor.ClaimFollows` | services/core/alembic/versions/20260717_0002_phase4_runtime.sql:140-171 | claiming a batch keeps every invariant |
| `Processor.ClaimedRowsAre` | services/core/alembic/versions/20260717_0002_phase4_runtime.sql:140-171 | a claim returns exactly the picked events that are unpublished and not under a live claim, with the new token and expiry |
| `Processor.ClaimIsExclusive` | services/core/alembic/versions/20260717_0002_phase4_runtime.sql:140-205 | until a claim expires its holder alone can acknowledge; after that a second claim takes over and the first token is worthless |
| `Processor.Worker.Acknowledge` | services/core/src/memdot_core/jobs/processor.py:42-59 | publishes the event iff the row carried a token that still holds the claim |
| `Processor.Worker.ProcessDeletionEvent` | services/core/src/memdot_core/jobs/processor.py:62-113 | advances a known workflow by one state and acknowledges; a malformed id is not acknowledged |
| `Processor.Worker.ProcessClaimedEvent` | services/core/src/memdot_core/jobs/processor.py:116-192 | computes the step of one claimed event |
| `Processor.Worker.ProcessBatch` | services/core/src/memdot_core/jobs/processor.py:203-212 | the loop over claimed rows computes their steps in order, skips rows whose digest differs and stops at the first exception |
| `Processor.Worker.DispatchOutboxBatch` | services/core/src/memdot_core/jobs/processor.py:195-212 | the batch loop is one transaction: it computes the specified batch and an exception restores every row, claims included |
| `Processor.ProcessFollows` | services/core/src/memdot_core/jobs/processor.py:116-192 | an ingestion event is acknowledged only with its job SUCCEEDED, FAILED or DEAD_LETTER, and the tables stay sound |
| `Processor.EventRunsItsIngestion` | services/core/src/memdot_core/jobs/processor.py:116-192 | an ingestion event with a valid snapshot is the call its payload spells: that source, revision and job, a shadow iff the payload has a truthy shadow |
| `Processor.GoodParseIsPromoted` | services/core/src/memdot_core/jobs/processor.py:116-192 | a clean primary result at the threshold: without a truthy shadow the named pointer, source and job are promoted and succeed, with one the pointer stays |
| `Processor.InvalidSnapshotDeadLetters` | services/core/src/memdot_core/jobs/processor.py:148-170 | an invalid snapshot dead-letters that job with its code, ingests nothing, and acknowledges |
| `Processor.OtherEventsWait` | services/core/src/memdot_core/jobs/processor.py:116-147 | every other event changes nothing and stays unacknowledged, or raises for lack of ids |
| `Processor.DeletionAdvancesOneStage` | services/core/src/memdot_core/jobs/processor.py:62-113 | a deletion event takes its own workflow one stage further, up to completion, and no other |
| `Processor.DeletionIsAcknowledged` | services/core/src/memdot_core/jobs/processor.py:62-113 | a deletion event is acknowledged under its claim unless its workflow id is malformed |
| `Processor.DispatchFollows` | services/core/src/memdot_core/jobs/processor.py:195-212 | a whole batch keeps every invariant, changes no event's facts and never unpublishes one |
| `Processor.BatchAnswersInOrder` | services/core/src/memdot_core/jobs/processor.py:203-212 | results answer the claimed rows in order, all but those whose digest does not hold |
| `Processor.MismatchedRowsAreSkipped` | services/core/src/memdot_core/jobs/processor.py:205-210 | rows whose digest does not hold might as well not have been claimed |
| `Processor.DispatchPublishes` | services/core/src/memdot_core/jobs/processor.py:195-212 | a batch publishes exactly the events it reports as acknowledged |
| `Processor.PublishedIffAcknowledged` | services/core/src/memdot_core/jobs/processor.py:42-59 | in every run an event is published iff some batch acknowledged it |
| `Processor.AcknowledgedOnce` | services/core/src/memdot_core/jobs/processor.py:42-59 | no two batches of a run acknowledge the same event |
| `Processor.UploadIsPromoted` | services/core/src/memdot_core/jobs/processor.py:116-212 | upload, enqueue, dispatch with a good parse: the revision's pointer names the new run, source and job have succeeded and the event is published |
| `Processor.EnqueuedEventPassesDigestCheck` | services/core/src/memdot_core/jobs/processor.py:205-210 | in every sound state no claimed event is skipped by the digest test |
| `Processor.StepKeepsRequests` | services/core/src/memdot_core/jobs/processor.py:116-212 | no call but an enqueue changes a job's type, space, key or payload or an event's job or type, and no event such a call adds names a job |
| `Processor.RunIsSound` | services/core/src/memdot_core/jobs/processor.py:116-212 | over every run of enqueues, batches, cancels and uploads: published ingestion events have a closed attempt or a dead-lettered job, no attempt is open, numbers are gapless, digests match, active pointers are sound |
| `Markdown.DocumentFromMarkdown` | packages/domain-python/src/memdot_domain/document.py:234-268 | the import loop builds one block per nonblank line with ids drawn in order |
| `Markdown.BlockPlain` | packages/domain-python/src/memdot_domain/document.py:197-217 | the recursive loop computes the plain text of a block tree |
| `Markdown.ExtractPlainText` | packages/domain-python/src/memdot_domain/document.py:220-231 | the loop computes the document's plain text |
| `Markdown.ExportSpellsDocument` | packages/domain-python/src/memdot_domain/document.py:193-231 | white space aside the export is the markers and text leaves of the top-level blocks in reading order: no visible character is lost, added or moved |
| `Markdown.BlockExportsItsLines` | packages/domain-python/src/memdot_domain/document.py:197-231 | a block of one-line items exports their texts one to a line behind the block's own prefix |
| `Markdown.RuleExport` | packages/domain-python/src/memdot_domain/document.py:197-217 | a rule is three dashes whatever it holds |
| `Markdown.ImportIsClean` | packages/domain-python/src/memdot_domain/document.py:240-262 | import yields only trimmed one-line texts, levels 1 to 6 and no paragraph that reads as a heading |
| `Markdown.ExportOfImport` | packages/domain-python/src/memdot_domain/document.py:220-272 | exporting an import gives the text with lines stripped, blanks dropped and heading gaps collapsed |
| `Markdown.RoundTripIff` | packages/domain-python/src/memdot_domain/document.py:220-272 | re-importing the export of a flat document gives it back, ids aside, iff every line is one import can produce |
| `Markdown.ReimportIsStable` | packages/domain-python/src/memdot_domain/document.py:220-272 | import of export of import equals import, ids aside |
| `Markdown.NormalizedIsIdempotent` | packages/domain-python/src/memdot_domain/document.py:220-272 | normalising Markdown twice is normalising once |
| `Markdown.SameImportIffSameNormalForm` | packages/domain-python/src/memdot_domain/document.py:234-268 | two texts import alike iff they have the same normal form |
| `Text.SplitJoin` | packages/domain-python/src/memdot_domain/document.py:240 | splitting newline-joined, nonempty, break-free lines gives the lines back |
| `Text.SplitAtBreak` | packages/domain-python/src/memdot_domain/document.py:240 | each of the line-ending characters ends exactly one line |
| `Text.SplitAtReturn` | packages/domain-python/src/memdot_domain/document.py:240 | a carriage return with its line feed ends one line |
| `Text.BreaksAre` | packages/domain-python/src/memdot_domain/document.py:240 | the ten line-ending characters, all of them white space |
| `BlockIds.BlockIdWalk.Collect` | packages/domain-python/src/memdot_domain/document.py:146-163 | the recursive walk over the shared set raises the first error in preorder or adds the texts of the ids it saw |
| `BlockIds.BlockIdWalk.CollectAll` | packages/domain-python/src/memdot_domain/document.py:173-177 | the same over all top-level blocks |
| `BlockIds.WatchPassesIff` | packages/domain-python/src/memdot_domain/document.py:146-163 | the walk passes iff every id is a scalar, every link is HTTPS and no string id has the text of an earlier id |
| `BlockIds.WatchFailsAtFirst` | packages/domain-python/src/memdot_domain/document.py:146-163 | a walk fails with an error iff the walk up to some sight passes and that sight raises it |
| `BlockIds.ParentComesFirst` | packages/domain-python/src/memdot_domain/document.py:149-163 | a block is looked at before its children |
| `BlockIds.EqualScalarIdsPass` | packages/domain-python/src/memdot_domain/document.py:149-154 | two nested blocks with the same id that is not a string pass |
| `BlockIds.WatchCollectsIds` | packages/domain-python/src/memdot_domain/document.py:154 | a passing walk adds exactly the texts of the ids in the tree |
| `BlockIds.ImportedDocumentPassesIff` | packages/domain-python/src/memdot_domain/document.py:234-268 | an imported document passes the walk iff its drawn ids differ |
| `Embedding.CountTokens` | services/core/src/memdot_core/retrieval/semantic_lane.py:26 | distinct tokens in first-seen order with exact counts |
| `Embedding.EmbeddingHash` | services/core/src/memdot_core/retrieval/semantic_lane.py:25-37 | the loop over counts, the in-place vector and the normalisation yield the specified vector |
| `Embedding.WeightedIsCoordinate` | services/core/src/memdot_core/retrieval/semantic_lane.py:30-34 | summing counts over distinct tokens equals summing signs over all occurrences |
| `Embedding.EmbeddingIgnoresOrder` | services/core/src/memdot_core/retrieval/semantic_lane.py:25-37 | texts with the same token multiset have the same vector |
| `Embedding.EmbeddingIsUnitOrZero` | services/core/src/memdot_core/retrieval/semantic_lane.py:35-37 | the vector has length one, or is zero iff the signed counts cancel in every bucket |
| `Embedding.LoneTokenIsAnAxis` | services/core/src/memdot_core/retrieval/semantic_lane.py:30-37 | a text of one token points along its bucket's axis, up or down by the digest's parity |
| `Embedding.CauchySchwarz` | services/core/src/memdot_core/retrieval/semantic_lane.py:40-41 | the squared dot product is at most the product of the squared lengths |
| `Embedding.CosineIsBounded` | services/core/src/memdot_core/retrieval/semantic_lane.py:40-41 | the cosine of any two embeddings lies in [-1, 1] |
| `Embedding.SelfCosineIff` | services/core/src/memdot_core/retrieval/semantic_lane.py:40-41 | a text and any reordering of it have cosine 1 iff the vector is not zero, and 0 otherwise |
| `Embedding.TokensCancelIff` | services/core/src/memdot_core/retrieval/semantic_lane.py:32-34 | two tokens make the zero vector iff their digests share a bucket and differ in sign |
| `SemanticLane.SemanticCandidates` | services/core/src/memdot_core/retrieval/semantic_lane.py:44-138 | the two scans, the sort and the slice yield the specified lane |
| `SemanticLane.ScoredIff` | services/core/src/memdot_core/retrieval/semantic_lane.py:62-119 | a hit is scored iff an eligible, timely row with enough similarity produced it |
| `SemanticLane.HitsShowRows` | services/core/src/memdot_core/retrieval/semantic_lane.py:56-119 | a hit is found iff it shows a document with text, or an active memory, of an eligible space, no younger than asked and similar enough: score, ids and the first 512 characters |
| `SemanticLane.LaterRowsDoNotMatter` | services/core/src/memdot_core/retrieval/semantic_lane.py:65-98 | a question about the past is answered as if nothing had been written since, nor retired memories kept |
| `SemanticLane.OtherSpacesDoNotMatter` | services/core/src/memdot_core/retrieval/semantic_lane.py:58-98 | rows of spaces that are not eligible might as well not exist |
| `SemanticLane.QueryIsStripped` | services/core/src/memdot_core/retrieval/semantic_lane.py:54-57 | white space around the query does not matter, and a blank query finds nothing |
| `SemanticLane.LaneIsTopK` | services/core/src/memdot_core/retrieval/semantic_lane.py:121-138 | the lane is a true top-k: ranks 1..n, scores not increasing and at least the threshold, nothing left out beats anything kept |
| `SemanticLane.TiesKeepScanOrder` | services/core/src/memdot_core/retrieval/semantic_lane.py:121 | equal scores keep scan order under the reverse sort |
| `SemanticLane.TiedDocumentsComeFirst` | services/core/src/memdot_core/retrieval/semantic_lane.py:62-121 | of two equal scores a document never stands behind a memory |
| `SemanticLane.FewerResultsIsPrefix` | services/core/src/memdot_core/retrieval/semantic_lane.py:123 | a smaller limit gives a prefix of the larger limit's lane |
| `SemanticLane.SameTokensScoreHighest` | services/core/src/memdot_core/retrieval/semantic_lane.py:60-84 | a text with the query's tokens in any order scores 1, which no other text exceeds, unless its vector is zero |
| `TipTap.BlockIdSource.NormalizeBlock` | apps/web/src/lib/document/memdot.ts:63-93 | the field-by-field construction computes the normalised block and draws ids in preorder |
| `TipTap.BlockIdSource.NormalizeInline` | apps/web/src/lib/document/memdot.ts:112-121 | leaves come back as they are, everything else normalised |
| `TipTap.BlockIdSource.TipTapToMemdot` | apps/web/src/lib/document/memdot.ts:45-61 | every top-level node is normalised; an empty document gets one empty paragraph |
| `TipTap.NormalizingSettles` | apps/web/src/lib/document/memdot.ts:63-121 | whatever goes in, every block that comes out has an id, a known type and, on headings, a level |
| `TipTap.TypeIsNormalized` | apps/web/src/lib/document/memdot.ts:63-110 | a missing or falsy type makes a paragraph, a known one is kept, any other is unsupported |
| `TipTap.AttrsAreNormalized` | apps/web/src/lib/document/memdot.ts:69-90 | which id, level and image attributes a normalised node has |
| `TipTap.ChildIsNormalized` | apps/web/src/lib/document/memdot.ts:112-121 | primitives, text leaves and hard breaks are not touched, everything else becomes a block |
| `TipTap.DocumentKeepsItsNodes` | apps/web/src/lib/document/memdot.ts:45-61 | every top-level node becomes one block in its place; none makes one empty paragraph |
| `TipTap.NormalizingIsIdempotent` | apps/web/src/lib/document/memdot.ts:63-121 | normalising twice is normalising once and draws no id, for every input tree |
| `TipTap.KeptIffSettled` | apps/web/src/lib/document/memdot.ts:112-121 | normalising leaves a child alone iff it is settled |
| `TipTap.RoundTripIff` | apps/web/src/lib/document/memdot.ts:45-143 | showing a stored document and storing it again returns it, absent content now empty, iff it has a block and every top-level block is settled and supported |
| `TipTap.IdsKeepPreorder` | apps/web/src/lib/document/memdot.ts:69-93 | every block id keeps its preorder place and exactly the gaps take drawn ids, in order |
| `TipTap.TextBelowIsKept` | apps/web/src/lib/document/memdot.ts:112-163 | normalising loses no text below the top level |
| `TipTap.WalkAllAppends` | apps/web/src/lib/document/memdot.ts:145-163 | texts are joined in the order of the nodes |
| `TipTap.PlainTextIsKeptIff` | apps/web/src/lib/document/memdot.ts:145-163 | the stored document has the editor tree's joined plain text iff no top-level node is a text leaf with text |

## Left out

- Floating-point rounding of scores, vectors and intervals: the laws proved are those of exact arithmetic.
- `FusedCandidate` and the job, run and attempt rows are values in maps and lists, so two names for one object are not captured; the evidence and rate buckets are objects.
- Which claimable events a claim picks, and its order and limit: a batch may be any list of claimable events.
- `ConcurrencyTracker` and `OverloadBreaker` in services/core/src/memdot_core/policy.py: counters with easy invariants.
- Context and query hashes, receipt ids and provider versions of a context receipt.
- The JSON Schema half of document validation (`model_validate`): its verdict is an input; only the id and link walk is modelled.
- Malformed shapes in the block-id walk (attributes or marks that are no objects), which raise other exceptions.
- HTML export, marks, images' URLs and the `isinstance` skips of non-dict nodes in plain-text export.
- Primary keys of learner events, and `append_learner_event`: the runs consist of start, reveal and submit.
- Review priority and course and space columns of review rows, and the lower-casing of rating strings before they are compared.
- Payload values are ids, texts, flags and null, and an event's payload is looked at no deeper.
- Storage of parser artifacts, MIME sniffing and language hints: they choose a parser, which is an input.
- From graded attempts to demonstrated evidence: grade events carry no concept, so the two are modelled apart.
- A failed or crashed batch beyond its rollback: retry delays and lease renewal are not modelled.
- Memory revisions in services/core/src/memdot_core/memory/service.py, which repeat the document ledger's protocol.
- Live merging of lanes: lane prefixes keep their ids apart, so fusion is proved for general ids.
- Other HTTP routes, MCP transport, conversations, deletion workflows started by requests, authentication and cryptography.
