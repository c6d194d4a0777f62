/** Ingestion of one source revision: parse, persist, validate, promote. */
module Ingestion {
  import opened Wrappers
  import J = Jobs

  type Uuid = nat

  /** Run ids: uuid5 of the revision and the parser profile, taken as injective, or drawn fresh. */
  datatype RunId = Derived(revision: Uuid, profile: string) | Fresh(id: Uuid)

  datatype SourceStatus = Draft | Running | Partial | Succeeded | Failed
  datatype RunStatus = RunRunning | RunSucceeded | RunFailed

  datatype Run = Run(
    revision: Uuid, profile: string, status: RunStatus, quality: real, shadow: bool, errorCode: Option<string>)

  datatype Element = Element(id: Uuid, contentHash: string, text: string)
  datatype ParseResult = ParseResult(elements: seq<Element>, pageCount: int, quality: real)

  datatype ElementRow = ElementRow(run: RunId, contentHash: string, text: string)

  /** What a parser call did: a result, one of the two caught exceptions, or anything else. */
  datatype Parsed = Parsed(result: ParseResult) | LimitExceeded(code: string) | ValueRaised | Crashed

  const OCR_QUALITY_THRESHOLD := 0.45
  const MAX_FILE_BYTES := 50 * 1024 * 1024
  const MAX_PAGES := 500

  /** `active` is keyed by source and revision. */
  datatype Db = Db(
    sources: map<Uuid, SourceStatus>, revisions: map<Uuid, Uuid>, runs: map<RunId, Run>,
    elements: map<Uuid, ElementRow>, active: map<(Uuid, Uuid), RunId>, jobs: J.Tables)

  datatype Request = Request(source: Uuid, revision: Uuid, job: Option<Uuid>, shadow: bool)

  /** What the outside world answers during one call, and the ids it draws. */
  datatype World = World(
    contentLength: Option<nat>, primaryProfile: string, primary: Parsed, ocrProfile: string, ocr: Parsed,
    freshRun: Uuid, attemptId: Uuid, eventId: Uuid)

  // ---- validation ----

  datatype ValidationError = EmptyElementsWithPositiveQuality | DuplicateElementId | InvalidContentHash

  predicate GoodHash(e: Element) {
    |e.contentHash| == 64
  }

  predicate DistinctIds(es: seq<Element>) {
    forall i, j :: 0 <= i < j < |es| ==> es[i].id != es[j].id
  }

  predicate Clean(result: ParseResult) {
    && (result.elements == [] ==> result.quality <= 0.0)
    && DistinctIds(result.elements)
    && (forall e :: e in result.elements ==> GoodHash(e))
  }

  /** `validate_parse_result`: no errors exactly when the result is clean. */
  method ValidateParseResult(result: ParseResult) returns (errors: seq<ValidationError>)
    ensures errors == [] <==> Clean(result)
    ensures EmptyElementsWithPositiveQuality in errors <==> result.elements == [] && result.quality > 0.0
    ensures DuplicateElementId in errors <==> !DistinctIds(result.elements)
    ensures InvalidContentHash in errors <==> exists e :: e in result.elements && !GoodHash(e)
  {
    errors := [];
    if result.elements == [] && result.quality > 0.0 {
      errors := errors + [EmptyElementsWithPositiveQuality];
    }
    var seen: set<Uuid> := {};
    for i := 0 to |result.elements|
      invariant seen == set k | 0 <= k < i :: result.elements[k].id
      invariant errors == [] <==>
                  (result.elements == [] ==> result.quality <= 0.0) && DistinctIds(result.elements[..i])
                  && forall k :: 0 <= k < i ==> GoodHash(result.elements[k])
      invariant EmptyElementsWithPositiveQuality in errors <==> result.elements == [] && result.quality > 0.0
      invariant DuplicateElementId in errors <==> !DistinctIds(result.elements[..i])
      invariant InvalidContentHash in errors <==> exists k :: 0 <= k < i && !GoodHash(result.elements[k])
    {
      var element := result.elements[i];
      var before := errors;
      DistinctSnoc(result.elements, i);
      if element.id in seen {
        errors := errors + [DuplicateElementId];
      }
      seen := seen + {element.id};
      if element.contentHash == "" || |element.contentHash| != 64 {
        errors := errors + [InvalidContentHash];
      }
    }
    assert result.elements[..|result.elements|] == result.elements;
  }

  lemma DistinctSnoc(es: seq<Element>, i: nat)
    requires i < |es|
    ensures DistinctIds(es[..i + 1]) <==> DistinctIds(es[..i]) && forall k :: 0 <= k < i ==> es[k].id != es[i].id
  {
    var s, t := es[..i], es[..i + 1];
    assert forall k :: 0 <= k < i ==> s[k] == t[k] == es[k];
    assert t[i] == es[i];
  }

  // ---- rows ----

  /** The element table after inserting a result's elements; `None` when a primary key is taken or repeated. */
  function InsertElements(table: map<Uuid, ElementRow>, run: RunId, es: seq<Element>): Option<map<Uuid, ElementRow>> {
    if es == [] then Some(table)
    else
      var n := |es| - 1;
      var rest := InsertElements(table, run, es[..n]);
      if rest == None || es[n].id in rest.value then None
      else Some(rest.value[es[n].id := ElementRow(run, es[n].contentHash, es[n].text)])
  }

  // ---- the call ----

  datatype Outcome = Outcome(run: RunId, status: RunStatus, quality: real, elementCount: nat)

  datatype Raised = Raised

  /** `check_page_count` runs inside the same `try` as the parser. */
  function WithPageLimit(p: Parsed): Parsed {
    if p.Parsed? && p.result.pageCount > MAX_PAGES then LimitExceeded("too_many_pages") else p
  }

  datatype Choice = Choice(result: ParseResult, run: RunId, profile: string)

  /** The OCR fallback: tried below the threshold, kept only if strictly better; its exceptions escape. */
  function Choose(w: World, revision: Uuid, result: ParseResult): Result<Choice, Raised> {
    var primary := Choice(result, Derived(revision, w.primaryProfile), w.primaryProfile);
    if result.quality >= OCR_QUALITY_THRESHOLD then Success(primary)
    else if !w.ocr.Parsed? then Failure(Raised)
    else if w.ocr.result.quality > result.quality then
      Success(Choice(w.ocr.result, Derived(revision, w.ocrProfile), w.ocrProfile))
    else Success(primary)
  }

  /** `start_job_attempt` when the call has a job. */
  function Started(t: J.Tables, r: Request, w: World): Option<J.Tables> {
    if r.job == None then Some(t)
    else
      match J.StartAttempt(t, r.job.value, w.attemptId)
      case Success(t') => Some(t')
      case Failure(_) => None
  }

  /** `complete_job` when the call has a job. */
  function Finished(t: J.Tables, r: Request, w: World, succeeded: bool, errorCode: Option<string>): Option<J.Tables> {
    if r.job == None then Some(t)
    else
      match J.CompleteJob(t, r.job.value, w.attemptId, succeeded, errorCode)
      case Success(t') => Some(t')
      case Failure(_) => None
  }

  /** Set the source's status, close the attempt, and return. */
  function Conclude(db: Db, r: Request, w: World, status: SourceStatus, succeeded: bool, errorCode: Option<string>,
                    o: Outcome)
    : Result<(Db, Outcome), Raised>
  {
    match Finished(db.jobs, r, w, succeeded, errorCode)
    case None => Failure(Raised)
    case Some(t) => Success((db.(sources := db.sources[r.source := status], jobs := t), o))
  }

  /** One failed run row, inserted unless its id is taken. */
  function RecordFailure(db: Db, r: Request, w: World, id: RunId, profile: string, runCode: string,
                         jobCode: Option<string>)
    : Result<(Db, Outcome), Raised>
  {
    if id in db.runs then Failure(Raised)
    else
      var run := Run(r.revision, profile, RunFailed, 0.0, r.shadow, Some(runCode));
      Conclude(db.(runs := db.runs[id := run]), r, w, Failed, false, jobCode, Outcome(id, RunFailed, 0.0, 0))
  }

  predicate Promotes(r: Request, result: ParseResult) {
    !r.shadow && result.quality >= OCR_QUALITY_THRESHOLD
  }

  function IdOf(run: RunId): J.Value {
    match run
    case Derived(revision, profile) => J.DerivedId(revision, profile)
    case Fresh(id) => J.Id(id)
  }

  function PromotionPayload(r: Request, run: RunId): J.Payload {
    map["source_id" := J.Id(r.source), "revision_id" := J.Id(r.revision), "parse_run_id" := IdOf(run)]
  }

  function PromotionEvent(r: Request, run: RunId): J.Event {
    J.Event(J.ActiveParseChanged, J.Sha256(PromotionPayload(r, run)), PromotionPayload(r, run), None, false, None, 0.0)
  }

  /** A clean run's final row and the source's status: promoted, shadow, or below the threshold. */
  function Verdict(r: Request, c: Choice): (Run, SourceStatus) {
    var run := Run(r.revision, c.profile, RunSucceeded, c.result.quality, r.shadow, None);
    if Promotes(r, c.result) then (run, Succeeded)
    else if r.shadow then (run.(shadow := true), Running)
    else (run.(status := RunFailed, errorCode := Some("quality_below_threshold")), Partial)
  }

  /** The rows after a clean result is settled. */
  function SettledRows(db: Db, r: Request, w: World, c: Choice, elements: map<Uuid, ElementRow>): Db {
    db.(runs := db.runs[c.run := Verdict(r, c).0],
        elements := elements,
        active := if Promotes(r, c.result) then db.active[(r.source, r.revision) := c.run] else db.active,
        jobs := if Promotes(r, c.result)
                then db.jobs.(outbox := db.jobs.outbox[w.eventId := PromotionEvent(r, c.run)])
                else db.jobs)
  }

  function RejectedRows(db: Db, r: Request, c: Choice, elements: map<Uuid, ElementRow>): Db {
    var run := Run(r.revision, c.profile, RunFailed, c.result.quality, r.shadow, Some("validation_failed"));
    db.(runs := db.runs[c.run := run], elements := elements)
  }

  predicate Processed(status: SourceStatus) {
    status == Succeeded || status == Partial
  }

  /** Settle a validated run. */
  function SettledClean(db: Db, r: Request, w: World, c: Choice, elements: map<Uuid, ElementRow>)
    : Result<(Db, Outcome), Raised>
  {
    if Promotes(r, c.result) && w.eventId in db.jobs.outbox then Failure(Raised)
    else
      var (run, status) := Verdict(r, c);
      Conclude(SettledRows(db, r, w, c, elements), r, w, status, Processed(status), None,
               Outcome(c.run, run.status, c.result.quality, |c.result.elements|))
  }

  /** Persist the chosen result, validate it, and settle the run. */
  function Settle(db: Db, r: Request, w: World, c: Choice): Result<(Db, Outcome), Raised> {
    if c.run in db.runs then Failure(Raised)
    else
      match InsertElements(db.elements, c.run, c.result.elements)
      case None => Failure(Raised)
      case Some(elements) =>
        var count := |c.result.elements|;
        if !Clean(c.result) then
          Conclude(RejectedRows(db, r, c, elements), r, w, Failed, false, Some("validation_failed"),
                   Outcome(c.run, RunFailed, c.result.quality, count))
        else SettledClean(db, r, w, c, elements)
  }

  /** `run_ingestion_for_revision`: a raised call is rolled back by its transaction. */
  function Ingest(db: Db, r: Request, w: World): Result<(Db, Outcome), Raised> {
    if r.revision !in db.revisions || db.revisions[r.revision] != r.source || r.source !in db.sources
        then Failure(Raised)
    else
      match Started(db.jobs, r, w)
      case None => Failure(Raised)
      case Some(t) =>
        var begun := db.(jobs := t, sources := db.sources[r.source := Running]);
        if w.contentLength == None then Failure(Raised)
        else if w.contentLength.value > MAX_FILE_BYTES then
          RecordFailure(begun, r, w, Fresh(w.freshRun), "resource_limits", "file_too_large", None)
        else
          var primary := Derived(r.revision, w.primaryProfile);
          if primary in db.runs && db.runs[primary].status == RunSucceeded && !r.shadow then
            Conclude(begun, r, w, Succeeded, true, None, Outcome(primary, RunSucceeded, db.runs[primary].quality, 0))
          else
            match WithPageLimit(w.primary)
            case Crashed => Failure(Raised)
            case LimitExceeded(code) => RecordFailure(begun, r, w, primary, w.primaryProfile, code, Some(code))
            case ValueRaised => RecordFailure(begun, r, w, primary, w.primaryProfile, "parse_failed",
                Some("parse_failed"))
            case Parsed(result) =>
              match Choose(w, r.revision, result)
              case Failure(_) => Failure(Raised)
              case Success(c) => Settle(begun, r, w, c)
  }

  // ---- the active pointer is sound ----

  /** A run with clean, persisted elements. */
  ghost predicate CleanRun(db: Db, id: RunId) {
    && (forall e :: e in db.elements && db.elements[e].run == id ==> |db.elements[e].contentHash| == 64)
    && (id in db.runs && db.runs[id].quality > 0.0 ==> exists e :: e in db.elements && db.elements[e].run == id)
  }

  ghost predicate GoodPointer(db: Db, revision: Uuid, id: RunId) {
    && id in db.runs && db.runs[id].revision == revision
    && db.runs[id].status == RunSucceeded && !db.runs[id].shadow && db.runs[id].quality >= OCR_QUALITY_THRESHOLD
    && CleanRun(db, id)
  }

  /** Every pointer names a succeeded, non-shadow, clean run of its revision at or above the threshold. */
  ghost predicate ActiveSound(db: Db) {
    && (forall k :: k in db.active ==> GoodPointer(db, k.1, db.active[k]))
    && (forall e :: e in db.elements ==> db.elements[e].run in db.runs)
  }

  /** The row `e` was written for one of these elements. */
  ghost predicate RowOf(row: ElementRow, e: Uuid, run: RunId, es: seq<Element>) {
    exists x :: x in es && x.id == e && row == ElementRow(run, x.contentHash, x.text)
  }

  /** Every row outside the old table was written for one of these elements. */
  ghost predicate NewRowsOf(table: map<Uuid, ElementRow>, t: map<Uuid, ElementRow>, run: RunId, es: seq<Element>) {
    forall e :: e in t && e !in table ==> RowOf(t[e], e, run, es)
  }

  lemma NewRowsSnoc(table: map<Uuid, ElementRow>, t: map<Uuid, ElementRow>, run: RunId, es: seq<Element>, x: Element)
    requires NewRowsOf(table, t, run, es)
    ensures NewRowsOf(table, t[x.id := ElementRow(run, x.contentHash, x.text)], run, es + [x])
  {
    var t' := t[x.id := ElementRow(run, x.contentHash, x.text)];
    forall e | e in t' && e !in table ensures RowOf(t'[e], e, run, es + [x]) {
      if e == x.id {
        assert x in es + [x];
      } else {
        assert RowOf(t[e], e, run, es);
        var y :| y in es && y.id == e && t[e] == ElementRow(run, y.contentHash, y.text);
        assert y in es + [x];
      }
    }
  }

  lemma {:induction false} InsertKeepsRows(table: map<Uuid, ElementRow>, run: RunId, es: seq<Element>)
    requires InsertElements(table, run, es).Some?
    ensures var t := InsertElements(table, run, es).value;
            forall e :: e in table ==> e in t && t[e] == table[e]
  {
    if es != [] {
      InsertKeepsRows(table, run, es[..|es| - 1]);
    }
  }

  lemma {:induction false} InsertedIds(table: map<Uuid, ElementRow>, run: RunId, es: seq<Element>)
    requires InsertElements(table, run, es).Some?
    ensures forall x :: x in es ==> x.id in InsertElements(table, run, es).value && x.id !in table
  {
    if es != [] {
      var front, last := es[..|es| - 1], es[|es| - 1];
      InsertedIds(table, run, front);
      InsertKeepsRows(table, run, front);
      assert es == front + [last];
    }
  }

  lemma {:induction false} InsertedRows(table: map<Uuid, ElementRow>, run: RunId, es: seq<Element>)
    requires InsertElements(table, run, es).Some?
    ensures NewRowsOf(table, InsertElements(table, run, es).value, run, es)
  {
    if es != [] {
      hide NewRowsOf;
      var front, last := es[..|es| - 1], es[|es| - 1];
      InsertedRows(table, run, front);
      NewRowsSnoc(table, InsertElements(table, run, front).value, run, front, last);
      assert es == front + [last];
    } else {
      assert InsertElements(table, run, es) == Some(table);
    }
  }

  lemma {:induction false} InsertedAreDistinct(table: map<Uuid, ElementRow>, run: RunId, es: seq<Element>)
    requires InsertElements(table, run, es).Some?
    ensures DistinctIds(es)
  {
    if es != [] {
      hide DistinctIds;
      InsertedAreDistinct(table, run, es[..|es| - 1]);
      InsertedIds(table, run, es[..|es| - 1]);
      FreshIdStaysDistinct(es);
    }
  }

  lemma InsertedElements(table: map<Uuid, ElementRow>, run: RunId, es: seq<Element>)
    requires InsertElements(table, run, es).Some?
    ensures var t := InsertElements(table, run, es).value;
            && (forall e :: e in table ==> e in t && t[e] == table[e])
            && NewRowsOf(table, t, run, es)
            && (forall x :: x in es ==> x.id in t && x.id !in table)
            && DistinctIds(es)
  {
    hide InsertElements;
    hide NewRowsOf;
    hide DistinctIds;
    InsertKeepsRows(table, run, es);
    InsertedIds(table, run, es);
    InsertedRows(table, run, es);
    InsertedAreDistinct(table, run, es);
  }

  lemma FreshIdStaysDistinct(es: seq<Element>)
    requires es != [] && DistinctIds(es[..|es| - 1])
    requires forall x :: x in es[..|es| - 1] ==> x.id != es[|es| - 1].id
    ensures DistinctIds(es)
  {
    var n := |es| - 1;
    forall k | 0 <= k < n ensures es[k].id != es[n].id {
      assert es[k] in es[..n];
    }
    DistinctSnoc(es, n);
    assert es[..n + 1] == es;
  }

  /** A result whose elements repeat an id never reaches validation: its insert is already refused. */
  lemma DuplicateElementsAbort(db: Db, r: Request, w: World, c: Choice)
    requires !DistinctIds(c.result.elements)
    ensures Settle(db, r, w, c) == Failure(Raised)
  {
    if InsertElements(db.elements, c.run, c.result.elements).Some? {
      InsertedElements(db.elements, c.run, c.result.elements);
    }
  }

  /** One new run with fresh elements leaves every other run's rows alone. */
  lemma NewRunKeepsPointers(db: Db, db': Db, id: RunId)
    requires ActiveSound(db) && id !in db.runs && id in db'.runs
    requires db'.runs == db.runs[id := db'.runs[id]]
    requires forall e :: e in db.elements ==> e in db'.elements && db'.elements[e] == db.elements[e]
    requires forall e :: e in db'.elements && e !in db.elements ==> db'.elements[e].run == id
    requires db'.active == db.active || exists k :: db'.active == db.active[k := id] && GoodPointer(db', k.1, id)
    ensures ActiveSound(db')
  {
    forall k | k in db'.active ensures GoodPointer(db', k.1, db'.active[k]) {
      if k in db.active && db'.active[k] == db.active[k] {
        assert GoodPointer(db, k.1, db.active[k]);
        var earlier := db.active[k];
        if db.runs[earlier].quality > 0.0 {
          var e :| e in db.elements && db.elements[e].run == earlier;
          assert e in db'.elements && db'.elements[e].run == earlier;
        }
      }
    }
  }

  lemma PromotedRunIsGood(db: Db, db': Db, r: Request, c: Choice, elements: map<Uuid, ElementRow>)
    requires ActiveSound(db) && c.run !in db.runs
    requires InsertElements(db.elements, c.run, c.result.elements) == Some(elements) && db'.elements == elements
    requires Clean(c.result) && Promotes(r, c.result)
    requires c.run in db'.runs
             && db'.runs[c.run] == Run(r.revision, c.profile, RunSucceeded, c.result.quality, false, None)
    ensures GoodPointer(db', r.revision, c.run)
  {
    InsertedElements(db.elements, c.run, c.result.elements);
    var first := c.result.elements[0];
    assert first in c.result.elements;
    assert RowOf(elements[first.id], first.id, c.run, c.result.elements);
    assert db'.elements[first.id].run == c.run;
    forall e | e in db'.elements && db'.elements[e].run == c.run ensures |db'.elements[e].contentHash| == 64 {
      assert e !in db.elements;
      assert RowOf(elements[e], e, c.run, c.result.elements);
    }
  }

  lemma SettleKeepsPointers(db: Db, r: Request, w: World, c: Choice)
    requires ActiveSound(db)
    ensures Settle(db, r, w, c).Success? ==> ActiveSound(Settle(db, r, w, c).value.0)
  {
    if Settle(db, r, w, c).Success? {
      var db' := Settle(db, r, w, c).value.0;
      var elements := InsertElements(db.elements, c.run, c.result.elements).value;
      assert db'.elements == elements && c.run in db'.runs && db'.runs == db.runs[c.run := db'.runs[c.run]];
      var promoted := Clean(c.result) && Promotes(r, c.result);
      assert db'.active == if promoted then db.active[(r.source, r.revision) := c.run] else db.active;
      assert promoted ==> db'.runs[c.run] == Run(r.revision, c.profile, RunSucceeded, c.result.quality, false, None);
      hide Settle;
      hide ActiveSound;
      if promoted {
        PromotedRunIsGood(db, db', r, c, elements);
      }
      SettledElements(db, c, elements);
      hide GoodPointer;
      hide InsertElements;
      NewRunKeepsPointers(db, db', c.run);
    }
  }

  lemma SettledElements(db: Db, c: Choice, elements: map<Uuid, ElementRow>)
    requires InsertElements(db.elements, c.run, c.result.elements) == Some(elements)
    ensures forall e :: e in db.elements ==> e in elements && elements[e] == db.elements[e]
    ensures forall e :: e in elements && e !in db.elements ==> elements[e].run == c.run
  {
    InsertedElements(db.elements, c.run, c.result.elements);
    forall e | e in elements && e !in db.elements ensures elements[e].run == c.run {
      assert RowOf(elements[e], e, c.run, c.result.elements);
    }
  }

  lemma RecordFailureKeepsPointers(db: Db, r: Request, w: World, id: RunId, profile: string, runCode: string,
                                   jobCode: Option<string>)
    requires ActiveSound(db)
    ensures RecordFailure(db, r, w, id, profile, runCode, jobCode).Success? ==>
              ActiveSound(RecordFailure(db, r, w, id, profile, runCode, jobCode).value.0)
  {
    if RecordFailure(db, r, w, id, profile, runCode, jobCode).Success? {
      hide ActiveSound;
      NewRunKeepsPointers(db, RecordFailure(db, r, w, id, profile, runCode, jobCode).value.0, id);
    }
  }

  /** In every state reached by ingestion calls the active pointer is sound. */
  lemma IngestKeepsPointers(db: Db, r: Request, w: World)
    requires ActiveSound(db)
    ensures Ingest(db, r, w).Success? ==> ActiveSound(Ingest(db, r, w).value.0)
  {
    if Ingest(db, r, w).Success? {
      var begun := db.(jobs := Started(db.jobs, r, w).value, sources := db.sources[r.source := Running]);
      SameRowsSamePointers(db, begun);
      var primary := Derived(r.revision, w.primaryProfile);
      hide ActiveSound;
      hide RecordFailure;
      hide Settle;
      if w.contentLength.value > MAX_FILE_BYTES {
        RecordFailureKeepsPointers(begun, r, w, Fresh(w.freshRun), "resource_limits", "file_too_large", None);
      } else if primary in db.runs && db.runs[primary].status == RunSucceeded && !r.shadow {
        SameRowsSamePointers(begun, Ingest(db, r, w).value.0);
      } else {
        match WithPageLimit(w.primary) {
          case Crashed =>
          case LimitExceeded(code) =>
            RecordFailureKeepsPointers(begun, r, w, primary, w.primaryProfile, code, Some(code));
          case ValueRaised =>
            RecordFailureKeepsPointers(begun, r, w, primary, w.primaryProfile, "parse_failed", Some("parse_failed"));
          case Parsed(result) =>
            SettleKeepsPointers(begun, r, w, Choose(w, r.revision, result).value);
        }
      }
    }
  }

  lemma SameRowsSamePointers(db: Db, db': Db)
    requires ActiveSound(db) && db'.runs == db.runs && db'.elements == db.elements && db'.active == db.active
    ensures ActiveSound(db')
  {
    forall k | k in db'.active ensures GoodPointer(db', k.1, db'.active[k]) {
      assert GoodPointer(db, k.1, db.active[k]);
    }
  }

  /** The result that a call which reaches the parsers and survives them settles. */
  ghost predicate Settles(db: Db, r: Request, w: World, c: Choice) {
    && !TooLarge(w) && !AlreadySucceeded(db, r, w)
    && WithPageLimit(w.primary).Parsed?
    && Choose(w, r.revision, WithPageLimit(w.primary).result) == Success(c)
  }

  /**
   * What a returned call leaves behind: the pointer moves to the chosen run, and only there, exactly when
   * that run is clean, not a shadow and at or above the threshold; it is recorded as succeeded exactly when
   * it is clean and promoted or a shadow.
   */
  lemma PointerMovesIff(db: Db, r: Request, w: World, c: Choice)
    requires Ingest(db, r, w).Success? && Settles(db, r, w, c)
    ensures var (db', o) := Ingest(db, r, w).value;
            var good := Clean(c.result) && c.result.quality >= OCR_QUALITY_THRESHOLD;
            && db'.active == (if good && !r.shadow then db.active[(r.source, r.revision) := c.run] else db.active)
            && c.run !in db.runs && db'.runs == db.runs[c.run := db'.runs[c.run]]
            && (db'.runs[c.run].status == RunSucceeded <==> Clean(c.result) && (r.shadow || good))
            && db'.runs[c.run].shadow == r.shadow && db'.runs[c.run].quality == c.result.quality
            && o.run == c.run && o.status == db'.runs[c.run].status && o.elementCount == |c.result.elements|
            && db'.sources == db.sources[r.source :=
                 if !Clean(c.result) then Failed else if r.shadow then Running else if good then Succeeded else Partial]
  {
    hide InsertElements;
    hide J.StartAttempt;
    hide J.CompleteJob;
    hide Clean;
  }

  /** A call that does not settle a result moves no pointer and records no succeeded run. */
  lemma OtherwisePointersStay(db: Db, r: Request, w: World)
    requires Ingest(db, r, w).Success? && forall c :: !Settles(db, r, w, c)
    ensures OnlyFailedRuns(db, Ingest(db, r, w).value.0)
  {
    hide Started;
    hide Conclude;
    hide Settle;
    hide RecordFailure;
    var begun := db.(jobs := Started(db.jobs, r, w).value, sources := db.sources[r.source := Running]);
    var primary := Derived(r.revision, w.primaryProfile);
    if TooLarge(w) {
      FailureStays(begun, r, w, Fresh(w.freshRun), "resource_limits", "file_too_large", None);
    } else if AlreadySucceeded(db, r, w) {
      ConcludeStays(begun, r, w, Succeeded, true, None, Outcome(primary, RunSucceeded, db.runs[primary].quality, 0));
    } else {
      assert !WithPageLimit(w.primary).Parsed? by { if WithPageLimit(w.primary).Parsed? { ParsedSettles(db, r, w); } }
      match WithPageLimit(w.primary) {
        case Crashed =>
        case LimitExceeded(code) => FailureStays(begun, r, w, primary, w.primaryProfile, code, Some(code));
        case ValueRaised => FailureStays(begun, r, w, primary, w.primaryProfile, "parse_failed", Some("parse_failed"));
        case Parsed(_) =>
      }
    }
  }

  lemma ParsedSettles(db: Db, r: Request, w: World)
    requires Ingest(db, r, w).Success? && !TooLarge(w) && !AlreadySucceeded(db, r, w)
    requires WithPageLimit(w.primary).Parsed?
    ensures exists c :: Settles(db, r, w, c)
  {
    assert Settles(db, r, w, Choose(w, r.revision, WithPageLimit(w.primary).result).value);
  }

  ghost predicate OnlyFailedRuns(db: Db, db': Db) {
    && db'.active == db.active && db'.elements == db.elements
    && forall id :: id in db'.runs && id !in db.runs ==> db'.runs[id].status == RunFailed
  }

  lemma ConcludeStays(db: Db, r: Request, w: World, status: SourceStatus, succeeded: bool, errorCode: Option<string>,
                      o: Outcome)
    ensures var res := Conclude(db, r, w, status, succeeded, errorCode, o);
            res.Success? ==> OnlyFailedRuns(db, res.value.0)
  {
    hide Finished;
  }

  lemma FailureStays(db: Db, r: Request, w: World, id: RunId, profile: string, runCode: string, jobCode: Option<string>)
    ensures var res := RecordFailure(db, r, w, id, profile, runCode, jobCode);
            res.Success? ==> OnlyFailedRuns(db, res.value.0)
  {
    hide Finished;
  }

  // ---- what a returned call did, read off what the parsers answered ----

  /** The primary parser came back, with an acceptable number of pages. */
  ghost predicate PrimaryParsed(w: World) {
    w.primary.Parsed? && w.primary.result.pageCount <= 500
  }

  /** OCR counts only below the threshold, and only if it is strictly better. */
  ghost predicate OcrWins(w: World)
    requires PrimaryParsed(w)
  {
    w.primary.result.quality < 0.45 && w.ocr.Parsed? && w.ocr.result.quality > w.primary.result.quality
  }

  /** The result that is kept, and the profile it came from. */
  ghost function Kept(w: World): (ParseResult, string)
    requires PrimaryParsed(w)
  {
    if OcrWins(w) then (w.ocr.result, w.ocrProfile) else (w.primary.result, w.primaryProfile)
  }

  /** Below the threshold the kept result is the better one of the two. */
  lemma KeptIsBetter(w: World)
    requires PrimaryParsed(w) && w.ocr.Parsed? && w.primary.result.quality < 0.45
    ensures var quality := Kept(w).0.quality;
            && quality >= w.primary.result.quality && quality >= w.ocr.result.quality
            && quality in {w.primary.result.quality, w.ocr.result.quality}
  {
  }

  lemma KeptIsChosen(w: World, revision: Uuid)
    requires PrimaryParsed(w)
    ensures WithPageLimit(w.primary) == Parsed(w.primary.result)
    ensures var (result, profile) := Kept(w);
            var chosen := Choose(w, revision, w.primary.result);
            && (chosen.Success? <==> w.primary.result.quality >= 0.45 || w.ocr.Parsed?)
            && (chosen.Success? ==> chosen.value == Choice(result, Derived(revision, profile), profile))
  {
  }

  /** One row for every element, and no other new row. */
  ghost predicate StoresElements(table: map<Uuid, ElementRow>, t: map<Uuid, ElementRow>, run: RunId, es: seq<Element>) {
    && DistinctIds(es)
    && (forall e :: e in table ==> e in t && t[e] == table[e])
    && (forall x :: x in es ==> x.id !in table && x.id in t && t[x.id] == ElementRow(run, x.contentHash, x.text))
    && (forall e :: e in t && e !in table ==> exists x :: x in es && x.id == e)
  }

  lemma InsertedAreStored(table: map<Uuid, ElementRow>, run: RunId, es: seq<Element>)
    requires InsertElements(table, run, es).Some?
    ensures StoresElements(table, InsertElements(table, run, es).value, run, es)
  {
    var t := InsertElements(table, run, es).value;
    InsertedElements(table, run, es);
    hide InsertElements;
    forall x | x in es ensures t[x.id] == ElementRow(run, x.contentHash, x.text) {
      assert RowOf(t[x.id], x.id, run, es);
      var y :| y in es && y.id == x.id && t[x.id] == ElementRow(run, y.contentHash, y.text);
      var i :| 0 <= i < |es| && es[i] == x;
      var j :| 0 <= j < |es| && es[j] == y;
    }
    forall e | e in t && e !in table ensures exists x :: x in es && x.id == e {
      assert RowOf(t[e], e, run, es);
    }
  }

  /** The event that tells of a new active run. */
  ghost predicate TellsOf(e: J.Event, r: Request, run: RunId) {
    && e.eventType == J.ActiveParseChanged && !e.published && e.claim == None && e.job == None
    && e.payload.Keys == {"source_id", "revision_id", "parse_run_id"}
    && e.payload["source_id"] == J.Id(r.source) && e.payload["revision_id"] == J.Id(r.revision)
    && e.payload["parse_run_id"] == IdOf(run)
  }

  /** What settling leaves of pointers, runs, elements, source, events and job. */
  ghost predicate SettledAs(db: Db, db': Db, r: Request, w: World, result: ParseResult, profile: string) {
    var run, clean := Derived(r.revision, profile), Clean(result);
    var good := clean && result.quality >= 0.45;
    var code := if !clean then Some("validation_failed")
                else if good || r.shadow then None else Some("quality_below_threshold");
    var status := if clean && (good || r.shadow) then RunSucceeded else RunFailed;
    && run !in db.runs
    && db'.runs == db.runs[run := Run(r.revision, profile, status, result.quality, r.shadow, code)]
    && StoresElements(db.elements, db'.elements, run, result.elements)
    && db'.active == (if good && !r.shadow then db.active[(r.source, r.revision) := run] else db.active)
    && db'.sources == db.sources[r.source :=
         if !clean then Failed else if r.shadow then Running else if good then Succeeded else Partial]
    && (if good && !r.shadow then
          && w.eventId !in db.jobs.outbox && w.eventId in db'.jobs.outbox
          && TellsOf(db'.jobs.outbox[w.eventId], r, run)
          && db'.jobs.outbox == db.jobs.outbox[w.eventId := db'.jobs.outbox[w.eventId]]
        else db'.jobs.outbox == db.jobs.outbox)
    && JobEnds(db', r, clean && !r.shadow, if clean then None else Some("validation_failed"))
  }

  /** The job of the call, if it has one, ends with this outcome. */
  ghost predicate JobEnds(db': Db, r: Request, succeeded: bool, errorCode: Option<string>) {
    r.job.Some? ==>
      && r.job.value in db'.jobs.jobs
      && db'.jobs.jobs[r.job.value].status == (if succeeded then J.Succeeded else J.Failed)
      && db'.jobs.jobs[r.job.value].errorCode == errorCode
  }

  lemma ConcludedAs(db: Db, r: Request, w: World, status: SourceStatus, succeeded: bool, errorCode: Option<string>,
                    o: Outcome)
    requires Conclude(db, r, w, status, succeeded, errorCode, o).Success?
    ensures var (db', o') := Conclude(db, r, w, status, succeeded, errorCode, o).value;
      && o' == o && db'.runs == db.runs && db'.elements == db.elements && db'.active == db.active
      && db'.revisions == db.revisions && db'.sources == db.sources[r.source := status]
      && db'.jobs.outbox == db.jobs.outbox
      && JobEnds(db', r, succeeded, errorCode)
  {
  }

  lemma RejectingDoes(db: Db, r: Request, w: World, result: ParseResult, profile: string)
    requires !Clean(result) && Settle(db, r, w, Choice(result, Derived(r.revision, profile), profile)).Success?
    ensures var run, (db', o) := Derived(r.revision, profile),
                  Settle(db, r, w, Choice(result, Derived(r.revision, profile), profile)).value;
      && SettledAs(db, db', r, w, result, profile)
      && o == Outcome(run, RunFailed, result.quality, |result.elements|)
      && run in db'.runs && db'.runs[run].status == RunFailed
  {
    var c := Choice(result, Derived(r.revision, profile), profile);
    var elements := InsertElements(db.elements, c.run, c.result.elements).value;
    InsertedAreStored(db.elements, c.run, c.result.elements);
    hide InsertElements;
    hide StoresElements;
    hide Clean;
    hide Conclude;
    ConcludedAs(RejectedRows(db, r, c, elements), r, w, Failed, false, Some("validation_failed"),
                Outcome(c.run, RunFailed, c.result.quality, |c.result.elements|));
    hide JobEnds;
  }

  /** The run and the source after a clean result is settled. */
  lemma VerdictIs(r: Request, c: Choice)
    ensures var (run, status) := Verdict(r, c);
            var good := c.result.quality >= 0.45;
      && run == Run(r.revision, c.profile, if good || r.shadow then RunSucceeded else RunFailed, c.result.quality,
                    r.shadow, if good || r.shadow then None else Some("quality_below_threshold"))
      && status == (if r.shadow then Running else if good then Succeeded else Partial)
      && (Processed(status) <==> !r.shadow)
  {
  }

  /** A clean result's settling, as one conclusion over its rows. */
  lemma AcceptingIs(db: Db, r: Request, w: World, c: Choice)
    requires Clean(c.result) && Settle(db, r, w, c).Success?
    ensures c.run !in db.runs && InsertElements(db.elements, c.run, c.result.elements).Some?
    ensures c.result.quality >= 0.45 && !r.shadow ==> w.eventId !in db.jobs.outbox
    ensures var elements := InsertElements(db.elements, c.run, c.result.elements).value;
            var (run, status) := Verdict(r, c);
            Settle(db, r, w, c) == Conclude(SettledRows(db, r, w, c, elements), r, w, status, Processed(status), None,
                                            Outcome(c.run, run.status, c.result.quality, |c.result.elements|))
  {
    hide Clean;
    hide InsertElements;
    hide Conclude;
    hide Verdict;
    hide Processed;
    hide SettledRows;
  }

  /** The rows of a settled clean result. */
  lemma SettledRowsAre(db: Db, r: Request, w: World, c: Choice, elements: map<Uuid, ElementRow>)
    ensures var db', promoted := SettledRows(db, r, w, c, elements), c.result.quality >= 0.45 && !r.shadow;
      && db'.runs == db.runs[c.run := Verdict(r, c).0] && db'.elements == elements && db'.sources == db.sources
      && db'.active == (if promoted then db.active[(r.source, r.revision) := c.run] else db.active)
      && (if promoted then
            && w.eventId in db'.jobs.outbox && TellsOf(db'.jobs.outbox[w.eventId], r, c.run)
            && db'.jobs.outbox == db.jobs.outbox[w.eventId := db'.jobs.outbox[w.eventId]]
          else db'.jobs.outbox == db.jobs.outbox)
  {
    hide Verdict;
  }

  lemma AcceptingDoes(db: Db, r: Request, w: World, result: ParseResult, profile: string)
    requires Clean(result) && Settle(db, r, w, Choice(result, Derived(r.revision, profile), profile)).Success?
    ensures var run, (db', o) := Derived(r.revision, profile),
                  Settle(db, r, w, Choice(result, Derived(r.revision, profile), profile)).value;
      && SettledAs(db, db', r, w, result, profile)
      && run in db'.runs && o == Outcome(run, db'.runs[run].status, result.quality, |result.elements|)
  {
    var c := Choice(result, Derived(r.revision, profile), profile);
    AcceptingIs(db, r, w, c);
    var elements := InsertElements(db.elements, c.run, c.result.elements).value;
    var (run, status) := Verdict(r, c);
    InsertedAreStored(db.elements, c.run, c.result.elements);
    VerdictIs(r, c);
    SettledRowsAre(db, r, w, c, elements);
    ConcludedAs(SettledRows(db, r, w, c, elements), r, w, status, Processed(status), None,
                Outcome(c.run, run.status, c.result.quality, |c.result.elements|));
    hide Settle;
    hide InsertElements;
    hide StoresElements;
    hide Clean;
    hide Conclude;
    hide Verdict;
    hide Processed;
    hide SettledRows;
    hide TellsOf;
    hide JobEnds;
  }

  lemma SettlingDoes(db: Db, r: Request, w: World, result: ParseResult, profile: string)
    requires Settle(db, r, w, Choice(result, Derived(r.revision, profile), profile)).Success?
    ensures var run, (db', o) := Derived(r.revision, profile),
                  Settle(db, r, w, Choice(result, Derived(r.revision, profile), profile)).value;
      && SettledAs(db, db', r, w, result, profile)
      && run in db'.runs && o == Outcome(run, db'.runs[run].status, result.quality, |result.elements|)
  {
    hide *;
    if Clean(result) {
      AcceptingDoes(db, r, w, result, profile);
    } else {
      RejectingDoes(db, r, w, result, profile);
    }
  }

  /** The rows when parsing starts: the job's attempt is open and the source is running. */
  function Begun(db: Db, r: Request, w: World): Db
    requires Started(db.jobs, r, w).Some?
  {
    db.(jobs := Started(db.jobs, r, w).value, sources := db.sources[r.source := Running])
  }

  /** What the call does from there, once its content could be read. */
  lemma IngestIs(db: Db, r: Request, w: World)
    requires Startable(db, r, w) && w.contentLength.Some?
    ensures Started(db.jobs, r, w).Some?
    ensures var begun, primary := Begun(db, r, w), Derived(r.revision, w.primaryProfile);
            Ingest(db, r, w) ==
              if TooLarge(w) then
                RecordFailure(begun, r, w, Fresh(w.freshRun), "resource_limits", "file_too_large", None)
              else if AlreadySucceeded(db, r, w) then
                Conclude(begun, r, w, Succeeded, true, None,
                         Outcome(primary, RunSucceeded, db.runs[primary].quality, 0))
              else if PrimaryParsed(w) then
                var (result, profile) := Kept(w);
                if w.primary.result.quality >= 0.45 || w.ocr.Parsed?
                then Settle(begun, r, w, Choice(result, Derived(r.revision, profile), profile)) else Failure(Raised)
              else if w.primary.Crashed? then Failure(Raised)
              else RecordFailure(begun, r, w, primary, w.primaryProfile, FailureCode(w), Some(FailureCode(w)))
  {
    StartsIff(db, r, w);
    hide Startable;
    hide Started;
    hide Settle;
    hide RecordFailure;
    hide Conclude;
    if PrimaryParsed(w) {
      KeptIsChosen(w, r.revision);
      hide Choose;
      hide Kept;
    }
  }

  lemma ReturnedWasStartable(db: Db, r: Request, w: World)
    requires Ingest(db, r, w).Success?
    ensures Startable(db, r, w) && w.contentLength.Some?
  {
    StartsIff(db, r, w);
  }

  /**
   * A returned call whose primary parser came back keeps the primary's result when it reaches the threshold
   * or OCR is not better, and otherwise OCR's, under OCR's run id; the kept result alone decides the
   * pointer, the run, the elements, the source's status, the promotion event and the job.
   */
  lemma BetterResultIsKept(db: Db, r: Request, w: World)
    requires Ingest(db, r, w).Success? && !TooLarge(w) && !AlreadySucceeded(db, r, w) && PrimaryParsed(w)
    ensures var (db', o) := Ingest(db, r, w).value;
            var (result, profile) := Kept(w);
            && SettledAs(db, db', r, w, result, profile)
            && o == Outcome(Derived(r.revision, profile), db'.runs[Derived(r.revision, profile)].status,
                            result.quality, |result.elements|)
  {
    ReturnedWasStartable(db, r, w);
    IngestIs(db, r, w);
    StartedOutbox(db.jobs, r, w);
    hide *;
    var (result, profile) := Kept(w);
    SettlingDoes(Begun(db, r, w), r, w, result, profile);
    SettledFromBegun(db, Ingest(db, r, w).value.0, r, w, result, profile);
  }

  lemma SettledFromBegun(db: Db, db': Db, r: Request, w: World, result: ParseResult, profile: string)
    requires Started(db.jobs, r, w).Some? && Started(db.jobs, r, w).value.outbox == db.jobs.outbox
    requires SettledAs(Begun(db, r, w), db', r, w, result, profile)
    ensures SettledAs(db, db', r, w, result, profile)
    ensures Derived(r.revision, profile) in db'.runs
  {
    hide StoresElements;
    hide Clean;
    hide TellsOf;
    hide JobEnds;
  }

  /** Why a primary parser's answer is recorded as a failure. */
  ghost function FailureCode(w: World): string {
    match w.primary
    case Parsed(_) => "too_many_pages"
    case LimitExceeded(code) => code
    case _ => "parse_failed"
  }

  /** A returned call whose primary parser did not come back records one failed run of it, and nothing else. */
  lemma FailedParseIsRecorded(db: Db, r: Request, w: World)
    requires Ingest(db, r, w).Success? && !TooLarge(w) && !AlreadySucceeded(db, r, w) && !PrimaryParsed(w)
    ensures !w.primary.Crashed?
    ensures var (db', o) := Ingest(db, r, w).value;
            var run, code := Derived(r.revision, w.primaryProfile), Some(FailureCode(w));
            && run !in db.runs
            && db'.runs == db.runs[run := Run(r.revision, w.primaryProfile, RunFailed, 0.0, r.shadow, code)]
            && db'.elements == db.elements && db'.active == db.active && db'.jobs.outbox == db.jobs.outbox
            && db'.sources == db.sources[r.source := Failed]
            && o == Outcome(run, RunFailed, 0.0, 0)
            && JobEnds(db', r, false, code)
  {
    ReturnedWasStartable(db, r, w);
    IngestIs(db, r, w);
    StartedOutbox(db.jobs, r, w);
    var begun := Begun(db, r, w);
    var run, code := Derived(r.revision, w.primaryProfile), FailureCode(w);
    var failed := Run(r.revision, w.primaryProfile, RunFailed, 0.0, r.shadow, Some(code));
    hide Ingest;
    hide Startable;
    hide Started;
    hide Conclude;
    hide FailureCode;
    ConcludedAs(begun.(runs := begun.runs[run := failed]), r, w, Failed, false, Some(code),
                Outcome(run, RunFailed, 0.0, 0));
    hide JobEnds;
  }

  // ---- exactly when a call returns ----

  /** The revision is the source's and the job, if any, can take another attempt. */
  ghost predicate Startable(db: Db, r: Request, w: World) {
    && r.revision in db.revisions && db.revisions[r.revision] == r.source && r.source in db.sources
    && (r.job.Some? ==>
          && r.job.value in db.jobs.jobs
          && forall i :: 0 <= i < |db.jobs.attempts| ==> db.jobs.attempts[i].id != w.attemptId)
  }

  /** The kept result's run, elements and promotion event take no id that is in use. */
  ghost predicate Storable(db: Db, r: Request, w: World)
    requires PrimaryParsed(w)
  {
    var (result, profile) := Kept(w);
    && Derived(r.revision, profile) !in db.runs
    && DistinctIds(result.elements) && (forall x :: x in result.elements ==> x.id !in db.elements)
    && (Clean(result) && result.quality >= 0.45 && !r.shadow ==> w.eventId !in db.jobs.outbox)
  }

  lemma {:induction false} InsertedIff(table: map<Uuid, ElementRow>, run: RunId, es: seq<Element>)
    ensures InsertElements(table, run, es).Some? <==> DistinctIds(es) && forall x :: x in es ==> x.id !in table
  {
    if InsertElements(table, run, es).Some? {
      InsertedElements(table, run, es);
    } else {
      var n := |es| - 1;
      InsertedIff(table, run, es[..n]);
      if InsertElements(table, run, es[..n]).Some? {
        InsertedElements(table, run, es[..n]);
        var t := InsertElements(table, run, es[..n]).value;
        if es[n].id !in table {
          assert RowOf(t[es[n].id], es[n].id, run, es[..n]);
          var x :| x in es[..n] && x.id == es[n].id;
          var i :| 0 <= i < n && es[..n][i] == x;
          assert es[i].id == es[n].id;
        }
      } else if x :| x in es[..n] && x.id in table {
        assert x in es;
      }
    }
  }

  /** Exactly when a call returns instead of raising. */
  lemma IngestReturnsIff(db: Db, r: Request, w: World)
    ensures Ingest(db, r, w).Success? <==>
              && Startable(db, r, w) && w.contentLength.Some?
              && (if TooLarge(w) then Fresh(w.freshRun) !in db.runs
                  else if AlreadySucceeded(db, r, w) then true
                  else if PrimaryParsed(w) then
                    (w.primary.result.quality >= 0.45 || w.ocr.Parsed?) && Storable(db, r, w)
                  else !w.primary.Crashed? && Derived(r.revision, w.primaryProfile) !in db.runs)
  {
    if Ingest(db, r, w).Success? {
      ReturnedWasStartable(db, r, w);
    }
    if Startable(db, r, w) && w.contentLength.Some? {
      StartableReturnsIff(db, r, w);
    }
    hide *;
  }

  lemma StartableReturnsIff(db: Db, r: Request, w: World)
    requires Startable(db, r, w) && w.contentLength.Some?
    ensures Ingest(db, r, w).Success? <==>
              if TooLarge(w) then Fresh(w.freshRun) !in db.runs
              else if AlreadySucceeded(db, r, w) then true
              else if PrimaryParsed(w) then
                (w.primary.result.quality >= 0.45 || w.ocr.Parsed?) && Storable(db, r, w)
              else !w.primary.Crashed? && Derived(r.revision, w.primaryProfile) !in db.runs
  {
    IngestIs(db, r, w);
    hide *;
    var begun, primary, code := Begun(db, r, w), Derived(r.revision, w.primaryProfile), FailureCode(w);
    FailureReturnsIff(db, r, w, Fresh(w.freshRun), "resource_limits", "file_too_large", None);
    FailureReturnsIff(db, r, w, primary, w.primaryProfile, code, Some(code));
    if AlreadySucceeded(db, r, w) {
      RepeatReturns(db, r, w);
    }
    if PrimaryParsed(w) {
      SettlesStored(db, r, w);
    }
  }

  lemma FailureReturnsIff(db: Db, r: Request, w: World, id: RunId, profile: string, runCode: string,
                          jobCode: Option<string>)
    requires Started(db.jobs, r, w).Some?
    ensures RecordFailure(Begun(db, r, w), r, w, id, profile, runCode, jobCode).Success? <==> id !in db.runs
  {
    ConcludesAlways(db, Started(db.jobs, r, w).value, r, w);
    hide Started;
    hide Conclude;
  }

  lemma RepeatReturns(db: Db, r: Request, w: World)
    requires Started(db.jobs, r, w).Some? && AlreadySucceeded(db, r, w)
    ensures var primary := Derived(r.revision, w.primaryProfile);
            Conclude(Begun(db, r, w), r, w, Succeeded, true, None,
                     Outcome(primary, RunSucceeded, db.runs[primary].quality, 0)).Success?
  {
    ConcludesAlways(db, Started(db.jobs, r, w).value, r, w);
    hide Started;
    hide Conclude;
  }

  lemma StartsIff(db: Db, r: Request, w: World)
    ensures Startable(db, r, w) <==>
              && r.revision in db.revisions && db.revisions[r.revision] == r.source && r.source in db.sources
              && Started(db.jobs, r, w).Some?
  {
    hide J.LatestNumber;
  }

  /** Once started, a call can always be concluded. */
  lemma ConcludesAlways(db: Db, t: J.Tables, r: Request, w: World)
    requires Started(db.jobs, r, w) == Some(t)
    ensures forall later: Db, status, succeeded, errorCode, o ::
              later.jobs.jobs == t.jobs && later.jobs.attempts == t.attempts ==>
                Conclude(later, r, w, status, succeeded, errorCode, o).Success?
  {
    hide J.LatestNumber;
    if r.job.Some? {
      assert t.attempts[|db.jobs.attempts|].id == w.attemptId;
    }
  }

  lemma SettlesStored(db: Db, r: Request, w: World)
    requires PrimaryParsed(w) && Started(db.jobs, r, w).Some?
    ensures var (result, profile) := Kept(w);
            Settle(Begun(db, r, w), r, w, Choice(result, Derived(r.revision, profile), profile)).Success?
            <==> Storable(db, r, w)
  {
    var c := Choice(Kept(w).0, Derived(r.revision, Kept(w).1), Kept(w).1);
    StartedOutbox(db.jobs, r, w);
    SettleReturnsIff(db, r, w, c);
    hide Started;
    hide Settle;
    hide Kept;
    hide Clean;
    hide DistinctIds;
  }

  lemma SettleReturnsIff(db: Db, r: Request, w: World, c: Choice)
    requires Started(db.jobs, r, w).Some?
    ensures Settle(Begun(db, r, w), r, w, c).Success? <==>
              && c.run !in db.runs
              && DistinctIds(c.result.elements) && (forall x :: x in c.result.elements ==> x.id !in db.elements)
              && (Clean(c.result) && c.result.quality >= 0.45 && !r.shadow ==>
                    w.eventId !in Started(db.jobs, r, w).value.outbox)
  {
    ConcludesAlways(db, Started(db.jobs, r, w).value, r, w);
    InsertedIff(db.elements, c.run, c.result.elements);
    hide Started;
    hide Conclude;
    hide InsertElements;
    hide DistinctIds;
    hide Clean;
    hide Verdict;
  }

  // ---- redelivery ----

  /** The stored bytes and the parsers answer alike in both calls; ids drawn may differ. */
  ghost predicate SameContent(w: World, w': World) {
    w'.contentLength == w.contentLength && w'.primaryProfile == w.primaryProfile && w'.primary == w.primary
    && w'.ocrProfile == w.ocrProfile && w'.ocr == w.ocr
  }

  /** The run id a first call inserts, or finds already succeeded. */
  function TargetRun(r: Request, w: World): RunId {
    var primary := Derived(r.revision, w.primaryProfile);
    match WithPageLimit(w.primary)
    case Parsed(result) =>
      (match Choose(w, r.revision, result) case Success(c) => c.run case Failure(_) => primary)
    case _ => primary
  }

  predicate TooLarge(w: World) {
    w.contentLength.Some? && w.contentLength.value > MAX_FILE_BYTES
  }

  predicate AlreadySucceeded(db: Db, r: Request, w: World) {
    var primary := Derived(r.revision, w.primaryProfile);
    primary in db.runs && db.runs[primary].status == RunSucceeded && !r.shadow
  }

  /** A call that did not return early has its target run on record afterwards. */
  lemma TargetIsRecorded(db: Db, r: Request, w: World)
    requires Ingest(db, r, w).Success? && !TooLarge(w) && !AlreadySucceeded(db, r, w)
    ensures TargetRun(r, w) in Ingest(db, r, w).value.0.runs
  {
    hide InsertElements;
    hide J.StartAttempt;
    hide J.CompleteJob;
  }

  /** A call whose target run is on record, and which cannot return early, raises. */
  lemma RecordedTargetRaises(db: Db, r: Request, w: World)
    requires TargetRun(r, w) in db.runs && !TooLarge(w) && !AlreadySucceeded(db, r, w)
    ensures Ingest(db, r, w) == Failure(Raised)
  {
    hide InsertElements;
    hide J.StartAttempt;
    hide J.CompleteJob;
  }

  /**
   * A non-shadow call on a revision whose primary run succeeded touches no element, pointer or event, and no
   * run but one: a file that has come to exceed the size limit gets a failed run of its own. The job
   * succeeds, or fails with the file.
   */
  lemma SucceededPrimaryIsLeftAlone(db: Db, r: Request, w: World)
    requires AlreadySucceeded(db, r, w) && Ingest(db, r, w).Success?
    ensures var (db', o) := Ingest(db, r, w).value;
            && db'.elements == db.elements && db'.active == db.active && db'.jobs.outbox == db.jobs.outbox
            && JobEnds(db', r, !TooLarge(w), None)
            && (if TooLarge(w) then
                  && Fresh(w.freshRun) !in db.runs
                  && db'.runs == db.runs[Fresh(w.freshRun) := TooLargeRun(r)]
                  && db'.sources == db.sources[r.source := Failed]
                  && o.run == Fresh(w.freshRun) && o.status == RunFailed
                else
                  && db'.runs == db.runs
                  && db'.sources == db.sources[r.source := Succeeded]
                  && o.run == Derived(r.revision, w.primaryProfile) && o.status == RunSucceeded)
  {
    if TooLarge(w) {
      TooLargeRecordsOnly(db, r, w);
    } else {
      ReturnedWasStartable(db, r, w);
      IngestIs(db, r, w);
      StartedOutbox(db.jobs, r, w);
      hide Ingest;
      hide Startable;
      hide Started;
      hide JobEnds;
      hide Conclude;
      var primary := Derived(r.revision, w.primaryProfile);
      ConcludedAs(Begun(db, r, w), r, w, Succeeded, true, None,
                  Outcome(primary, RunSucceeded, db.runs[primary].quality, 0));
    }
  }

  function TooLargeRun(r: Request): Run {
    Run(r.revision, "resource_limits", RunFailed, 0.0, r.shadow, Some("file_too_large"))
  }

  /** A file over the size limit is not parsed: it gets one failed run, and fails its source and job. */
  lemma TooLargeRecordsOnly(db: Db, r: Request, w: World)
    requires TooLarge(w) && Ingest(db, r, w).Success?
    ensures var (db', o) := Ingest(db, r, w).value;
            && db'.elements == db.elements && db'.active == db.active && db'.jobs.outbox == db.jobs.outbox
            && db'.runs == db.runs[Fresh(w.freshRun) := TooLargeRun(r)] && Fresh(w.freshRun) !in db.runs
            && db'.sources == db.sources[r.source := Failed]
            && o == Outcome(Fresh(w.freshRun), RunFailed, 0.0, 0)
            && JobEnds(db', r, false, None)
  {
    ReturnedWasStartable(db, r, w);
    IngestIs(db, r, w);
    StartedOutbox(db.jobs, r, w);
    hide Ingest;
    hide Startable;
    hide Started;
    hide JobEnds;
    hide Conclude;
    var begun, run := Begun(db, r, w), Fresh(w.freshRun);
    ConcludedAs(begun.(runs := begun.runs[run := TooLargeRun(r)]), r, w, Failed, false, None,
                Outcome(run, RunFailed, 0.0, 0));
  }

  /**
   * Delivering the same request twice is harmless: the second call either raises, and is rolled back,
   * or leaves every element, every pointer and, for a file within the size limit, every run as it was.
   */
  lemma RedeliveryIsHarmless(db: Db, r: Request, w: World, w': World)
    requires Ingest(db, r, w).Success? && SameContent(w, w')
    ensures var db1 := Ingest(db, r, w).value.0;
            var second := Ingest(db1, r, w');
            second.Success? ==>
              var db2 := second.value.0;
              db2.elements == db1.elements && db2.active == db1.active && (!TooLarge(w) ==> db2.runs == db1.runs)
  {
    var db1 := Ingest(db, r, w).value.0;
    if TooLarge(w) {
      if Ingest(db1, r, w').Success? { TooLargeRecordsOnly(db1, r, w'); }
    } else if AlreadySucceeded(db1, r, w') {
      if Ingest(db1, r, w').Success? { SucceededPrimaryIsLeftAlone(db1, r, w'); }
    } else {
      if AlreadySucceeded(db, r, w) {
        SucceededPrimaryIsLeftAlone(db, r, w);
      } else {
        TargetIsRecorded(db, r, w);
      }
      RecordedTargetRaises(db1, r, w');
    }
  }

  /** With unused ids, a started attempt can always be concluded. */
  lemma StartedConcludes(db: Db, t: J.Tables, r: Request, w: World, status: SourceStatus, succeeded: bool,
                         errorCode: Option<string>, o: Outcome)
    requires Started(t, r, w).Some? && db.jobs == Started(t, r, w).value
    ensures Conclude(db, r, w, status, succeeded, errorCode, o).Success?
  {
    hide J.LatestNumber;
    if r.job.Some? {
      assert db.jobs.attempts[|t.attempts|].id == w.attemptId;
    }
  }

  /**
   * Exactly when a second delivery is accepted: the file is too large, or the primary parser's own run
   * is the one that succeeded. A revision whose OCR run won raises on every redelivery.
   */
  lemma RedeliveryCommitsIff(db: Db, r: Request, w: World, w': World)
    requires Ingest(db, r, w).Success? && SameContent(w, w')
    requires var db1 := Ingest(db, r, w).value.0;
             Fresh(w'.freshRun) !in db1.runs && !J.HasAttempt(db1.jobs.attempts, w'.attemptId)
    ensures var db1 := Ingest(db, r, w).value.0;
            Ingest(db1, r, w').Success? <==> TooLarge(w) || AlreadySucceeded(db1, r, w)
  {
    var db1 := Ingest(db, r, w).value.0;
    if TooLarge(w) || AlreadySucceeded(db1, r, w) {
      RowsStay(db, r, w);
      if r.job.Some? { JobsStay(db, r, w); }
      hide Ingest;
      EasyPathsCommit(db1, r, w');
    } else if AlreadySucceeded(db, r, w) {
      SucceededPrimaryIsLeftAlone(db, r, w);
    } else {
      TargetIsRecorded(db, r, w);
      RecordedTargetRaises(db1, r, w');
    }
  }

  /** A file that is too large, or whose primary run succeeded, is settled without parsing. */
  lemma EasyPathsCommit(db: Db, r: Request, w: World)
    requires r.revision in db.revisions && db.revisions[r.revision] == r.source && r.source in db.sources
    requires r.job.Some? ==> r.job.value in db.jobs.jobs && !J.HasAttempt(db.jobs.attempts, w.attemptId)
    requires w.contentLength.Some? && Fresh(w.freshRun) !in db.runs
    requires TooLarge(w) || AlreadySucceeded(db, r, w)
    ensures Ingest(db, r, w).Success?
  {
    hide J.LatestNumber;
    var t := Started(db.jobs, r, w);
    assert t.Some?;
    var begun := db.(jobs := t.value, sources := db.sources[r.source := Running]);
    hide Started;
    hide Conclude;
    if TooLarge(w) {
      StartedConcludes(begun.(runs := begun.runs[Fresh(w.freshRun) := TooLargeRun(r)]), db.jobs, r, w,
                       Failed, false, None,
                       Outcome(Fresh(w.freshRun), RunFailed, 0.0, 0));
    } else {
      var primary := Derived(r.revision, w.primaryProfile);
      StartedConcludes(begun, db.jobs, r, w, Succeeded, true, None,
          Outcome(primary, RunSucceeded, db.runs[primary].quality, 0));
    }
  }

  /** The revisions are the given ones and the source has a status. */
  ghost predicate Keeps(revisions: map<Uuid, Uuid>, source: Uuid, db': Db) {
    db'.revisions == revisions && source in db'.sources
  }

  lemma ConcludeKeeps(db: Db, r: Request, w: World, status: SourceStatus, succeeded: bool,
                      errorCode: Option<string>, o: Outcome)
    ensures var res := Conclude(db, r, w, status, succeeded, errorCode, o);
            res.Success? ==> Keeps(db.revisions, r.source, res.value.0)
  {
    hide Finished;
  }

  lemma SettleKeeps(db: Db, r: Request, w: World, c: Choice)
    ensures Settle(db, r, w, c).Success? ==> Keeps(db.revisions, r.source, Settle(db, r, w, c).value.0)
  {
    hide Keeps;
    hide Conclude;
    hide InsertElements;
    if c.run !in db.runs && InsertElements(db.elements, c.run, c.result.elements).Some? {
      var elements := InsertElements(db.elements, c.run, c.result.elements).value;
      var count := |c.result.elements|;
      var (run, status) := Verdict(r, c);
      ConcludeKeeps(RejectedRows(db, r, c, elements), r, w, Failed, false, Some("validation_failed"),
                    Outcome(c.run, RunFailed, c.result.quality, count));
      ConcludeKeeps(SettledRows(db, r, w, c, elements), r, w, status, Processed(status), None,
                    Outcome(c.run, run.status, c.result.quality, count));
    }
  }

  lemma RecordFailureKeeps(db: Db, r: Request, w: World, id: RunId, profile: string, runCode: string,
                           jobCode: Option<string>)
    ensures var res := RecordFailure(db, r, w, id, profile, runCode, jobCode);
            res.Success? ==> Keeps(db.revisions, r.source, res.value.0)
  {
    hide Conclude;
    var run := Run(r.revision, profile, RunFailed, 0.0, r.shadow, Some(runCode));
    ConcludeKeeps(db.(runs := db.runs[id := run]), r, w, Failed, false, jobCode, Outcome(id, RunFailed, 0.0, 0));
  }

  lemma RowsStay(db: Db, r: Request, w: World)
    requires Ingest(db, r, w).Success?
    ensures var db1 := Ingest(db, r, w).value.0;
            db1.revisions == db.revisions && r.revision in db.revisions && db.revisions[r.revision] == r.source
            && r.source in db1.sources && w.contentLength.Some?
  {
    var begun := db.(jobs := Started(db.jobs, r, w).value, sources := db.sources[r.source := Running]);
    var primary := Derived(r.revision, w.primaryProfile);
    hide Started;
    hide Conclude;
    hide RecordFailure;
    hide Settle;
    if w.contentLength.value > MAX_FILE_BYTES {
      RecordFailureKeeps(begun, r, w, Fresh(w.freshRun), "resource_limits", "file_too_large", None);
    } else if primary in db.runs && db.runs[primary].status == RunSucceeded && !r.shadow {
      ConcludeKeeps(begun, r, w, Succeeded, true, None, Outcome(primary, RunSucceeded, db.runs[primary].quality, 0));
    } else {
      match WithPageLimit(w.primary) {
        case Crashed =>
        case LimitExceeded(code) => RecordFailureKeeps(begun, r, w, primary, w.primaryProfile, code, Some(code));
        case ValueRaised => RecordFailureKeeps(begun, r, w, primary, w.primaryProfile, "parse_failed",
            Some("parse_failed"));
        case Parsed(result) => SettleKeeps(begun, r, w, Choose(w, r.revision, result).value);
      }
    }
  }

  lemma JobsStay(db: Db, r: Request, w: World)
    requires Ingest(db, r, w).Success? && r.job.Some?
    ensures r.job.value in Ingest(db, r, w).value.0.jobs.jobs
  {
    IngestJobs(db, r, w);
    hide Ingest;
    hide J.LatestNumber;
  }

  // ---- jobs and attempts across one call ----

  /** The outbox unchanged, or with one promotion event under the drawn id. */
  ghost predicate Announces(outbox: map<Uuid, J.Event>, outbox': map<Uuid, J.Event>, r: Request, w: World) {
    || outbox' == outbox
    || (w.eventId !in outbox && exists run :: outbox' == outbox[w.eventId := PromotionEvent(r, run)])
  }

  /** The job tables after a call: an attempt opened and closed around at most one promotion event. */
  ghost predicate JobsAfterBy(t: J.Tables, t': J.Tables, r: Request, w: World, outbox: map<Uuid, J.Event>,
                              succeeded: bool, errorCode: Option<string>)
  {
    && Announces(t.outbox, outbox, r, w)
    && Started(t, r, w).Some?
    && Finished(Started(t, r, w).value.(outbox := outbox), r, w, succeeded, errorCode) == Some(t')
  }

  ghost predicate JobsAfter(t: J.Tables, t': J.Tables, r: Request, w: World) {
    exists outbox: map<Uuid, J.Event>, succeeded: bool, errorCode: Option<string> ::
      JobsAfterBy(t, t', r, w, outbox, succeeded, errorCode)
  }

  lemma ConcludedJobs(t: J.Tables, db: Db, r: Request, w: World, status: SourceStatus, succeeded: bool,
                      errorCode: Option<string>, o: Outcome)
    requires Started(t, r, w).Some? && Conclude(db, r, w, status, succeeded, errorCode, o).Success?
    requires db.jobs == Started(t, r, w).value.(outbox := db.jobs.outbox)
    requires Announces(t.outbox, db.jobs.outbox, r, w)
    ensures JobsAfter(t, Conclude(db, r, w, status, succeeded, errorCode, o).value.0.jobs, r, w)
  {
    hide Started;
    hide Finished;
    assert JobsAfterBy(t, Conclude(db, r, w, status, succeeded, errorCode, o).value.0.jobs, r, w, db.jobs.outbox,
        succeeded, errorCode);
  }

  lemma StartedOutbox(t: J.Tables, r: Request, w: World)
    ensures Started(t, r, w).Some? ==> Started(t, r, w).value.outbox == t.outbox
  {
  }

  lemma SettledJobs(t: J.Tables, db: Db, r: Request, w: World, c: Choice)
    requires Started(t, r, w).Some? && db.jobs == Started(t, r, w).value
    ensures Settle(db, r, w, c).Success? ==> JobsAfter(t, Settle(db, r, w, c).value.0.jobs, r, w)
  {
    StartedOutbox(t, r, w);
    hide Started;
    hide InsertElements;
    hide JobsAfter;
    if Settle(db, r, w, c).Success? {
      var elements := InsertElements(db.elements, c.run, c.result.elements).value;
      var count := |c.result.elements|;
      if !Clean(c.result) {
        ConcludedJobs(t, RejectedRows(db, r, c, elements), r, w, Failed, false, Some("validation_failed"),
                      Outcome(c.run, RunFailed, c.result.quality, count));
      } else {
        var (run, status) := Verdict(r, c);
        ConcludedJobs(t, SettledRows(db, r, w, c, elements), r, w, status, Processed(status), None,
                      Outcome(c.run, run.status, c.result.quality, count));
      }
    }
  }

  lemma FailureJobs(t: J.Tables, db: Db, r: Request, w: World, id: RunId, profile: string, runCode: string,
                    jobCode: Option<string>)
    requires Started(t, r, w).Some? && db.jobs == Started(t, r, w).value
    ensures RecordFailure(db, r, w, id, profile, runCode, jobCode).Success? ==>
              JobsAfter(t, RecordFailure(db, r, w, id, profile, runCode, jobCode).value.0.jobs, r, w)
  {
    StartedOutbox(t, r, w);
    hide Started;
    hide JobsAfter;
    if RecordFailure(db, r, w, id, profile, runCode, jobCode).Success? {
      var run := Run(r.revision, profile, RunFailed, 0.0, r.shadow, Some(runCode));
      ConcludedJobs(t, db.(runs := db.runs[id := run]), r, w, Failed, false, jobCode, Outcome(id, RunFailed, 0.0, 0));
    }
  }

  lemma IngestJobs(db: Db, r: Request, w: World)
    requires Ingest(db, r, w).Success?
    ensures JobsAfter(db.jobs, Ingest(db, r, w).value.0.jobs, r, w)
  {
    var t := Started(db.jobs, r, w).value;
    var begun := db.(jobs := t, sources := db.sources[r.source := Running]);
    var primary := Derived(r.revision, w.primaryProfile);
    StartedOutbox(db.jobs, r, w);
    hide JobsAfter;
    hide Started;
    hide RecordFailure;
    hide Settle;
    hide Conclude;
    if w.contentLength.value > MAX_FILE_BYTES {
      FailureJobs(db.jobs, begun, r, w, Fresh(w.freshRun), "resource_limits", "file_too_large", None);
    } else if primary in db.runs && db.runs[primary].status == RunSucceeded && !r.shadow {
      ConcludedJobs(db.jobs, begun, r, w, Succeeded, true, None,
          Outcome(primary, RunSucceeded, db.runs[primary].quality, 0));
    } else {
      match WithPageLimit(w.primary) {
        case Crashed =>
        case LimitExceeded(code) => FailureJobs(db.jobs, begun, r, w, primary, w.primaryProfile, code, Some(code));
        case ValueRaised => FailureJobs(db.jobs, begun, r, w, primary, w.primaryProfile, "parse_failed",
            Some("parse_failed"));
        case Parsed(result) => SettledJobs(db.jobs, begun, r, w, Choose(w, r.revision, result).value);
      }
    }
  }

  /** A returned call leaves every request's rows recognisable. */
  lemma IngestKeepsRequests(db: Db, r: Request, w: World)
    requires Ingest(db, r, w).Success?
    ensures J.KeepsRequests(db.jobs, Ingest(db, r, w).value.0.jobs)
  {
    IngestJobs(db, r, w);
    var t, t' := db.jobs, Ingest(db, r, w).value.0.jobs;
    hide Ingest;
    hide JobsAfterBy;
    var outbox: map<Uuid, J.Event>, succeeded: bool, errorCode: Option<string> :|
      JobsAfterBy(t, t', r, w, outbox, succeeded, errorCode);
    KeptBy(t, t', r, w, outbox, succeeded, errorCode);
  }

  lemma KeptBy(t: J.Tables, t': J.Tables, r: Request, w: World, outbox: map<Uuid, J.Event>, succeeded: bool,
               errorCode: Option<string>)
    requires JobsAfterBy(t, t', r, w, outbox, succeeded, errorCode)
    ensures J.KeepsRequests(t, t')
  {
    hide J.StartAttempt;
    hide J.CompleteJob;
    assert J.KeepsRequests(t, t.(outbox := outbox));
    hide J.KeepsRequests;
    if r.job.Some? {
      J.AttemptsKeepRequests(t, r.job.value, w.attemptId, outbox, succeeded, errorCode);
    } else {
      assert t' == t.(outbox := outbox);
    }
  }

  /** Old events stay; the only new one is an unpublished promotion event with a matching digest. */
  ghost predicate OutboxGrows(t: J.Tables, t': J.Tables) {
    && (forall e :: e in t.outbox ==> e in t'.outbox && t'.outbox[e] == t.outbox[e])
    && (forall e :: e in t'.outbox && e !in t.outbox
         ==> !t'.outbox[e].published && t'.outbox[e].eventType == J.ActiveParseChanged)
  }

  /** Jobs and attempts only move forward: closed attempts stay closed and dead letters stay marked. */
  ghost predicate JobsGrow(t: J.Tables, t': J.Tables) {
    && (forall j :: j in t.jobs
         ==> j in t'.jobs && t'.jobs[j].deadLettered == t.jobs[j].deadLettered
             && t'.jobs[j].payload == t.jobs[j].payload)
    && (forall j :: j in t.jobs && J.HasClosedAttempt(t, j) ==> J.HasClosedAttempt(t', j))
  }

  /** What a returned call does to the job tables. */
  ghost predicate JobsConserved(t: J.Tables, t': J.Tables, r: Request) {
    && J.Numbered(t') && J.Quiescent(t') && J.DigestsMatch(t')
    && OutboxGrows(t, t') && JobsGrow(t, t')
    && (r.job.Some? ==>
          && r.job.value in t'.jobs && J.HasClosedAttempt(t', r.job.value)
          && (t'.jobs[r.job.value].status == J.Succeeded || t'.jobs[r.job.value].status == J.Failed)
          && |J.NumbersOf(t'.attempts, r.job.value)| == |J.NumbersOf(t.attempts, r.job.value)| + 1)
  }

  lemma WithJobConserves(t: J.Tables, r: Request, w: World, outbox: map<Uuid, J.Event>, succeeded: bool,
                         errorCode: Option<string>)
    requires J.Numbered(t) && J.Quiescent(t) && r.job.Some? && Started(t, r, w).Some?
    ensures var t' := Finished(Started(t, r, w).value.(outbox := outbox), r, w, succeeded, errorCode);
            && t'.Some? && t'.value.outbox == outbox
            && J.Numbered(t'.value) && J.Quiescent(t'.value) && JobsGrow(t, t'.value)
            && r.job.value in t'.value.jobs && J.HasClosedAttempt(t'.value, r.job.value)
            && t'.value.jobs[r.job.value].status == (if succeeded then J.Succeeded else J.Failed)
            && |J.NumbersOf(t'.value.attempts, r.job.value)| == |J.NumbersOf(t.attempts, r.job.value)| + 1
  {
    hide J.Numbered;
    hide J.Quiescent;
    hide J.HasClosedAttempt;
    hide J.NumbersOf;
    hide JobsGrow;
    J.AttemptCycle(t, r.job.value, w.attemptId, outbox, succeeded, errorCode);
    CycleGrows(t, r.job.value, w.attemptId, outbox, succeeded, errorCode);
  }

  lemma OutboxOnlyConserves(t: J.Tables, outbox: map<Uuid, J.Event>)
    requires J.Numbered(t) && J.Quiescent(t)
    ensures var t' := t.(outbox := outbox);
            J.Numbered(t') && J.Quiescent(t') && JobsGrow(t, t')
  {
    var t' := t.(outbox := outbox);
    forall j | j in t.jobs && J.HasClosedAttempt(t, j) ensures J.HasClosedAttempt(t', j) {
      var i :| 0 <= i < |t.attempts| && t.attempts[i].job == j && t.attempts[i].status != J.Running;
      assert t'.attempts[i] == t.attempts[i];
    }
  }

  lemma ConservedBy(t: J.Tables, t': J.Tables, r: Request, w: World, outbox: map<Uuid, J.Event>, succeeded: bool,
                    errorCode: Option<string>)
    requires J.Numbered(t) && J.Quiescent(t) && J.DigestsMatch(t)
    requires JobsAfterBy(t, t', r, w, outbox, succeeded, errorCode)
    ensures JobsConserved(t, t', r)
  {
    hide J.Numbered;
    hide J.Quiescent;
    hide J.HasClosedAttempt;
    hide J.NumbersOf;
    hide JobsGrow;
    if r.job.Some? {
      WithJobConserves(t, r, w, outbox, succeeded, errorCode);
    } else {
      assert t' == t.(outbox := outbox);
      OutboxOnlyConserves(t, outbox);
    }
    assert t'.outbox == outbox;
    hide Started;
    hide Finished;
    assert J.DigestsMatch(t') && OutboxGrows(t, t');
  }

  /**
   * A returned call leaves no attempt open, keeps attempt numbers gapless and event digests valid, and
   * closes exactly one more attempt of its job, which ends SUCCEEDED or FAILED.
   */
  lemma IngestConservesJobs(db: Db, r: Request, w: World)
    requires J.Numbered(db.jobs) && J.Quiescent(db.jobs) && J.DigestsMatch(db.jobs)
    requires Ingest(db, r, w).Success?
    ensures JobsConserved(db.jobs, Ingest(db, r, w).value.0.jobs, r)
  {
    hide JobsConserved;
    hide J.Numbered;
    hide J.Quiescent;
    hide J.DigestsMatch;
    hide JobsAfterBy;
    IngestJobs(db, r, w);
    var t' := Ingest(db, r, w).value.0.jobs;
    hide Ingest;
    var outbox: map<Uuid, J.Event>, succeeded: bool, errorCode: Option<string> :|
      JobsAfterBy(db.jobs, t', r, w, outbox, succeeded, errorCode);
    ConservedBy(db.jobs, t', r, w, outbox, succeeded, errorCode);
  }

  lemma CycleGrows(t: J.Tables, job: Uuid, attemptId: Uuid, outbox: map<Uuid, J.Event>, succeeded: bool,
                   errorCode: Option<string>)
    requires J.StartAttempt(t, job, attemptId).Success?
    requires var open := J.StartAttempt(t, job, attemptId).value.(outbox := outbox);
             J.CompleteJob(open, job, attemptId, succeeded, errorCode).Success?
    ensures var open := J.StartAttempt(t, job, attemptId).value.(outbox := outbox);
            JobsGrow(t, J.CompleteJob(open, job, attemptId, succeeded, errorCode).value)
  {
    hide J.LatestNumber;
    var open := J.StartAttempt(t, job, attemptId).value.(outbox := outbox);
    var t' := J.CompleteJob(open, job, attemptId, succeeded, errorCode).value;
    forall j | j in t.jobs && J.HasClosedAttempt(t, j) ensures J.HasClosedAttempt(t', j) {
      var i :| 0 <= i < |t.attempts| && t.attempts[i].job == j && t.attempts[i].status != J.Running;
      assert t'.attempts[i].job == j && t'.attempts[i].status != J.Running;
    }
  }

  // ---- the orchestrator, on rows updated in place ----

  class Orchestrator {
    var sources: map<Uuid, SourceStatus>
    var revisions: map<Uuid, Uuid>
    var runs: map<RunId, Run>
    var elements: map<Uuid, ElementRow>
    var active: map<(Uuid, Uuid), RunId>
    const tables: J.JobTables

    function View(): Db
      reads this, tables
    {
      Db(sources, revisions, runs, elements, active, tables.View())
    }

    constructor ()
      ensures View() == Db(map[], map[], map[], map[], map[], J.EMPTY) && fresh(tables)
    {
      sources, revisions, runs, elements, active := map[], map[], map[], map[], map[];
      tables := new J.JobTables();
    }

    /** Put back an earlier state: what the transaction's rollback does. */
    method Restore(db: Db)
      modifies this, tables
      ensures View() == db
    {
      sources, revisions, runs, elements, active := db.sources, db.revisions, db.runs, db.elements, db.active;
      tables.Rollback(db.jobs.jobs, db.jobs.attempts, db.jobs.outbox);
    }

    /** `_persist_parse_run`; false when the primary key is taken. */
    method PersistParseRun(id: RunId, run: Run) returns (ok: bool)
      modifies this
      ensures ok == (id !in old(runs))
      ensures View() == if ok then old(View()).(runs := old(runs)[id := run]) else old(View())
    {
      if id in runs {
        return false;
      }
      runs := runs[id := run];
      return true;
    }

    /** `_persist_elements`: one insert per element, false when one is refused. */
    method PersistElements(run: RunId, result: ParseResult) returns (ok: bool)
      modifies this
      ensures match InsertElements(old(elements), run, result.elements)
              case Some(t) => ok && View() == old(View()).(elements := t)
              case None => !ok
    {
      var table := elements;
      for i := 0 to |result.elements|
        invariant InsertElements(old(elements), run, result.elements[..i]) == Some(table)
        invariant View() == old(View())
      {
        var element := result.elements[i];
        assert result.elements[..i + 1][..i] == result.elements[..i];
        if element.id in table {
          RefusedStaysRefused(old(elements), run, result.elements, i + 1);
          return false;
        }
        table := table[element.id := ElementRow(run, element.contentHash, element.text)];
      }
      assert result.elements[..|result.elements|] == result.elements;
      elements := table;
      return true;
    }

    /** Set the source status and close the attempt. */
    method Finish(r: Request, w: World, status: SourceStatus, succeeded: bool, errorCode: Option<string>, o: Outcome)
      returns (res: Result<Outcome, Raised>)
      modifies this, tables
      ensures match Conclude(old(View()), r, w, status, succeeded, errorCode, o)
              case Success(v) => res == Success(v.1) && View() == v.0
              case Failure(_) => res.Failure?
    {
      sources := sources[r.source := status];
      if r.job.Some? {
        var error := tables.CompleteJobAttempt(r.job.value, w.attemptId, succeeded, errorCode);
        if error.Some? {
          return Failure(Raised);
        }
      }
      return Success(o);
    }

    method Fail(r: Request, w: World, id: RunId, profile: string, runCode: string, jobCode: Option<string>)
      returns (res: Result<Outcome, Raised>)
      modifies this, tables
      ensures match RecordFailure(old(View()), r, w, id, profile, runCode, jobCode)
              case Success(v) => res == Success(v.1) && View() == v.0
              case Failure(_) => res.Failure?
    {
      hide Conclude;
      var ok := PersistParseRun(id, Run(r.revision, profile, RunFailed, 0.0, r.shadow, Some(runCode)));
      if !ok {
        return Failure(Raised);
      }
      res := Finish(r, w, Failed, false, jobCode, Outcome(id, RunFailed, 0.0, 0));
    }

    /** From the chosen parse result to the end of the call. */
    method SettleRun(r: Request, w: World, c: Choice) returns (res: Result<Outcome, Raised>)
      modifies this, tables
      ensures match Settle(old(View()), r, w, c)
              case Success(v) => res == Success(v.1) && View() == v.0
              case Failure(_) => res.Failure?
    {
      hide Conclude;
      hide InsertElements;
      hide Clean;
      var run := Run(r.revision, c.profile, RunRunning, c.result.quality, r.shadow, None);
      var count := |c.result.elements|;
      var ok := PersistParseRun(c.run, run);
      if !ok {
        return Failure(Raised);
      }
      ok := PersistElements(c.run, c.result);
      if !ok {
        return Failure(Raised);
      }
      var errors := ValidateParseResult(c.result);
      if errors != [] {
        run := run.(status := RunFailed, errorCode := Some("validation_failed"));
        runs := runs[c.run := run];
        assert runs == old(runs)[c.run := run];
        res := Finish(r, w, Failed, false, Some("validation_failed"),
            Outcome(c.run, RunFailed, c.result.quality, count));
        return;
      }
      res := SettleClean(r, w, c, old(View()));
    }

    /** A validated run: promoted, kept as a shadow, or below the threshold. */
    method SettleClean(r: Request, w: World, c: Choice, ghost before: Db) returns (res: Result<Outcome, Raised>)
      requires c.run in runs
      requires runs == before.runs[c.run := Run(r.revision, c.profile, RunRunning, c.result.quality, r.shadow, None)]
      requires View() == before.(runs := runs, elements := elements)
      modifies this, tables
      ensures match SettledClean(before, r, w, c, old(elements))
              case Success(v) => res == Success(v.1) && View() == v.0
              case Failure(_) => res.Failure?
    {
      hide Conclude;
      var run := runs[c.run];
      var status := Running;
      if !r.shadow && c.result.quality >= OCR_QUALITY_THRESHOLD {
        if w.eventId in tables.outbox {
          return Failure(Raised);
        }
        tables.outbox := tables.outbox[w.eventId := PromotionEvent(r, c.run)];
        active := active[(r.source, r.revision) := c.run];
        run := run.(status := RunSucceeded);
        status := Succeeded;
      } else if r.shadow {
        run := run.(status := RunSucceeded, shadow := true);
      } else {
        run := run.(status := RunFailed, errorCode := Some("quality_below_threshold"));
        status := Partial;
      }
      runs := runs[c.run := run];
      assert runs == before.runs[c.run := run];
      assert View() == SettledRows(before, r, w, c, elements);
      res := Finish(r, w, status, status == Succeeded || status == Partial, None,
                    Outcome(c.run, run.status, c.result.quality, |c.result.elements|));
    }

    /** `run_ingestion_for_revision`; when it raises, its transaction restores the rows. */
    method RunIngestion(r: Request, w: World) returns (res: Result<Outcome, Raised>)
      modifies this, tables
      ensures match Ingest(old(View()), r, w)
              case Success(v) => res == Success(v.1) && View() == v.0
              case Failure(_) => res.Failure?
    {
      hide Conclude;
      hide RecordFailure;
      hide Settle;
      hide J.StartAttempt;
      if r.revision !in revisions || revisions[r.revision] != r.source || r.source !in sources {
        return Failure(Raised);
      }
      if r.job.Some? {
        var error := tables.StartJobAttempt(r.job.value, w.attemptId);
        if error.Some? {
          return Failure(Raised);
        }
      }
      sources := sources[r.source := Running];
      if w.contentLength == None {
        return Failure(Raised);
      }
      if w.contentLength.value > MAX_FILE_BYTES {
        res := Fail(r, w, Fresh(w.freshRun), "resource_limits", "file_too_large", None);
        return;
      }
      var primary := Derived(r.revision, w.primaryProfile);
      if primary in runs && runs[primary].status == RunSucceeded && !r.shadow {
        res := Finish(r, w, Succeeded, true, None, Outcome(primary, RunSucceeded, runs[primary].quality, 0));
        return;
      }
      match WithPageLimit(w.primary) {
        case Crashed =>
          return Failure(Raised);
        case LimitExceeded(code) =>
          res := Fail(r, w, primary, w.primaryProfile, code, Some(code));
        case ValueRaised =>
          res := Fail(r, w, primary, w.primaryProfile, "parse_failed", Some("parse_failed"));
        case Parsed(result) =>
          var choice := Choose(w, r.revision, result);
          if choice.Failure? {
            return Failure(Raised);
          }
          res := SettleRun(r, w, choice.value);
      }
    }
  }

  lemma {:induction false} RefusedStaysRefused(table: map<Uuid, ElementRow>, run: RunId, es: seq<Element>, n: nat)
    requires n <= |es| && InsertElements(table, run, es[..n]) == None
    ensures InsertElements(table, run, es) == None
    decreases |es| - n
  {
    if n == |es| {
      assert es[..n] == es;
    } else {
      assert es[..n + 1][..n] == es[..n];
      RefusedStaysRefused(table, run, es, n + 1);
    }
  }
}
