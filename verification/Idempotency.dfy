/** Idempotency records and the two routes that use them: create-source and save-revision. */
module Idempotency {
  import opened Wrappers
  import D = DocumentLedger

  type Uuid = nat
  type Body = string

  /** `status` 0 and no body until the first success. */
  datatype Record = Record(fingerprint: string, status: nat, body: Option<Body>)

  datatype Created = SourceRow(id: Uuid) | RevisionRow(id: Uuid)

  /** One committed effect of a keyed or keyless request; a history variable. */
  datatype Effect = Effect(key: Option<string>, fingerprint: string, created: Created, body: Body)

  /** The committed rows of one account: idempotency records, sources and the document ledger. */
  datatype Store = Store(records: map<string, Record>, sources: set<Uuid>, ledger: D.Ledger, effects: seq<Effect>)

  const EMPTY := Store(map[], {}, D.EMPTY, [])

  datatype Reply = Answered(status: nat, body: Body) | KeyConflict | NotFound | Invalid | Stale

  /** What a request carries besides its effect; the key is absent, blank keys included. */
  datatype Envelope = Envelope(key: Option<string>, fingerprint: string)

  // ---- begin and complete ----

  datatype Decision = Conflict | Replay(status: nat, body: Option<Body>) | Proceed

  function Begin(records: map<string, Record>, e: Envelope): Decision {
    if e.key == None || e.key.value !in records then Proceed
    else
      var r := records[e.key.value];
      if r.fingerprint != e.fingerprint then Conflict else Replay(r.status, r.body)
  }

  /** The record inserted by `begin_idempotency` for a first request. */
  function Opened(records: map<string, Record>, e: Envelope): map<string, Record> {
    if e.key == None || e.key.value in records then records
    else records[e.key.value := Record(e.fingerprint, 0, None)]
  }

  function Completed(records: map<string, Record>, e: Envelope, status: nat, body: Body): map<string, Record> {
    if e.key == None || e.key.value !in records then records
    else records[e.key.value := records[e.key.value].(status := status, body := Some(body))]
  }

  function OrDefault(status: nat, default: nat): nat {
    if status == 0 then default else status
  }

  // ---- POST /sources ----

  /** An insert that violates a key rolls the whole session back, the fresh record included. */
  function CreateSource(st: Store, e: Envelope, sourceId: Uuid, body: Body): (Store, Reply) {
    match Begin(st.records, e)
    case Conflict => (st, KeyConflict)
    case Replay(status, Some(stored)) => (st, Answered(OrDefault(status, 201), stored))
    case Replay(_, None) => (st, NotFound)
    case Proceed =>
      if sourceId in st.sources then (st, NotFound)
      else
        (Store(Completed(Opened(st.records, e), e, 201, body), st.sources + {sourceId}, st.ledger,
               st.effects + [Effect(e.key, e.fingerprint, SourceRow(sourceId), body)]),
         Answered(201, body))
  }

  // ---- POST /documents/{id}/revisions ----

  /** Failures raised before the insert leave the record committed; failures of the insert roll it back. */
  function SaveRevision(st: Store, e: Envelope, document: Uuid, base: Option<Uuid>, valid: bool, digest: string,
                        ids: D.FreshIds, body: Body): (Store, Reply)
  {
    var begun := st.(records := Opened(st.records, e));
    match Begin(st.records, e)
    case Conflict => (st, KeyConflict)
    case Replay(status, Some(stored)) => (st, Answered(OrDefault(status, 200), stored))
    case _ =>
      match D.Save(st.ledger, document, base, valid, digest, ids)
      case Failure(InvalidDocument) => (begun, Invalid)
      case Failure(StaleBase(_)) => (begun, Stale)
      case Failure(NotFound) => (begun, Reply.NotFound)
      case Failure(_) => (st, Reply.NotFound)
      case Success(l) =>
        (Store(Completed(begun.records, e, 200, body), st.sources, l,
               st.effects + [Effect(e.key, e.fingerprint, RevisionRow(ids.revision), body)]),
         Answered(200, body))
  }

  // ---- runs ----

  datatype Call =
    | SourceCall(e: Envelope, sourceId: Uuid, body: Body)
    | RevisionCall(e: Envelope, document: Uuid, base: Option<Uuid>, valid: bool, digest: string, ids: D.FreshIds,
        body: Body)
    | DocumentCall(document: Uuid, valid: bool, digest: string, ids: D.FreshIds)

  function Step(st: Store, c: Call): Store {
    match c
    case SourceCall(e, sourceId, body) => CreateSource(st, e, sourceId, body).0
    case RevisionCall(e, document, base, valid, digest, ids, body) =>
      SaveRevision(st, e, document, base, valid, digest, ids, body).0
    case DocumentCall(document, valid, digest, ids) =>
      st.(ledger := D.Committed(st.ledger, D.Create(st.ledger, document, valid, digest, ids)))
  }

  function Run(st: Store, calls: seq<Call>): Store {
    if calls == [] then st else Step(Run(st, calls[..|calls| - 1]), calls[|calls| - 1])
  }

  /** Effects of one key, in order. */
  function EffectsOf(effects: seq<Effect>, key: string): seq<Effect> {
    if effects == [] then []
    else
      var init, last := effects[..|effects| - 1], effects[|effects| - 1];
      if last.key == Some(key) then EffectsOf(init, key) + [last] else EffectsOf(init, key)
  }

  /**
   * The record of a key and the effects under it: no record, no effect; an open record, no effect; a
   * completed record, exactly one effect, with the record's fingerprint and body.
   */
  ghost predicate KeySound(st: Store, key: string) {
    var own := EffectsOf(st.effects, key);
    if key !in st.records then own == []
    else if st.records[key].body == None then own == []
    else |own| == 1 && own[0].fingerprint == st.records[key].fingerprint && st.records[key].body == Some(own[0].body)
         && st.records[key].status != 0
  }

  ghost predicate Creates(effects: seq<Effect>, c: Created) {
    exists i :: 0 <= i < |effects| && effects[i].created == c
  }

  /** Which rows the effects name: each source and each revision with a base, once. */
  ghost predicate RowsMatch(sources: set<Uuid>, revisions: map<Uuid, D.Revision>, effects: seq<Effect>) {
    && (forall id :: id in sources <==> Creates(effects, SourceRow(id)))
    && (forall id :: id in revisions && revisions[id].base.Some? <==> Creates(effects, RevisionRow(id)))
    && (forall i, j :: 0 <= i < j < |effects| ==> effects[i].created != effects[j].created)
  }

  ghost predicate Sound(st: Store) {
    && (forall key :: KeySound(st, key))
    && RowsMatch(st.sources, st.ledger.revisions, st.effects)
    && D.Linear(st.ledger)
  }

  lemma CreatesSnoc(effects: seq<Effect>, f: Effect, c: Created)
    ensures Creates(effects + [f], c) <==> Creates(effects, c) || f.created == c
  {
    var more := effects + [f];
    if i :| 0 <= i < |effects| && effects[i].created == c {
      assert more[i].created == c;
    }
    assert more[|effects|] == f;
  }

  /** One more effect whose row is new keeps the effects distinct. */
  lemma DistinctSnoc(effects: seq<Effect>, f: Effect)
    requires forall i, j :: 0 <= i < j < |effects| ==> effects[i].created != effects[j].created
    requires !Creates(effects, f.created)
    ensures forall i, j :: 0 <= i < j < |effects + [f]| ==> (effects + [f])[i].created != (effects + [f])[j].created
  {
  }

  lemma SourceAdded(sources: set<Uuid>, revisions: map<Uuid, D.Revision>, effects: seq<Effect>, f: Effect, id: Uuid)
    requires RowsMatch(sources, revisions, effects) && id !in sources && f.created == SourceRow(id)
    ensures RowsMatch(sources + {id}, revisions, effects + [f])
  {
    forall c { CreatesSnoc(effects, f, c); }
    hide Creates;
    assert !Creates(effects, f.created);
    DistinctSnoc(effects, f);
  }

  lemma RevisionAdded(sources: set<Uuid>, revisions: map<Uuid, D.Revision>, effects: seq<Effect>, f: Effect,
                      id: Uuid, r: D.Revision)
    requires RowsMatch(sources, revisions, effects) && id !in revisions && r.base.Some? && f.created == RevisionRow(id)
    ensures RowsMatch(sources, revisions[id := r], effects + [f])
  {
    forall c { CreatesSnoc(effects, f, c); }
    hide Creates;
    assert !Creates(effects, f.created);
    DistinctSnoc(effects, f);
  }

  lemma RootAdded(sources: set<Uuid>, revisions: map<Uuid, D.Revision>, effects: seq<Effect>, id: Uuid, r: D.Revision)
    requires RowsMatch(sources, revisions, effects) && id !in revisions && r.base == None
    ensures RowsMatch(sources, revisions[id := r], effects)
  {
    hide Creates;
  }

  lemma RowsStayMatched(st: Store, c: Call)
    requires Sound(st)
    ensures var st' := Step(st, c); RowsMatch(st'.sources, st'.ledger.revisions, st'.effects)
  {
    var st' := Step(st, c);
    match c {
      case SourceCall(e, sourceId, body) =>
        hide RowsMatch;
        if st' != st {
          SourceAdded(st.sources, st.ledger.revisions, st.effects, st'.effects[|st.effects|], sourceId);
        }
      case RevisionCall(e, document, base, valid, digest, ids, body) =>
        RevisionCallMatches(st, e, document, base, valid, digest, ids, body);
      case DocumentCall(document, valid, digest, ids) =>
        hide RowsMatch;
        var call := D.CreateCall(document, valid, digest, ids);
        if D.Outcome(st.ledger, call).Success? {
          D.CommittedCall(st.ledger, call);
          RootAdded(st.sources, st.ledger.revisions, st.effects, ids.revision, st'.ledger.revisions[ids.revision]);
        }
    }
  }

  lemma RevisionCallMatches(st: Store, e: Envelope, document: Uuid, base: Option<Uuid>, valid: bool, digest: string,
                            ids: D.FreshIds, body: Body)
    requires Sound(st)
    ensures var st' := SaveRevision(st, e, document, base, valid, digest, ids, body).0;
            RowsMatch(st'.sources, st'.ledger.revisions, st'.effects)
  {
    hide RowsMatch;
    var st' := SaveRevision(st, e, document, base, valid, digest, ids, body).0;
    if st'.effects != st.effects {
      var call := D.SaveCall(document, base, valid, digest, ids);
      D.CommittedCall(st.ledger, call);
      D.SaveHasBase(st.ledger, document, base, valid, digest, ids);
      RevisionAdded(st.sources, st.ledger.revisions, st.effects, st'.effects[|st.effects|], ids.revision,
                    st'.ledger.revisions[ids.revision]);
    }
  }

  lemma EffectsSnoc(effects: seq<Effect>, f: Effect, key: string)
    ensures EffectsOf(effects + [f], key) == if f.key == Some(key) then EffectsOf(effects, key) + [f]
            else EffectsOf(effects, key)
  {
    assert (effects + [f])[..|effects|] == effects;
  }

  /** The record and the effects of one key after one step: untouched, opened, or completed by one effect. */
  ghost predicate KeyAdvances(st: Store, st': Store, key: string) {
    var own, own' := EffectsOf(st.effects, key), EffectsOf(st'.effects, key);
    || (own' == own && (key in st'.records <==> key in st.records)
        && (key in st.records ==> st'.records[key] == st.records[key]))
    || (own' == own && key !in st.records && key in st'.records && st'.records[key].body == None)
    || ((key in st.records ==> st.records[key].body == None)
        && key in st'.records && st'.records[key].status != 0
        && exists f: Effect :: own' == own + [f] && f.fingerprint == st'.records[key].fingerprint
                     && st'.records[key].body == Some(f.body))
  }

  /** Completing a request's record along with its effect. */
  lemma CompletingAdvances(st: Store, st': Store, e: Envelope, status: nat, f: Effect, key: string)
    requires status != 0 && f.key == e.key && f.fingerprint == e.fingerprint
    requires e.key.Some? && e.key.value in st.records ==>
               st.records[e.key.value].fingerprint == e.fingerprint && st.records[e.key.value].body == None
    requires st'.records == Completed(Opened(st.records, e), e, status, f.body) && st'.effects == st.effects + [f]
    ensures KeyAdvances(st, st', key)
  {
    EffectsSnoc(st.effects, f, key);
    hide EffectsOf;
  }

  lemma OpeningAdvances(st: Store, st': Store, e: Envelope, key: string)
    requires st'.records == Opened(st.records, e) && st'.effects == st.effects
    ensures KeyAdvances(st, st', key)
  {
    hide EffectsOf;
  }

  lemma StepOnKey(st: Store, c: Call, key: string)
    ensures KeyAdvances(st, Step(st, c), key)
  {
    hide D.Save;
    hide D.Create;
    var st' := Step(st, c);
    if st'.effects != st.effects {
      var f := st'.effects[|st.effects|];
      hide KeyAdvances;
      CompletingAdvances(st, st', c.e, if c.SourceCall? then 201 else 200, f, key);
    } else if st'.records != st.records {
      hide KeyAdvances;
      OpeningAdvances(st, st', c.e, key);
    }
  }

  lemma StepKeepsSound(st: Store, c: Call)
    requires Sound(st)
    ensures Sound(Step(st, c))
  {
    LedgerStaysLinear(st, c);
    RowsStayMatched(st, c);
    hide RowsMatch;
    forall key ensures KeySound(Step(st, c), key) {
      assert KeySound(st, key);
      StepOnKey(st, c, key);
      hide Step;
    }
  }

  lemma LedgerStaysLinear(st: Store, c: Call)
    requires D.Linear(st.ledger)
    ensures D.Linear(Step(st, c).ledger)
  {
    hide D.Linear;
    match c
    case SourceCall(e, sourceId, body) =>
    case RevisionCall(e, document, base, valid, digest, ids, body) =>
      D.StepKeepsLinear(st.ledger, D.SaveCall(document, base, valid, digest, ids));
    case DocumentCall(document, valid, digest, ids) =>
      D.StepKeepsLinear(st.ledger, D.CreateCall(document, valid, digest, ids));
  }

  /** In every reachable store a key has at most one effect, and its record tells which. */
  lemma {:induction false} RunKeepsSound(calls: seq<Call>)
    ensures Sound(Run(EMPTY, calls))
  {
    if calls == [] {
      D.RunIsLinear([]);
    } else {
      RunKeepsSound(calls[..|calls| - 1]);
      hide Sound;
      hide Step;
      StepKeepsSound(Run(EMPTY, calls[..|calls| - 1]), calls[|calls| - 1]);
    }
  }

  /** Committed records stay: the fingerprint never changes and a stored body is never replaced. */
  ghost predicate RecordsPersist(st: Store, st': Store) {
    && (forall k :: k in st.records ==>
          && k in st'.records
          && st'.records[k].fingerprint == st.records[k].fingerprint
          && (st.records[k].body.Some? ==> st'.records[k] == st.records[k]))
    && st.effects <= st'.effects
  }

  lemma OpeningOnlyFills(records: map<string, Record>, e: Envelope)
    ensures forall k :: k in records ==> k in Opened(records, e) && Opened(records, e)[k] == records[k]
  {
  }

  lemma StepOnlyFills(st: Store, c: Call)
    ensures RecordsPersist(st, Step(st, c))
  {
    hide D.Save;
    hide D.Create;
    if !c.DocumentCall? {
      OpeningOnlyFills(st.records, c.e);
      hide Opened;
    }
  }

  lemma {:induction false} RecordsOnlyFill(st: Store, calls: seq<Call>)
    ensures RecordsPersist(st, Run(st, calls))
  {
    hide Step;
    if calls != [] {
      RecordsOnlyFill(st, calls[..|calls| - 1]);
      StepOnlyFills(Run(st, calls[..|calls| - 1]), calls[|calls| - 1]);
    }
  }

  predicate Keyed(c: Call, key: string) {
    !c.DocumentCall? && c.e.key == Some(key)
  }

  /** Did call `i` of the run insert a source or a revision? */
  predicate AddsRow(calls: seq<Call>, i: nat)
    requires i < |calls|
  {
    var before, after := Run(EMPTY, calls[..i]), Run(EMPTY, calls[..i + 1]);
    after.sources != before.sources || after.ledger.revisions != before.ledger.revisions
  }

  /** A keyed call that inserts a row leaves its key completed. */
  lemma AddingCompletes(st: Store, c: Call, key: string)
    requires Keyed(c, key)
    requires Step(st, c).sources != st.sources || Step(st, c).ledger.revisions != st.ledger.revisions
    ensures CompletedKey(Step(st, c), key)
  {
    hide D.Save;
  }

  /** A call under a completed key changes nothing. */
  lemma CompletedIsFinal(st: Store, c: Call, key: string)
    requires Keyed(c, key) && CompletedKey(st, key)
    ensures Step(st, c) == st
  {
    hide D.Save;
  }

  ghost predicate CompletedKey(st: Store, key: string) {
    key in st.records && st.records[key].body.Some?
  }

  lemma {:induction false} CompletedStays(calls: seq<Call>, n: nat, key: string)
    requires n <= |calls| && CompletedKey(Run(EMPTY, calls[..n]), key)
    ensures CompletedKey(Run(EMPTY, calls), key)
  {
    hide Step;
    if n == |calls| {
      assert calls[..n] == calls;
    } else {
      var m := |calls| - 1;
      assert calls[..m][..n] == calls[..n];
      CompletedStays(calls[..m], n, key);
      StepOnlyFills(Run(EMPTY, calls[..m]), calls[m]);
    }
  }

  lemma RunStep(calls: seq<Call>, i: nat)
    requires i < |calls|
    ensures Run(EMPTY, calls[..i + 1]) == Step(Run(EMPTY, calls[..i]), calls[i])
  {
    hide Step;
    assert calls[..i + 1][..i] == calls[..i];
  }

  /** Of all calls of a run under one key, whatever their route and fingerprint, at most one inserts a row. */
  lemma OneRowPerKey(calls: seq<Call>, key: string, i: nat, j: nat)
    requires i < j < |calls| && Keyed(calls[i], key) && Keyed(calls[j], key)
    ensures !(AddsRow(calls, i) && AddsRow(calls, j))
  {
    hide Run;
    hide Step;
    hide CompletedKey;
    RunStep(calls, i);
    RunStep(calls, j);
    if AddsRow(calls, i) {
      AddingCompletes(Run(EMPTY, calls[..i]), calls[i], key);
      assert calls[..j][..i + 1] == calls[..i + 1];
      CompletedStays(calls[..j], i + 1, key);
      CompletedIsFinal(Run(EMPTY, calls[..j]), calls[j], key);
    }
  }

  /** Once a fingerprint is recorded, a call with another one changes nothing and is told so. */
  lemma OtherFingerprintConflicts(st: Store, calls: seq<Call>, key: string, c: Call)
    requires key in st.records && Keyed(c, key) && c.e.fingerprint != st.records[key].fingerprint
    ensures var later := Run(st, calls);
            Step(later, c) == later && Begin(later.records, c.e) == Conflict
  {
    RecordsOnlyFill(st, calls);
  }

  /**
   * After the one success under a key, every later call with its fingerprint, after any other
   * calls, changes nothing and gets that success's status and body back.
   */
  lemma SuccessIsReplayed(st: Store, calls: seq<Call>, key: string, c: Call)
    requires Sound(st) && key in st.records && st.records[key].body.Some?
    requires Keyed(c, key) && c.e.fingerprint == st.records[key].fingerprint
    ensures var later, own := Run(st, calls), EffectsOf(st.effects, key);
            && Step(later, c) == later
            && |own| == 1
            && Begin(later.records, c.e) == Replay(st.records[key].status, Some(own[0].body))
            && (c.SourceCall? ==>
                  CreateSource(later, c.e, c.sourceId, c.body).1 == Answered(st.records[key].status, own[0].body))
            && (c.RevisionCall? ==>
                  SaveRevision(later, c.e, c.document, c.base, c.valid, c.digest, c.ids, c.body).1
                    == Answered(st.records[key].status, own[0].body))
  {
    assert KeySound(st, key);
    RecordsOnlyFill(st, calls);
  }

  // ---- what each route answers and writes ----

  /** No record stands in the way: no key, a new key, or a record of this request that nothing completed. */
  ghost predicate Unrecorded(records: map<string, Record>, e: Envelope) {
    e.key.Some? ==> e.key.value !in records
  }

  ghost predicate Resumes(records: map<string, Record>, e: Envelope) {
    e.key.Some? && e.key.value in records && records[e.key.value].fingerprint == e.fingerprint
    && records[e.key.value].body == None
  }

  ghost predicate Contradicts(records: map<string, Record>, e: Envelope) {
    e.key.Some? && e.key.value in records && records[e.key.value].fingerprint != e.fingerprint
  }

  /** The records after a request completed under its key, if it has one. */
  ghost predicate CompletesWith(records: map<string, Record>, records': map<string, Record>, e: Envelope, status: nat,
                                body: Body)
  {
    records' == if e.key.Some? then records[e.key.value := Record(e.fingerprint, status, Some(body))] else records
  }

  /** A create-source call inserts its source exactly when its key is unrecorded and its id unused. */
  lemma SourceCallIff(st: Store, e: Envelope, sourceId: Uuid, body: Body)
    ensures var (st', r) := CreateSource(st, e, sourceId, body);
      && (if Unrecorded(st.records, e) && sourceId !in st.sources then
            && st'.sources == st.sources + {sourceId} && st'.ledger == st.ledger && r == Answered(201, body)
            && CompletesWith(st.records, st'.records, e, 201, body)
          else st' == st)
      && (r == KeyConflict <==> Contradicts(st.records, e))
      && (r == NotFound <==> Resumes(st.records, e) || (Unrecorded(st.records, e) && sourceId in st.sources))
  {
  }

  /**
   * A save-revision call inserts exactly the revision it was asked for, and does so exactly when its key is
   * unrecorded or its own open one and the ledger accepts the save; what a refused one leaves behind is an
   * open record, unless the refusal came from the insert itself.
   */
  lemma RevisionCallIff(st: Store, e: Envelope, document: Uuid, base: Option<Uuid>, valid: bool, digest: string,
                        ids: D.FreshIds, body: Body)
    requires D.Linear(st.ledger)
    ensures var (st', r) := SaveRevision(st, e, document, base, valid, digest, ids, body);
            var free := Unrecorded(st.records, e) || Resumes(st.records, e);
            var based := document in st.ledger.documents && base == D.CurrentRevision(st.ledger, document);
            var accepted := free && valid && based && D.FreshFor(st.ledger, document, ids);
      && (accepted ==>
            && st'.ledger.revisions == st.ledger.revisions[ids.revision := D.Revision(document, base, digest)]
            && D.CurrentRevision(st'.ledger, document) == Some(ids.revision)
            && st'.sources == st.sources && r == Answered(200, body)
            && CompletesWith(st.records, st'.records, e, 200, body))
      && (!accepted ==> st'.ledger == st.ledger && st'.sources == st.sources && st'.effects == st.effects)
      && (r == KeyConflict <==> Contradicts(st.records, e))
      && (r == Invalid <==> free && !valid)
      && (r == Stale <==> free && valid && base != D.CurrentRevision(st.ledger, document))
      && (!accepted ==>
            st'.records == if free && e.key.Some? && !(valid && based)
                           then st.records[e.key.value := Record(e.fingerprint, OpenStatus(st.records, e), None)]
                           else st.records)
  {
    var call := D.SaveCall(document, base, valid, digest, ids);
    D.SaveAnswers(st.ledger, document, base, valid, digest, ids);
    if D.Outcome(st.ledger, call).Success? {
      D.CommittedCall(st.ledger, call);
    }
    hide D.Linear;
    hide D.FreshFor;
    hide D.Save;
  }

  function OpenStatus(records: map<string, Record>, e: Envelope): nat {
    if e.key.Some? && e.key.value in records then records[e.key.value].status else 0
  }

  /** What a call with an envelope answers. */
  function Answer(st: Store, c: Call): Reply
    requires !c.DocumentCall?
  {
    match c
    case SourceCall(e, sourceId, body) => CreateSource(st, e, sourceId, body).1
    case RevisionCall(e, document, base, valid, digest, ids, body) =>
      SaveRevision(st, e, document, base, valid, digest, ids, body).1
  }

  /**
   * The answer that came with a row is the answer every later repeat gets: the same request under the same
   * key, whatever ids it draws and whatever happened in between, changes nothing.
   */
  lemma RepeatGetsFirstAnswer(st: Store, c: Call, calls: seq<Call>, again: Call)
    requires Sound(st) && !c.DocumentCall? && c.e.key.Some?
    requires Step(st, c).sources != st.sources || Step(st, c).ledger.revisions != st.ledger.revisions
    requires !again.DocumentCall? && again.e == c.e
    ensures Answer(st, c) == Answered(if c.SourceCall? then 201 else 200, c.body)
    ensures var later := Run(Step(st, c), calls);
            Step(later, again) == later && Answer(later, again) == Answer(st, c)
  {
    var key, st1 := c.e.key.value, Step(st, c);
    assert Answer(st, c) == Answered(if c.SourceCall? then 201 else 200, c.body)
        && key in st1.records
        && st1.records[key] == Record(c.e.fingerprint, if c.SourceCall? then 201 else 200, Some(c.body)) by {
      AddingCallAnswers(st, c);
    }
    StepKeepsSound(st, c);
    assert KeySound(st1, key);
    hide Step;
    hide Answer;
    hide Sound;
    SuccessIsReplayed(st1, calls, key, again);
    AnswerOf(Run(st1, calls), again);
  }

  lemma AnswerOf(st: Store, c: Call)
    ensures c.SourceCall? ==> Answer(st, c) == CreateSource(st, c.e, c.sourceId, c.body).1
    ensures c.RevisionCall? ==>
              Answer(st, c) == SaveRevision(st, c.e, c.document, c.base, c.valid, c.digest, c.ids, c.body).1
  {
  }

  lemma AddingCallAnswers(st: Store, c: Call)
    requires !c.DocumentCall? && c.e.key.Some?
    requires Step(st, c).sources != st.sources || Step(st, c).ledger.revisions != st.ledger.revisions
    ensures var status, key, st1 := if c.SourceCall? then 201 else 200, c.e.key.value, Step(st, c);
            && Answer(st, c) == Answered(status, c.body)
            && key in st1.records && st1.records[key] == Record(c.e.fingerprint, status, Some(c.body))
  {
    hide D.Save;
  }

  // ---- a first attempt that fails ----

  /** What the fingerprint of a save request covers. */
  datatype SaveRequest = SaveRequest(document: Uuid, base: Option<Uuid>, valid: bool, digest: string)

  /** Calls with this fingerprint are this request. */
  ghost predicate Consistent(calls: seq<Call>, fingerprint: string, r: SaveRequest) {
    forall c :: c in calls && !c.DocumentCall? && c.e.fingerprint == fingerprint ==>
      c.RevisionCall? && SaveRequest(c.document, c.base, c.valid, c.digest) == r
  }

  /** An open record under which nothing was created. */
  ghost predicate Open(st: Store, key: string, fingerprint: string) {
    key in st.records && st.records[key] == Record(fingerprint, 0, None) && EffectsOf(st.effects, key) == []
  }

  ghost predicate Hopeless(st: Store, r: SaveRequest) {
    D.Linear(st.ledger) && (!r.valid || D.IsPast(st.ledger, r.document, r.base))
  }

  lemma HopelessSaveFails(st: Store, r: SaveRequest, ids: D.FreshIds)
    requires Hopeless(st, r)
    ensures D.Save(st.ledger, r.document, r.base, r.valid, r.digest, ids).Failure?
  {
    hide D.Linear;
    if r.valid {
      D.PastBaseFails(st.ledger, r.document, r.base, r.valid, r.digest, ids);
    }
  }

  lemma HopelessStays(st: Store, c: Call, r: SaveRequest)
    requires Hopeless(st, r)
    ensures Hopeless(Step(st, c), r)
  {
    LedgerStaysLinear(st, c);
    hide D.Linear;
    if r.valid {
      match c
      case SourceCall(_, _, _) =>
      case RevisionCall(_, document, base, valid, digest, ids, _) =>
        D.PastStaysPast(st.ledger, D.SaveCall(document, base, valid, digest, ids), r.document, r.base);
      case DocumentCall(document, valid, digest, ids) =>
        D.PastStaysPast(st.ledger, D.CreateCall(document, valid, digest, ids), r.document, r.base);
    }
  }

  lemma OtherRecordsStay(st: Store, c: Call, key: string)
    requires c.DocumentCall? || c.e.key != Some(key)
    ensures key in Step(st, c).records <==> key in st.records
    ensures key in st.records ==> Step(st, c).records[key] == st.records[key]
  {
    hide D.Save;
    hide D.Create;
  }

  lemma OtherEffectsStay(st: Store, c: Call, key: string)
    requires c.DocumentCall? || c.e.key != Some(key)
    ensures EffectsOf(Step(st, c).effects, key) == EffectsOf(st.effects, key)
  {
    hide D.Save;
    hide D.Create;
    hide Completed;
    hide Opened;
    var st' := Step(st, c);
    if st'.effects != st.effects {
      var f := st'.effects[|st.effects|];
      assert st'.effects == st.effects + [f] && f.key == c.e.key;
      hide EffectsOf;
      EffectsSnoc(st.effects, f, key);
    }
  }

  /** A call that does not carry the key leaves its record and effects alone. */
  lemma OtherKeyKeepsOpen(st: Store, c: Call, key: string, fingerprint: string)
    requires Open(st, key, fingerprint) && (c.DocumentCall? || c.e.key != Some(key))
    ensures Open(Step(st, c), key, fingerprint)
  {
    hide Step;
    OtherRecordsStay(st, c, key);
    OtherEffectsStay(st, c, key);
  }

  lemma OtherFingerprintStays(st: Store, c: Call, key: string)
    requires Keyed(c, key) && key in st.records && st.records[key].fingerprint != c.e.fingerprint
    ensures Step(st, c) == st
  {
    hide D.Save;
  }

  lemma FailingSaveKeepsOpen(st: Store, c: Call, key: string)
    requires c.RevisionCall? && c.e.key == Some(key) && Open(st, key, c.e.fingerprint)
    requires D.Save(st.ledger, c.document, c.base, c.valid, c.digest, c.ids).Failure?
    ensures Open(Step(st, c), key, c.e.fingerprint)
  {
    hide D.Save;
    hide EffectsOf;
  }

  /** One call keeps a hopeless record open and empty. */
  lemma HopelessStaysOpen(st: Store, c: Call, key: string, fingerprint: string, r: SaveRequest)
    requires Open(st, key, fingerprint) && Hopeless(st, r) && Consistent([c], fingerprint, r)
    ensures Open(Step(st, c), key, fingerprint)
  {
    assert c in [c];
    hide Step;
    hide Hopeless;
    if c.DocumentCall? || c.e.key != Some(key) {
      OtherKeyKeepsOpen(st, c, key, fingerprint);
    } else if c.e.fingerprint != fingerprint {
      OtherFingerprintStays(st, c, key);
    } else {
      HopelessSaveFails(st, r, c.ids);
      FailingSaveKeepsOpen(st, c, key);
    }
  }

  lemma {:induction false} HopelessRunStaysOpen(st: Store, calls: seq<Call>, key: string, fingerprint: string,
                                                r: SaveRequest)
    requires Open(st, key, fingerprint) && Hopeless(st, r) && Consistent(calls, fingerprint, r)
    ensures Open(Run(st, calls), key, fingerprint) && Hopeless(Run(st, calls), r)
  {
    if calls != [] {
      var front, c := calls[..|calls| - 1], calls[|calls| - 1];
      assert c in calls;
      hide Step;
      hide Open;
      hide Hopeless;
      HopelessRunStaysOpen(st, front, key, fingerprint, r);
      HopelessStaysOpen(Run(st, front), c, key, fingerprint, r);
      HopelessStays(Run(st, front), c, r);
    }
  }

  /** A number above every element, hence unused. */
  lemma {:induction false} Above(s: set<nat>) returns (n: nat)
    ensures forall x :: x in s ==> x < n
  {
    if s == {} {
      n := 0;
    } else {
      var x :| x in s;
      var m := Above(s - {x});
      n := if x < m then m else x + 1;
      assert forall y :: y in s ==> y == x || y in s - {x};
    }
  }

  /** Ids for one call of which only the revision's is prescribed. */
  lemma DrawFor(l: D.Ledger, revision: Uuid) returns (ids: D.FreshIds)
    ensures ids.revision == revision && ids.event !in l.outbox && !D.PointerIdTaken(l, ids.pointer)
  {
    var event := Above(l.outbox.Keys);
    var pointers := set d | d in l.current :: l.current[d].id;
    var pointer := Above(pointers);
    assert event !in l.outbox.Keys;
    ids := D.FreshIds(revision, pointer, event);
    assert forall d :: d in l.current ==> l.current[d].id in pointers;
  }

  /** A call under no key that makes an unstored id the current revision of a document. */
  lemma BaseCanAppear(st: Store, document: Uuid, b: Uuid, fingerprint: string) returns (c: Call)
    requires D.Linear(st.ledger) && b !in st.ledger.revisions
    ensures c.DocumentCall? || (c.RevisionCall? && c.e.key == None && c.e.fingerprint != fingerprint)
    ensures D.CurrentRevision(Step(st, c).ledger, document) == Some(b) && document in Step(st, c).ledger.documents
  {
    var l := st.ledger;
    var ids := DrawFor(l, b);
    if document in l.documents {
      var other := Envelope(None, fingerprint + "x");
      assert |other.fingerprint| != |fingerprint|;
      c := RevisionCall(other, document, D.CurrentRevision(l, document), true, "", ids, "");
    } else {
      c := DocumentCall(document, true, "", ids);
    }
  }

  /** With its base current, an open request succeeds under unused ids. */
  lemma CurrentBaseSucceeds(st: Store, e: Envelope, r: SaveRequest) returns (c: Call)
    requires D.Linear(st.ledger) && r.valid && r.document in st.ledger.documents
    requires r.base == D.CurrentRevision(st.ledger, r.document)
    requires e.key.Some? && Open(st, e.key.value, e.fingerprint)
    ensures c.RevisionCall? && c.e == e && SaveRequest(c.document, c.base, c.valid, c.digest) == r
    ensures EffectsOf(Step(st, c).effects, e.key.value) != []
  {
    var revision := Above(st.ledger.revisions.Keys);
    var ids := DrawFor(st.ledger, revision);
    c := RevisionCall(e, r.document, r.base, r.valid, r.digest, ids, "");
    var st' := Step(st, c);
    assert D.Save(st.ledger, r.document, r.base, r.valid, r.digest, ids).Success?;
    EffectsSnoc(st.effects, st'.effects[|st.effects|], e.key.value);
  }

  lemma RunOfTwo(st: Store, a: Call, b: Call)
    ensures Run(st, [a, b]) == Step(Step(st, a), b)
  {
    hide Step;
    assert [a, b][..1] == [a] && [a][..0] == [];
    assert Run(st, [a][..0]) == st && Run(st, [a]) == Step(st, a);
  }

  /** A later call can create the missing base, and then the request goes through. */
  lemma UnstoredBaseCanReturn(st: Store, e: Envelope, r: SaveRequest) returns (calls: seq<Call>)
    requires D.Linear(st.ledger) && e.key.Some? && Open(st, e.key.value, e.fingerprint)
    requires r.valid && r.base.Some? && r.base.value !in st.ledger.revisions
    ensures Consistent(calls, e.fingerprint, r) && EffectsOf(Run(st, calls).effects, e.key.value) != []
  {
    hide D.Linear;
    hide Open;
    var first := BaseCanAppear(st, r.document, r.base.value, e.fingerprint);
    LedgerStaysLinear(st, first);
    OtherKeyKeepsOpen(st, first, e.key.value, e.fingerprint);
    var second := CurrentBaseSucceeds(Step(st, first), e, r);
    RunOfTwo(st, first, second);
    calls := [first, second];
  }

  /** What a failed first attempt under a key says about its base. */
  lemma FailedFirstAttempt(st: Store, e: Envelope, r: SaveRequest, ids: D.FreshIds, body: Body)
    requires Sound(st) && e.key.Some? && e.key.value !in st.records
    ensures var st1 := SaveRevision(st, e, r.document, r.base, r.valid, r.digest, ids, body).0;
            e.key.value in st1.records && st1.records[e.key.value].body == None ==>
              && Open(st1, e.key.value, e.fingerprint) && st1.ledger == st.ledger
              && (!(r.valid && r.base.Some? && r.base.value !in st.ledger.revisions) ==> Hopeless(st1, r))
  {
    RevisionCallIff(st, e, r.document, r.base, r.valid, r.digest, ids, body);
    hide SaveRevision;
    hide D.IsHistory;
    hide RowsMatch;
    assert KeySound(st, e.key.value);
  }

  /**
   * After a first save under a key has failed and left its record, some consistent continuation creates a
   * row under that key if and only if the request is valid and its base names no revision stored yet. A
   * base that is stale because a newer revision exists can never be saved on under the same key again.
   */
  lemma FailedSaveBurnsKeyIff(st: Store, e: Envelope, r: SaveRequest, ids: D.FreshIds, body: Body)
    requires Sound(st) && e.key.Some? && e.key.value !in st.records
    requires var st1 := SaveRevision(st, e, r.document, r.base, r.valid, r.digest, ids, body).0;
             e.key.value in st1.records && st1.records[e.key.value].body == None
    ensures var st1 := SaveRevision(st, e, r.document, r.base, r.valid, r.digest, ids, body).0;
            (exists calls :: Consistent(calls, e.fingerprint, r)
                && EffectsOf(Run(st1, calls).effects, e.key.value) != [])
            <==> r.valid && r.base.Some? && r.base.value !in st1.ledger.revisions
  {
    var st1 := SaveRevision(st, e, r.document, r.base, r.valid, r.digest, ids, body).0;
    var key := e.key.value;
    FailedFirstAttempt(st, e, r, ids, body);
    SoundLedger(st);
    hide SaveRevision;
    hide Sound;
    hide Hopeless;
    hide Consistent;
    hide D.Linear;
    if r.valid && r.base.Some? && r.base.value !in st1.ledger.revisions {
      var calls := UnstoredBaseCanReturn(st1, e, r);
    } else {
      forall calls | Consistent(calls, e.fingerprint, r) ensures EffectsOf(Run(st1, calls).effects, key) == [] {
        HopelessRunStaysOpen(st1, calls, key, e.fingerprint, r);
      }
    }
  }

  // ---- the routes ----

  class Routes {
    var records: map<string, Record>
    var sources: set<Uuid>
    const documents: D.DocumentService
    ghost var effects: seq<Effect>

    ghost function View(): Store
      reads this, documents
    {
      Store(records, sources, documents.View(), effects)
    }

    constructor ()
      ensures View() == EMPTY && Sound(View()) && fresh(documents)
    {
      records, sources, effects := map[], {}, [];
      documents := new D.DocumentService();
      new;
      RunKeepsSound([]);
    }

    method BeginIdempotency(e: Envelope) returns (decision: Decision)
      modifies this
      ensures decision == Begin(old(records), e) && records == Opened(old(records), e)
      ensures sources == old(sources) && effects == old(effects)
    {
      if e.key == None {
        return Proceed;
      }
      if e.key.value in records {
        var existing := records[e.key.value];
        if existing.fingerprint != e.fingerprint {
          return Conflict;
        }
        return Replay(existing.status, existing.body);
      }
      records := records[e.key.value := Record(e.fingerprint, 0, None)];
      return Proceed;
    }

    method CompleteIdempotency(e: Envelope, status: nat, body: Body)
      modifies this
      ensures records == Completed(old(records), e, status, body)
      ensures sources == old(sources) && effects == old(effects)
    {
      if e.key.Some? && e.key.value in records {
        records := records[e.key.value := records[e.key.value].(status := status, body := Some(body))];
      }
    }

    method PostSource(e: Envelope, sourceId: Uuid, body: Body) returns (reply: Reply)
      requires Sound(View())
      modifies this
      ensures (View(), reply) == CreateSource(old(View()), e, sourceId, body)
      ensures Sound(View())
    {
      StepKeepsSound(View(), SourceCall(e, sourceId, body));
      hide Sound;
      var committed := records;
      var decision := BeginIdempotency(e);
      match decision
      case Conflict => return KeyConflict;
      case Replay(status, stored) =>
        return if stored.Some? then Answered(OrDefault(status, 201), stored.value) else NotFound;
      case Proceed =>
        if sourceId in sources {
          records := committed;
          return NotFound;
        }
        sources := sources + {sourceId};
        effects := effects + [Effect(e.key, e.fingerprint, SourceRow(sourceId), body)];
        CompleteIdempotency(e, 201, body);
        return Answered(201, body);
    }

    method PostRevision(e: Envelope, document: Uuid, base: Option<Uuid>, valid: bool, digest: string,
                        ids: D.FreshIds, body: Body) returns (reply: Reply)
      requires Sound(View())
      modifies this, documents
      ensures (View(), reply) == SaveRevision(old(View()), e, document, base, valid, digest, ids, body)
      ensures Sound(View())
    {
      StepKeepsSound(View(), RevisionCall(e, document, base, valid, digest, ids, body));
      SoundLedger(View());
      hide Sound;
      var committed := records;
      var decision := BeginIdempotency(e);
      if decision.Conflict? {
        return KeyConflict;
      }
      if decision.Replay? && decision.body.Some? {
        return Answered(OrDefault(decision.status, 200), decision.body.value);
      }
      if !valid {
        return Invalid;
      }
      var error := documents.SaveRevision(document, base, valid, digest, ids);
      if error.Some? {
        if error.value.StaleBase? {
          return Stale;
        }
        if error.value != D.NotFound {
          records := committed;
        }
        return Reply.NotFound;
      }
      effects := effects + [Effect(e.key, e.fingerprint, RevisionRow(ids.revision), body)];
      CompleteIdempotency(e, 200, body);
      return Answered(200, body);
    }
  }

  lemma SoundLedger(st: Store)
    requires Sound(st)
    ensures D.Linear(st.ledger)
  {
  }
}
