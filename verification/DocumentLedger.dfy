/** Authored documents: revisions with base pointers, a current pointer, and optimistic concurrency. */
module DocumentLedger {
  import opened Wrappers

  type Uuid = nat

  datatype Revision = Revision(document: Uuid, base: Option<Uuid>, digest: string)
  datatype Pointer = Pointer(id: Uuid, revision: Uuid)

  /** The rows of one account; `outbox` maps an event id to the revision it announces. */
  datatype Ledger = Ledger(
    documents: set<Uuid>, revisions: map<Uuid, Revision>, current: map<Uuid, Pointer>, outbox: map<Uuid, Uuid>)

  const EMPTY := Ledger({}, map[], map[], map[])

  datatype Error = InvalidDocument | StaleBase(currentRevision: Option<Uuid>) | NotFound | UniqueViolation
      | PointerEventConflict

  /** The ids a call draws from `new_uuid7`. */
  datatype FreshIds = FreshIds(revision: Uuid, pointer: Uuid, event: Uuid)

  function CurrentRevision(l: Ledger, document: Uuid): Option<Uuid> {
    if document in l.current then Some(l.current[document].revision) else None
  }

  predicate PointerIdTaken(l: Ledger, id: Uuid) {
    exists d :: d in l.current && l.current[d].id == id
  }

  /** Insert one revision and move the pointer to it, as one transaction. */
  function WithRevision(l: Ledger, document: Uuid, r: Revision, ids: FreshIds): Result<Ledger, Error> {
    if ids.revision in l.revisions then Failure(UniqueViolation)
    else if ids.event in l.outbox then Failure(PointerEventConflict)
    else if document !in l.current && PointerIdTaken(l, ids.pointer) then Failure(UniqueViolation)
    else
      var pointerId := if document in l.current then l.current[document].id else ids.pointer;
      Success(Ledger(l.documents, l.revisions[ids.revision := r],
                     l.current[document := Pointer(pointerId, ids.revision)],
                     l.outbox[ids.event := ids.revision]))
  }

  /** `create_document`; `valid` is the verdict of the payload validation. */
  function Create(l: Ledger, document: Uuid, valid: bool, digest: string, ids: FreshIds): Result<Ledger, Error> {
    if !valid then Failure(InvalidDocument)
    else if document in l.documents then Failure(UniqueViolation)
    else WithRevision(l.(documents := l.documents + {document}), document, Revision(document, None, digest), ids)
  }

  /** `save_revision`. */
  function Save(l: Ledger, document: Uuid, base: Option<Uuid>, valid: bool, digest: string,
                ids: FreshIds)
    : Result<Ledger, Error>
  {
    if !valid then Failure(InvalidDocument)
    else if base != CurrentRevision(l, document) then Failure(StaleBase(CurrentRevision(l, document)))
    else if document !in l.documents then Failure(NotFound)
    else WithRevision(l, document, Revision(document, base, digest), ids)
  }

  function Committed(l: Ledger, r: Result<Ledger, Error>): Ledger {
    match r case Success(l') => l' case Failure(_) => l
  }

  datatype Call =
    | CreateCall(document: Uuid, valid: bool, digest: string, ids: FreshIds)
    | SaveCall(document: Uuid, base: Option<Uuid>, valid: bool, digest: string, ids: FreshIds)

  function Outcome(l: Ledger, c: Call): Result<Ledger, Error> {
    match c
    case CreateCall(document, valid, digest, ids) => Create(l, document, valid, digest, ids)
    case SaveCall(document, base, valid, digest, ids) => Save(l, document, base, valid, digest, ids)
  }

  function Run(calls: seq<Call>): Ledger {
    if calls == [] then EMPTY
    else
      var l := Run(calls[..|calls| - 1]);
      Committed(l, Outcome(l, calls[|calls| - 1]))
  }

  /** Did call `i` of the run commit? */
  predicate Succeeds(calls: seq<Call>, i: nat)
    requires i < |calls|
  {
    Outcome(Run(calls[..i]), calls[i]).Success?
  }

  // ---- one linear history per document ----

  ghost function RevisionsOf(l: Ledger, document: Uuid): set<Uuid> {
    set r | r in l.revisions && l.revisions[r].document == document
  }

  /** The `i`th revision of the list is based on the one before it. */
  ghost predicate BasedOnPrevious(l: Ledger, h: seq<Uuid>, i: int)
    requires 0 <= i < |h|
  {
    h[i] in l.revisions && l.revisions[h[i]].base == if i == 0 then None else Some(h[i - 1])
  }

  ghost predicate Distinct(s: seq<Uuid>) {
    forall i, j :: 0 <= i < j < |s| ==> s[i] != s[j]
  }

  ghost function Elements(s: seq<Uuid>): set<Uuid> {
    set r | r in s
  }

  /** `h` lists every revision of the document once, oldest first, each based on the one before it. */
  ghost predicate IsHistory(l: Ledger, document: Uuid, h: seq<Uuid>) {
    && h != []
    && Elements(h) == RevisionsOf(l, document)
    && Distinct(h)
    && (forall i :: 0 <= i < |h| ==> BasedOnPrevious(l, h, i))
    && CurrentRevision(l, document) == Some(h[|h| - 1])
  }

  ghost predicate Linear(l: Ledger) {
    && l.current.Keys == l.documents
    && (forall r :: r in l.revisions ==> l.revisions[r].document in l.documents)
    && (forall d :: d in l.documents ==> exists h :: IsHistory(l, d, h))
  }

  lemma OtherHistoriesStay(l: Ledger, l': Ledger, document: Uuid, other: Uuid, h: seq<Uuid>, id: Uuid, r: Revision)
    requires IsHistory(l, other, h) && other != document && id !in l.revisions && r.document == document
    requires l'.revisions == l.revisions[id := r]
    requires CurrentRevision(l', other) == CurrentRevision(l, other)
    ensures IsHistory(l', other, h)
  {
    assert RevisionsOf(l', other) == RevisionsOf(l, other);
    forall i | 0 <= i < |h| ensures BasedOnPrevious(l', h, i) {
      assert BasedOnPrevious(l, h, i);
    }
  }

  lemma HistoryGrows(l: Ledger, l': Ledger, document: Uuid, h: seq<Uuid>, id: Uuid, r: Revision)
    requires IsHistory(l, document, h) && id !in l.revisions
    requires r.document == document && r.base == CurrentRevision(l, document)
    requires l'.revisions == l.revisions[id := r]
    requires CurrentRevision(l', document) == Some(id)
    ensures IsHistory(l', document, h + [id])
  {
    var g := h + [id];
    RevisionsGrow(l, l', document, id, r);
    NotListed(l, document, h, id);
    assert Elements(g) == Elements(h) + {id};
    forall i | 0 <= i < |g| ensures BasedOnPrevious(l', g, i) {
      if i < |h| { assert BasedOnPrevious(l, h, i); }
    }
    assert Distinct(g) by {
      hide *;
      DistinctSnoc(h, id);
    }
  }

  lemma RevisionsGrow(l: Ledger, l': Ledger, document: Uuid, id: Uuid, r: Revision)
    requires id !in l.revisions && r.document == document && l'.revisions == l.revisions[id := r]
    ensures RevisionsOf(l', document) == RevisionsOf(l, document) + {id}
  {
  }

  lemma NotListed(l: Ledger, document: Uuid, h: seq<Uuid>, id: Uuid)
    requires Elements(h) == RevisionsOf(l, document) && id !in l.revisions
    ensures id !in h
  {
    assert id !in RevisionsOf(l, document);
    assert id in h ==> id in Elements(h);
  }

  lemma DistinctSnoc(h: seq<Uuid>, id: Uuid)
    requires Distinct(h) && id !in h
    ensures Distinct(h + [id])
  {
  }

  lemma HistoryStarts(l: Ledger, l': Ledger, document: Uuid, id: Uuid, r: Revision)
    requires RevisionsOf(l, document) == {} && r.document == document && r.base == None
    requires l'.revisions == l.revisions[id := r] && id !in l.revisions
    requires CurrentRevision(l', document) == Some(id)
    ensures IsHistory(l', document, [id])
  {
    assert RevisionsOf(l', document) == {id};
    assert BasedOnPrevious(l', [id], 0);
  }

  /** The row a call asks for. */
  function RowOf(c: Call): Revision {
    Revision(c.document, if c.CreateCall? then None else c.base, c.digest)
  }

  /**
   * What a committed call did, whichever of the two it was: it stored the row it asked for under the id it
   * drew, made that row current, announced it, and touched no other document.
   */
  lemma CommittedCall(l: Ledger, c: Call)
    requires Outcome(l, c).Success?
    ensures var l', id := Outcome(l, c).value, c.ids.revision;
            && id !in l.revisions && c.ids.event !in l.outbox
            && l'.revisions == l.revisions[id := RowOf(c)]
            && (c.SaveCall? ==> c.base == CurrentRevision(l, c.document))
            && l'.documents == l.documents + {c.document}
            && l'.outbox == l.outbox[c.ids.event := id]
            && l'.current.Keys == l.current.Keys + {c.document}
            && (forall d :: d in l.current && d != c.document ==> l'.current[d] == l.current[d])
            && (forall d :: d != c.document ==> CurrentRevision(l', d) == CurrentRevision(l, d))
            && l'.current[c.document]
                 == Pointer(if c.document in l.current then l.current[c.document].id else c.ids.pointer, id)
            && (c.CreateCall? <==> c.document !in l.documents)
  {
  }

  /** No row of the ledger uses an id this call drew for a new row. */
  ghost predicate FreshFor(l: Ledger, document: Uuid, ids: FreshIds) {
    && ids.revision !in l.revisions && ids.event !in l.outbox
    && (document !in l.current ==> forall d :: d in l.current ==> l.current[d].id != ids.pointer)
  }

  /** Exactly when a call commits. */
  lemma CommitsIff(l: Ledger, c: Call)
    requires Linear(l)
    ensures Outcome(l, c).Success? <==>
              && c.valid && FreshFor(l, c.document, c.ids)
              && (if c.CreateCall? then c.document !in l.documents
                  else c.document in l.documents && c.base == CurrentRevision(l, c.document))
  {
    hide IsHistory;
  }

  /** Which refusal a save gets. */
  lemma SaveAnswers(l: Ledger, document: Uuid, base: Option<Uuid>, valid: bool, digest: string, ids: FreshIds)
    requires Linear(l)
    ensures var r := Save(l, document, base, valid, digest, ids);
            var current := base == CurrentRevision(l, document);
            var based := current && document in l.documents;
      && (r == Failure(InvalidDocument) <==> !valid)
      && (r.Failure? && r.error.StaleBase? <==> valid && !current)
      && (r == Failure(NotFound) <==> valid && current && !based)
      && (r == Failure(UniqueViolation) || r == Failure(PointerEventConflict) <==>
            valid && based && !FreshFor(l, document, ids))
      && (r.Success? <==> valid && based && FreshFor(l, document, ids))
  {
    hide IsHistory;
  }

  lemma StepKeepsLinear(l: Ledger, c: Call)
    requires Linear(l)
    ensures Linear(Committed(l, Outcome(l, c)))
  {
    if Outcome(l, c).Success? {
      CommittedCall(l, c);
      var l', id, document := Outcome(l, c).value, c.ids.revision, c.document;
      hide Outcome;
      var r := RowOf(c);
      forall d | d in l'.documents ensures exists h :: IsHistory(l', d, h) {
        DocumentStaysLinear(l, l', document, d, id, r);
      }
    }
  }

  lemma DocumentStaysLinear(l: Ledger, l': Ledger, document: Uuid, d: Uuid, id: Uuid, r: Revision)
    requires Linear(l) && id !in l.revisions && l'.revisions == l.revisions[id := r] && r.document == document
    requires r.base == if document in l.documents then CurrentRevision(l, document) else None
    requires d == document || (d in l.documents && CurrentRevision(l', d) == CurrentRevision(l, d))
    requires CurrentRevision(l', document) == Some(id)
    ensures exists h :: IsHistory(l', d, h)
  {
    if d in l.documents {
      hide IsHistory;
      var h :| IsHistory(l, d, h);
      if d != document {
        OtherHistoriesStay(l, l', document, d, h, id, r);
      } else {
        HistoryGrows(l, l', document, h, id, r);
      }
    } else {
      HistoryStarts(l, l', document, id, r);
    }
  }

  /** A document that exists has a current revision, so a committed save is always based on one. */
  lemma SaveHasBase(l: Ledger, document: Uuid, base: Option<Uuid>, valid: bool, digest: string, ids: FreshIds)
    requires Linear(l) && Save(l, document, base, valid, digest, ids).Success?
    ensures base.Some?
  {
  }

  /** A base that no later call can make current: none at all, or a stored revision that is not current now. */
  predicate IsPast(l: Ledger, document: Uuid, base: Option<Uuid>) {
    base == None || (base.value in l.revisions && base != CurrentRevision(l, document))
  }

  lemma PastStaysPast(l: Ledger, c: Call, document: Uuid, base: Option<Uuid>)
    requires IsPast(l, document, base)
    ensures IsPast(Committed(l, Outcome(l, c)), document, base)
  {
    if Outcome(l, c).Success? {
      CommittedCall(l, c);
      hide Outcome;
    }
  }

  /** Saving on a past base always fails. */
  lemma PastBaseFails(l: Ledger, document: Uuid, base: Option<Uuid>, valid: bool, digest: string, ids: FreshIds)
    requires Linear(l) && IsPast(l, document, base)
    ensures Save(l, document, base, valid, digest, ids).Failure?
  {
    if Save(l, document, base, valid, digest, ids).Success? {
      SaveHasBase(l, document, base, valid, digest, ids);
    }
  }

  /** Every run of creates and saves, successful or not, leaves one linear history per document. */
  lemma {:induction false} RunIsLinear(calls: seq<Call>)
    ensures Linear(Run(calls))
  {
    if calls != [] {
      RunIsLinear(calls[..|calls| - 1]);
      StepKeepsLinear(Run(calls[..|calls| - 1]), calls[|calls| - 1]);
    }
  }

  /** Follow `base_revision_id` from a revision for at most `steps` rows. */
  function Walk(l: Ledger, from: Option<Uuid>, steps: nat): seq<Uuid>
    decreases steps
  {
    if steps == 0 || from == None || from.value !in l.revisions then []
    else [from.value] + Walk(l, l.revisions[from.value].base, steps - 1)
  }

  function Reverse(s: seq<Uuid>): (r: seq<Uuid>)
    ensures |r| == |s| && forall i :: 0 <= i < |s| ==> r[i] == s[|s| - 1 - i]
  {
    seq(|s|, i requires 0 <= i < |s| => s[|s| - 1 - i])
  }

  lemma {:induction false} WalkReversesHistory(l: Ledger, document: Uuid, h: seq<Uuid>, n: nat, steps: nat)
    requires IsHistory(l, document, h) && 0 < n <= |h| && steps >= n
    ensures Walk(l, Some(h[n - 1]), steps) == Reverse(h[..n])
    decreases n
  {
    assert BasedOnPrevious(l, h, n - 1);
    if n > 1 {
      WalkReversesHistory(l, document, h, n - 1, steps - 1);
      assert Reverse(h[..n]) == [h[n - 1]] + Reverse(h[..n - 1]);
    } else {
      assert Walk(l, None, steps - 1) == [];
      assert Reverse(h[..1]) == [h[0]];
    }
  }

  lemma ReverseKeeps(s: seq<Uuid>)
    requires Distinct(s)
    ensures Distinct(Reverse(s)) && Elements(Reverse(s)) == Elements(s)
  {
    var r := Reverse(s);
    forall x ensures x in r <==> x in s {
      if x in s {
        var i :| 0 <= i < |s| && s[i] == x;
        assert r[|s| - 1 - i] == x;
      }
    }
  }

  /**
   * From the current pointer, following base pointers visits every revision of the document exactly
   * once and ends at the root, however long one is prepared to walk.
   */
  lemma WalkVisitsEveryRevision(l: Ledger, document: Uuid, steps: nat)
    requires Linear(l) && document in l.documents && steps >= |RevisionsOf(l, document)|
    ensures var w := Walk(l, CurrentRevision(l, document), steps);
            && w != []
            && Elements(w) == RevisionsOf(l, document)
            && Distinct(w)
            && w[|w| - 1] in l.revisions && l.revisions[w[|w| - 1]].base == None
  {
    var h :| IsHistory(l, document, h);
    DistinctSize(h);
    WalkReversesHistory(l, document, h, |h|, steps);
    assert h[..|h|] == h;
    ReverseKeeps(h);
    assert BasedOnPrevious(l, h, 0);
  }

  lemma {:induction false} DistinctSize(h: seq<Uuid>)
    requires Distinct(h)
    ensures |Elements(h)| == |h|
  {
    if h != [] {
      var n := |h| - 1;
      DistinctSize(h[..n]);
      assert Elements(h) == Elements(h[..n]) + {h[n]};
    }
  }

  // ---- no lost update ----

  ghost predicate HasChild(l: Ledger, base: Uuid) {
    exists r :: r in l.revisions && l.revisions[r].base == Some(base)
  }

  /** The current revision is nobody's base. */
  lemma CurrentIsALeaf(l: Ledger, document: Uuid)
    requires Linear(l) && document in l.documents
    ensures !HasChild(l, l.current[document].revision)
  {
    var h :| IsHistory(l, document, h);
    var last := h[|h| - 1];
    assert last in Elements(h);
    forall r | r in l.revisions ensures l.revisions[r].base != Some(last) {
      var d := l.revisions[r].document;
      var g :| IsHistory(l, d, g);
      assert r in RevisionsOf(l, d);
      if d == document {
        SameHistoryEnds(l, d, g, h);
      } else {
        assert last in RevisionsOf(l, document);
      }
      PredecessorIsNotLast(l, d, g, r, last);
    }
  }

  lemma SameHistoryEnds(l: Ledger, document: Uuid, g: seq<Uuid>, h: seq<Uuid>)
    requires IsHistory(l, document, g) && IsHistory(l, document, h)
    ensures g[|g| - 1] == h[|h| - 1]
  {
  }

  /** The base of a listed revision is listed too, and is not the last one. */
  lemma PredecessorIsNotLast(l: Ledger, document: Uuid, g: seq<Uuid>, r: Uuid, x: Uuid)
    requires IsHistory(l, document, g) && r in Elements(g) && r in l.revisions
    requires x == g[|g| - 1] || x !in Elements(g)
    ensures l.revisions[r].base != Some(x)
  {
    var i :| 0 <= i < |g| && g[i] == r;
    assert BasedOnPrevious(l, g, i);
    if i > 0 { assert g[i - 1] in Elements(g); }
  }

  lemma {:induction false} RowsAreImmutable(calls: seq<Call>, n: nat)
    requires n <= |calls|
    ensures forall r :: r in Run(calls[..n]).revisions ==>
              r in Run(calls).revisions && Run(calls).revisions[r] == Run(calls[..n]).revisions[r]
  {
    if n == |calls| {
      assert calls[..n] == calls;
    } else {
      var m := |calls| - 1;
      RowsAreImmutable(calls[..m], n);
      assert calls[..m][..n] == calls[..n];
    }
  }

  // ---- a run's rows are its committed calls ----

  /** Every committed call of a run has left the row it asked for, and later calls have kept it. */
  lemma CommittedRowsStay(calls: seq<Call>, i: nat)
    requires i < |calls| && Succeeds(calls, i)
    ensures calls[i].ids.revision in Run(calls).revisions
    ensures Run(calls).revisions[calls[i].ids.revision] == RowOf(calls[i])
  {
    assert calls[..i + 1][..i] == calls[..i];
    CommittedCall(Run(calls[..i]), calls[i]);
    hide Outcome;
    RowsAreImmutable(calls, i + 1);
  }

  /** Every stored revision is the row of a committed call. */
  lemma {:induction false} RowsAreCommitted(calls: seq<Call>, id: Uuid)
    requires id in Run(calls).revisions
    ensures exists i: nat :: i < |calls| && Succeeds(calls, i) && calls[i].ids.revision == id
  {
    var n := |calls| - 1;
    var front := calls[..n];
    if id in Run(front).revisions {
      RowsAreCommitted(front, id);
      var i: nat :| i < n && Succeeds(front, i) && front[i].ids.revision == id;
      assert front[..i] == calls[..i];
      assert Succeeds(calls, i) && calls[i].ids.revision == id;
    } else {
      assert Outcome(Run(front), calls[n]).Success?;
      CommittedCall(Run(front), calls[n]);
      hide Outcome;
      assert Succeeds(calls, n);
    }
  }

  /** The last committed call of a document made its row the current one. */
  lemma {:induction false} CurrentIsLastCommit(calls: seq<Call>, i: nat)
    requires i < |calls| && Succeeds(calls, i)
    requires forall j :: i < j < |calls| && calls[j].document == calls[i].document ==> !Succeeds(calls, j)
    ensures CurrentRevision(Run(calls), calls[i].document) == Some(calls[i].ids.revision)
  {
    var n := |calls| - 1;
    var front := calls[..n];
    assert front[..i] == calls[..i];
    if Succeeds(calls, n) { CommittedCall(Run(front), calls[n]); }
    if i < n {
      forall j | i < j < n && front[j].document == front[i].document ensures !Succeeds(front, j) {
        assert front[..j] == calls[..j];
        assert !Succeeds(calls, j);
      }
      CurrentIsLastCommit(front, i);
    }
    hide Outcome;
  }

  /** A read after a run sees what the last committed call of the document submitted. */
  lemma LastCommitIsRead(calls: seq<Call>, i: nat)
    requires i < |calls| && Succeeds(calls, i)
    requires forall j :: i < j < |calls| && calls[j].document == calls[i].document ==> !Succeeds(calls, j)
    ensures var l, c := Run(calls), calls[i];
            && c.document in l.current && l.current[c.document].revision in l.revisions
            && var row := l.revisions[l.current[c.document].revision];
            && row.document == c.document && row.digest == c.digest
            && (c.SaveCall? ==> row.base == c.base) && (c.CreateCall? ==> row.base == None)
  {
    CurrentIsLastCommit(calls, i);
    CommittedRowsStay(calls, i);
  }

  /** Of any two saves of one document on the same base, at most one commits. */
  lemma SameBaseCommitsOnce(calls: seq<Call>, i: nat, j: nat)
    requires i < j < |calls| && calls[i].SaveCall? && calls[j].SaveCall?
    requires calls[i].document == calls[j].document && calls[i].base == calls[j].base
    ensures !(Succeeds(calls, i) && Succeeds(calls, j))
  {
    if Succeeds(calls, i) {
      RunIsLinear(calls[..i]);
      RunIsLinear(calls[..j]);
      var document, base := calls[i].document, calls[i].base;
      assert calls[..i + 1][..i] == calls[..i];
      assert calls[..j][..i + 1] == calls[..i + 1];
      RowsAreImmutable(calls[..j], i + 1);
      var r := calls[i].ids.revision;
      var before, after := Run(calls[..i]), Run(calls[..j]);
      assert r in Run(calls[..i + 1]).revisions;
      assert after.revisions[r].base == base;
      if base.Some? {
        assert HasChild(after, base.value);
        if document in after.documents { CurrentIsALeaf(after, document); }
      }
    }
  }

  /** A save on anything but the current revision changes nothing and reports the current one. */
  lemma StaleSaveChangesNothing(l: Ledger, document: Uuid, base: Option<Uuid>, digest: string, ids: FreshIds)
    ensures base != CurrentRevision(l, document) <==>
              Save(l, document, base, true, digest, ids) == Failure(StaleBase(CurrentRevision(l, document)))
    ensures base != CurrentRevision(l, document) ==> Committed(l, Save(l, document, base, true, digest, ids)) == l
  {
  }

  // ---- the service ----

  class DocumentService {
    var documents: set<Uuid>
    var revisions: map<Uuid, Revision>
    var current: map<Uuid, Pointer>
    var outbox: map<Uuid, Uuid>

    ghost function View(): Ledger
      reads this
    {
      Ledger(documents, revisions, current, outbox)
    }

    constructor ()
      ensures View() == EMPTY && Linear(View())
    {
      documents, revisions, current, outbox := {}, map[], map[], map[];
      new;
      RunIsLinear([]);
    }

    /** The pointer function: an upsert that records its outbox event. */
    method SetCurrentRevision(document: Uuid, r: Revision, ids: FreshIds) returns (error: Option<Error>)
      modifies this
      ensures match WithRevision(old(View()), document, r, ids)
              case Success(l) => error == None && View() == l
              case Failure(e) => error == Some(e) && View() == old(View())
    {
      if ids.revision in revisions {
        return Some(UniqueViolation);
      }
      if ids.event in outbox {
        return Some(PointerEventConflict);
      }
      if document in current {
        current := current[document := current[document].(revision := ids.revision)];
      } else {
        if exists d :: d in current && current[d].id == ids.pointer {
          return Some(UniqueViolation);
        }
        current := current[document := Pointer(ids.pointer, ids.revision)];
      }
      revisions := revisions[ids.revision := r];
      outbox := outbox[ids.event := ids.revision];
      return None;
    }

    method CreateDocument(document: Uuid, valid: bool, digest: string, ids: FreshIds) returns (error: Option<Error>)
      requires Linear(View())
      modifies this
      ensures View() == Committed(old(View()), Create(old(View()), document, valid, digest, ids))
      ensures error == None <==> Create(old(View()), document, valid, digest, ids).Success?
      ensures error.Some? ==> Create(old(View()), document, valid, digest, ids) == Failure(error.value)
      ensures Linear(View())
    {
      StepKeepsLinear(View(), CreateCall(document, valid, digest, ids));
      hide Linear;
      if !valid {
        return Some(InvalidDocument);
      }
      if document in documents {
        return Some(UniqueViolation);
      }
      documents := documents + {document};
      error := SetCurrentRevision(document, Revision(document, None, digest), ids);
      if error.Some? {
        documents := documents - {document};
      }
    }

    method SaveRevision(document: Uuid, base: Option<Uuid>, valid: bool, digest: string, ids: FreshIds)
      returns (error: Option<Error>)
      requires Linear(View())
      modifies this
      ensures View() == Committed(old(View()), Save(old(View()), document, base, valid, digest, ids))
      ensures error == None <==> Save(old(View()), document, base, valid, digest, ids).Success?
      ensures error.Some? ==> Save(old(View()), document, base, valid, digest, ids) == Failure(error.value)
      ensures error == None ==>
                document in current && current[document].revision == ids.revision
                && revisions == old(revisions)[ids.revision := Revision(document, base, digest)]
      ensures Linear(View())
    {
      StepKeepsLinear(View(), SaveCall(document, base, valid, digest, ids));
      hide Linear;
      if !valid {
        return Some(InvalidDocument);
      }
      var currentRevision := if document in current then Some(current[document].revision) else None;
      if base != currentRevision {
        return Some(StaleBase(currentRevision));
      }
      if document !in documents {
        return Some(NotFound);
      }
      error := SetCurrentRevision(document, Revision(document, base, digest), ids);
    }

    /** `get_current_revision`: never dangling for a document that exists. */
    method GetCurrentRevision(document: Uuid) returns (r: Option<Revision>)
      requires Linear(View())
      ensures document in documents <==> r.Some?
      ensures r.Some? ==> r.value.document == document && current[document].revision in revisions
                          && r.value == revisions[current[document].revision]
    {
      if document !in current {
        return None;
      }
      ghost var h :| IsHistory(View(), document, h);
      assert h[|h| - 1] in Elements(h);
      return Some(revisions[current[document].revision]);
    }
  }
}
