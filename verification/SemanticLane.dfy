/** The semantic retrieval lane: score every eligible revision against the query and keep the best. */
module SemanticLane {
  import opened Wrappers
  import opened Ordering
  import Text
  import Embedding
  import Retrieval

  type Uuid = nat

  const DIMS := 64
  const SNIPPET_LENGTH := 512

  /** What the lane calls but this model does not define. */
  datatype Tools = Tools(
    tokenize: string -> seq<string>, digest: Embedding.Digest, root: real -> real, show: Uuid -> string)

  datatype DocumentRow = DocumentRow(
    documentId: Uuid, revisionId: Uuid, spaceId: Uuid, plainText: Option<string>, createdAt: int)

  datatype MemoryRow = MemoryRow(
    itemId: Uuid, revisionId: Uuid, spaceId: Uuid, assertion: string, active: bool, createdAt: int)

  datatype Request = Request(
    query: string, eligible: set<Uuid>, asOf: Option<int>, maxResults: int, minScore: real)

  /** A candidate with its score; the rank is 1 until the list is sorted. */
  datatype Hit = Hit(score: real, candidate: Retrieval.Candidate)

  // ---- scoring ----

  predicate InTime(createdAt: int, asOf: Option<int>) {
    asOf.None? || createdAt <= asOf.value
  }

  predicate SelectsDocument(q: Request, row: DocumentRow) {
    row.spaceId in q.eligible && row.plainText.Some? && InTime(row.createdAt, q.asOf)
  }

  predicate SelectsMemory(q: Request, row: MemoryRow) {
    row.spaceId in q.eligible && row.active && InTime(row.createdAt, q.asOf)
  }

  function VectorOf(t: Tools, text: string): (r: seq<real>)
    ensures |r| == DIMS
  {
    Embedding.Embed(t.digest, DIMS, t.tokenize(text), t.root)
  }

  function Similarity(t: Tools, query: string, text: string): real {
    Embedding.Dot(VectorOf(t, Text.Strip(query)), VectorOf(t, text))
  }

  function Snippet(text: string): string {
    if |text| <= SNIPPET_LENGTH then text else text[..SNIPPET_LENGTH]
  }

  function DocumentHit(t: Tools, row: DocumentRow, text: string, score: real): Hit {
    Hit(score, Retrieval.Candidate("semantic:document:" + t.show(row.documentId) + ":" + t.show(row.revisionId),
                                   "document", row.documentId, row.revisionId, row.spaceId, 1, None,
                                   Some(Snippet(text))))
  }

  function MemoryHit(t: Tools, row: MemoryRow, score: real): Hit {
    Hit(score, Retrieval.Candidate("semantic:memory:" + t.show(row.itemId) + ":" + t.show(row.revisionId),
                                   "memory", row.itemId, row.revisionId, row.spaceId, 1, None,
                                   Some(Snippet(row.assertion))))
  }

  /** The hit of a selected document row, if its text is not empty and scores high enough. */
  function OfDocument(t: Tools, q: Request, row: DocumentRow): Option<Hit> {
    if !SelectsDocument(q, row) || row.plainText.value == "" then None
    else
      var score := Similarity(t, q.query, row.plainText.value);
      if score < q.minScore then None else Some(DocumentHit(t, row, row.plainText.value, score))
  }

  function OfMemory(t: Tools, q: Request, row: MemoryRow): Option<Hit> {
    if !SelectsMemory(q, row) then None
    else
      var score := Similarity(t, q.query, row.assertion);
      if score < q.minScore then None else Some(MemoryHit(t, row, score))
  }

  function DocumentHits(t: Tools, q: Request, rows: seq<DocumentRow>): seq<Hit> {
    if rows == [] then []
    else
      var h := OfDocument(t, q, rows[|rows| - 1]);
      DocumentHits(t, q, rows[..|rows| - 1]) + if h.Some? then [h.value] else []
  }

  function MemoryHits(t: Tools, q: Request, rows: seq<MemoryRow>): seq<Hit> {
    if rows == [] then []
    else
      var h := OfMemory(t, q, rows[|rows| - 1]);
      MemoryHits(t, q, rows[..|rows| - 1]) + if h.Some? then [h.value] else []
  }

  /** Every hit, documents first, in scan order. */
  function Scored(t: Tools, q: Request, documents: seq<DocumentRow>, memories: seq<MemoryRow>): seq<Hit> {
    DocumentHits(t, q, documents) + MemoryHits(t, q, memories)
  }

  // ---- the best ones ----

  /** Descending by score; a reverse sort still keeps equal scores in scan order. */
  predicate AtLeast(a: Hit, b: Hit) {
    a.score >= b.score
  }

  /** How many elements a slice up to `max` keeps; a negative bound counts from the end. */
  function Kept(n: nat, max: int): (k: nat)
    ensures k <= n
  {
    if max >= 0 then (if max <= n then max else n) else if n + max >= 0 then n + max else 0
  }

  /** A positive limit keeps at most that many, a negative one drops as many from the end. */
  lemma KeptIs(n: nat, max: int)
    ensures max >= 0 ==> Kept(n, max) <= max && (Kept(n, max) == n || Kept(n, max) == max)
    ensures max < 0 ==> if n > -max then n - Kept(n, max) == -max else Kept(n, max) == 0
  {
  }

  function Best(scored: seq<Hit>, max: int): (r: seq<Hit>)
    ensures |r| == Kept(|scored|, max)
  {
    Sorted(scored, AtLeast)[..Kept(|scored|, max)]
  }

  function WithRank(h: Hit, rank: int): Hit {
    h.(candidate := h.candidate.(rank := rank))
  }

  function Ranked(hits: seq<Hit>): (r: seq<Hit>)
    ensures |r| == |hits|
  {
    seq(|hits|, i requires 0 <= i < |hits| => WithRank(hits[i], i + 1))
  }

  function Lane(t: Tools, q: Request, documents: seq<DocumentRow>, memories: seq<MemoryRow>): seq<Hit> {
    if Text.Strip(q.query) == "" || q.eligible == {} then []
    else Ranked(Best(Scored(t, q, documents, memories), q.maxResults))
  }

  /** `semantic_candidates`. */
  method SemanticCandidates(t: Tools, q: Request, documents: seq<DocumentRow>, memories: seq<MemoryRow>)
    returns (results: seq<Hit>)
    requires Embedding.SquareRoot(t.root, 0.0)
    ensures results == Lane(t, q, documents, memories)
  {
    hide Text.Strip;
    hide Embedding.Embed;
    hide Embedding.Dot;
    hide Sorted;
    var trimmed := Text.Strip(q.query);
    if trimmed == "" || q.eligible == {} {
      return [];
    }
    var queryVector := Embedding.EmbeddingHash(t.digest, DIMS, t.tokenize(trimmed), t.root);
    var scored: seq<Hit> := [];
    for i := 0 to |documents|
      invariant scored == DocumentHits(t, q, documents[..i])
    {
      var row := documents[i];
      assert documents[..i + 1][..i] == documents[..i];
      if !SelectsDocument(q, row) || row.plainText.value == "" {
        continue;
      }
      var vector := Embedding.EmbeddingHash(t.digest, DIMS, t.tokenize(row.plainText.value), t.root);
      var score := Embedding.Dot(queryVector, vector);
      if score < q.minScore {
        continue;
      }
      scored := scored + [DocumentHit(t, row, row.plainText.value, score)];
    }
    assert documents[..|documents|] == documents;
    for i := 0 to |memories|
      invariant scored == DocumentHits(t, q, documents) + MemoryHits(t, q, memories[..i])
    {
      var row := memories[i];
      assert memories[..i + 1][..i] == memories[..i];
      if !SelectsMemory(q, row) {
        continue;
      }
      var vector := Embedding.EmbeddingHash(t.digest, DIMS, t.tokenize(row.assertion), t.root);
      var score := Embedding.Dot(queryVector, vector);
      if score < q.minScore {
        continue;
      }
      scored := scored + [MemoryHit(t, row, score)];
    }
    assert memories[..|memories|] == memories;
    scored := Sorted(scored, AtLeast);
    results := [];
    for i := 0 to Kept(|scored|, q.maxResults)
      invariant results == Ranked(scored[..i])
    {
      results := results + [WithRank(scored[i], i + 1)];
    }
  }

  // ---- what the lane promises ----

  lemma AtLeastIsTotal()
    ensures TotalPreorder(AtLeast)
  {
  }

  /** What a row contributed to the scan, if anything. */
  ghost predicate ComesFrom(t: Tools, q: Request, documents: seq<DocumentRow>, memories: seq<MemoryRow>, h: Hit) {
    || (exists row :: row in documents && OfDocument(t, q, row) == Some(h))
    || (exists row :: row in memories && OfMemory(t, q, row) == Some(h))
  }

  lemma {:induction false} DocumentHitsAre(t: Tools, q: Request, rows: seq<DocumentRow>, h: Hit)
    ensures h in DocumentHits(t, q, rows) <==> exists row :: row in rows && OfDocument(t, q, row) == Some(h)
  {
    hide OfDocument;
    if rows != [] {
      var front, last := rows[..|rows| - 1], rows[|rows| - 1];
      DocumentHitsAre(t, q, front, h);
      assert rows == front + [last];
    }
  }

  lemma {:induction false} MemoryHitsAre(t: Tools, q: Request, rows: seq<MemoryRow>, h: Hit)
    ensures h in MemoryHits(t, q, rows) <==> exists row :: row in rows && OfMemory(t, q, row) == Some(h)
  {
    hide OfMemory;
    if rows != [] {
      var front, last := rows[..|rows| - 1], rows[|rows| - 1];
      MemoryHitsAre(t, q, front, h);
      assert rows == front + [last];
    }
  }

  /** The scan finds exactly the eligible, timely, high-scoring rows. */
  lemma ScoredIff(t: Tools, q: Request, documents: seq<DocumentRow>, memories: seq<MemoryRow>, h: Hit)
    ensures h in Scored(t, q, documents, memories) <==> ComesFrom(t, q, documents, memories, h)
  {
    hide OfDocument;
    hide OfMemory;
    DocumentHitsAre(t, q, documents, h);
    MemoryHitsAre(t, q, memories, h);
  }

  /** The row's space is eligible and the row is no younger than the question. */
  ghost predicate InScope(q: Request, spaceId: Uuid, createdAt: int) {
    spaceId in q.eligible && (q.asOf.Some? ==> createdAt <= q.asOf.value)
  }

  /** The hit shows this text of this revision: its score, its identity and its first 512 characters. */
  ghost predicate Shows(t: Tools, q: Request, h: Hit, kind: string, id: Uuid, revision: Uuid, space: Uuid,
                        text: string)
  {
    && h.score == Similarity(t, q.query, text) && h.score >= q.minScore
    && var c := h.candidate;
    && c.id == "semantic:" + kind + ":" + t.show(id) + ":" + t.show(revision)
    && c.canonicalType == kind && c.canonicalId == id && c.revisionId == revision && c.spaceId == space
    && c.rank == 1 && c.locator == None
    && c.snippet.Some? && c.snippet.value <= text && |c.snippet.value| == (if |text| <= 512 then |text| else 512)
  }

  ghost predicate ShowsDocument(t: Tools, q: Request, h: Hit, row: DocumentRow) {
    && InScope(q, row.spaceId, row.createdAt) && row.plainText.Some? && row.plainText.value != ""
    && Shows(t, q, h, "document", row.documentId, row.revisionId, row.spaceId, row.plainText.value)
  }

  ghost predicate ShowsMemory(t: Tools, q: Request, h: Hit, row: MemoryRow) {
    && InScope(q, row.spaceId, row.createdAt) && row.active
    && Shows(t, q, h, "memory", row.itemId, row.revisionId, row.spaceId, row.assertion)
  }

  lemma DocumentHitShows(t: Tools, q: Request, h: Hit, row: DocumentRow)
    ensures OfDocument(t, q, row) == Some(h) <==> ShowsDocument(t, q, h, row)
  {
    hide Similarity;
    assert "semantic:" + "document" + ":" == "semantic:document:";
    if ShowsDocument(t, q, h, row) {
      assert h.candidate.snippet.value == Snippet(row.plainText.value);
    }
  }

  lemma MemoryHitShows(t: Tools, q: Request, h: Hit, row: MemoryRow)
    ensures OfMemory(t, q, row) == Some(h) <==> ShowsMemory(t, q, h, row)
  {
    hide Similarity;
    assert "semantic:" + "memory" + ":" == "semantic:memory:";
    if ShowsMemory(t, q, h, row) {
      assert h.candidate.snippet.value == Snippet(row.assertion);
    }
  }

  /**
   * A hit is found exactly when it shows a document with text, or an active memory, of an eligible space that
   * existed at the time asked about and is similar enough to the query.
   */
  lemma HitsShowRows(t: Tools, q: Request, documents: seq<DocumentRow>, memories: seq<MemoryRow>, h: Hit)
    ensures h in Scored(t, q, documents, memories) <==>
              || (exists row :: row in documents && ShowsDocument(t, q, h, row))
              || (exists row :: row in memories && ShowsMemory(t, q, h, row))
  {
    ScoredIff(t, q, documents, memories, h);
    forall row | row in documents { DocumentHitShows(t, q, h, row); }
    forall row | row in memories { MemoryHitShows(t, q, h, row); }
    hide Scored;
    hide OfDocument;
    hide OfMemory;
    hide ShowsDocument;
    hide ShowsMemory;
  }

  // ---- rows that cannot matter ----

  lemma {:induction false} DroppedDocumentsDoNotMatter(t: Tools, q: Request, rows: seq<DocumentRow>,
                                                       kept: DocumentRow -> bool)
    requires forall row :: row in rows && !kept(row) ==> OfDocument(t, q, row) == None
    ensures DocumentHits(t, q, Filter(rows, kept)) == DocumentHits(t, q, rows)
  {
    hide OfDocument;
    if rows != [] {
      var front, last := rows[..|rows| - 1], rows[|rows| - 1];
      assert rows == front + [last];
      DroppedDocumentsDoNotMatter(t, q, front, kept);
      FilterSnoc(front, last, kept);
      var f := Filter(front, kept);
      assert (f + [last])[..|f|] == f;
    }
  }

  lemma {:induction false} DroppedMemoriesDoNotMatter(t: Tools, q: Request, rows: seq<MemoryRow>,
                                                      kept: MemoryRow -> bool)
    requires forall row :: row in rows && !kept(row) ==> OfMemory(t, q, row) == None
    ensures MemoryHits(t, q, Filter(rows, kept)) == MemoryHits(t, q, rows)
  {
    hide OfMemory;
    if rows != [] {
      var front, last := rows[..|rows| - 1], rows[|rows| - 1];
      assert rows == front + [last];
      DroppedMemoriesDoNotMatter(t, q, front, kept);
      FilterSnoc(front, last, kept);
      var f := Filter(front, kept);
      assert (f + [last])[..|f|] == f;
    }
  }

  function DocumentsUntil(asOf: int): DocumentRow -> bool {
    (row: DocumentRow) => row.createdAt <= asOf
  }

  function ActiveUntil(asOf: int): MemoryRow -> bool {
    (row: MemoryRow) => row.active && row.createdAt <= asOf
  }

  function DocumentsIn(spaces: set<Uuid>): DocumentRow -> bool {
    (row: DocumentRow) => row.spaceId in spaces
  }

  function MemoriesIn(spaces: set<Uuid>): MemoryRow -> bool {
    (row: MemoryRow) => row.spaceId in spaces
  }

  lemma SameHitsSameLane(t: Tools, q: Request, q': Request, documents: seq<DocumentRow>, documents': seq<DocumentRow>,
                         memories: seq<MemoryRow>, memories': seq<MemoryRow>)
    requires Text.Strip(q'.query) == Text.Strip(q.query) && q'.eligible == q.eligible && q'.maxResults == q.maxResults
    requires DocumentHits(t, q', documents') == DocumentHits(t, q, documents)
    requires MemoryHits(t, q', memories') == MemoryHits(t, q, memories)
    ensures Lane(t, q', documents', memories') == Lane(t, q, documents, memories)
  {
    hide Text.Strip;
    hide DocumentHits;
    hide MemoryHits;
    hide Best;
    hide Ranked;
  }

  /** A question about the past is answered as if nothing had been written since, nor retired memories kept. */
  lemma LaterRowsDoNotMatter(t: Tools, q: Request, documents: seq<DocumentRow>, memories: seq<MemoryRow>, asOf: int)
    requires q.asOf == Some(asOf)
    ensures Lane(t, q, documents, memories)
         == Lane(t, q, Filter(documents, DocumentsUntil(asOf)), Filter(memories, ActiveUntil(asOf)))
  {
    hide Filter;
    hide Similarity;
    DroppedDocumentsDoNotMatter(t, q, documents, DocumentsUntil(asOf));
    DroppedMemoriesDoNotMatter(t, q, memories, ActiveUntil(asOf));
    SameHitsSameLane(t, q, q, Filter(documents, DocumentsUntil(asOf)), documents,
                     Filter(memories, ActiveUntil(asOf)), memories);
    hide Lane;
  }

  /** Rows of spaces that are not eligible might as well not exist. */
  lemma OtherSpacesDoNotMatter(t: Tools, q: Request, documents: seq<DocumentRow>, memories: seq<MemoryRow>)
    ensures Lane(t, q, documents, memories)
         == Lane(t, q, Filter(documents, DocumentsIn(q.eligible)), Filter(memories, MemoriesIn(q.eligible)))
  {
    hide Filter;
    hide Similarity;
    DroppedDocumentsDoNotMatter(t, q, documents, DocumentsIn(q.eligible));
    DroppedMemoriesDoNotMatter(t, q, memories, MemoriesIn(q.eligible));
    SameHitsSameLane(t, q, q, Filter(documents, DocumentsIn(q.eligible)), documents,
                     Filter(memories, MemoriesIn(q.eligible)), memories);
    hide Lane;
  }

  /** White space around the query does not matter, and a query of white space finds nothing. */
  lemma QueryIsStripped(t: Tools, q: Request, documents: seq<DocumentRow>, memories: seq<MemoryRow>)
    ensures Lane(t, q.(query := Text.Strip(q.query)), documents, memories) == Lane(t, q, documents, memories)
    ensures Text.Strip(q.query) == "" ==> Lane(t, q, documents, memories) == []
  {
    var s := Text.Strip(q.query);
    assert Text.Strip(q.query) == "" ==> Lane(t, q, documents, memories) == [];
    hide *;
    StripTwice(q.query);
    DocumentsOfStripped(t, q, documents, s);
    MemoriesOfStripped(t, q, memories, s);
    SameHitsSameLane(t, q, q.(query := s), documents, documents, memories, memories);
  }

  lemma StripTwice(s: string)
    ensures Text.Strip(Text.Strip(s)) == Text.Strip(s)
  {
    Text.StripIsTrimmed(s);
    if Text.Strip(s) != "" {
      Text.StripOfTrimmed(Text.Strip(s));
    }
  }

  lemma {:induction false} DocumentsOfStripped(t: Tools, q: Request, rows: seq<DocumentRow>, s: string)
    requires Text.Strip(s) == Text.Strip(q.query)
    ensures DocumentHits(t, q.(query := s), rows) == DocumentHits(t, q, rows)
  {
    hide Text.Strip;
    if rows != [] {
      DocumentsOfStripped(t, q, rows[..|rows| - 1], s);
    }
  }

  lemma {:induction false} MemoriesOfStripped(t: Tools, q: Request, rows: seq<MemoryRow>, s: string)
    requires Text.Strip(s) == Text.Strip(q.query)
    ensures MemoryHits(t, q.(query := s), rows) == MemoryHits(t, q, rows)
  {
    hide Text.Strip;
    if rows != [] {
      MemoriesOfStripped(t, q, rows[..|rows| - 1], s);
    }
  }

  /** Hits are in eligible spaces and score at least the threshold. */
  lemma ScoredIsEligible(t: Tools, q: Request, documents: seq<DocumentRow>, memories: seq<MemoryRow>, h: Hit)
    requires h in Scored(t, q, documents, memories)
    ensures h.candidate.spaceId in q.eligible && h.score >= q.minScore && h.candidate.rank == 1
  {
    hide Similarity;
    hide Scored;
    ScoredIff(t, q, documents, memories, h);
  }

  /** `best` is a true top part of `scored`: nothing left out beats anything kept. */
  ghost predicate IsTopOf(best: seq<Hit>, scored: seq<Hit>) {
    exists rest: seq<Hit> ::
      && multiset(best) + multiset(rest) == multiset(scored)
      && forall kept, left :: kept in best && left in rest ==> kept.score >= left.score
  }

  lemma BestIsTop(scored: seq<Hit>, max: int)
    ensures IsTopOf(Best(scored, max), scored)
    ensures forall i, j :: 0 <= i < j < |Best(scored, max)| ==> Best(scored, max)[i].score >= Best(scored, max)[j].score
    ensures forall h :: h in Best(scored, max) ==> h in scored
  {
    hide Sorted;
    AtLeastIsTotal();
    SortedIsSortedPermutation(scored, AtLeast);
    SortedKeepsElements(scored, AtLeast);
    var sorted, k := Sorted(scored, AtLeast), Kept(|scored|, max);
    var best, rest := sorted[..k], sorted[k..];
    assert sorted == best + rest;
    assert multiset(best) + multiset(rest) == multiset(scored);
    forall kept, left | kept in best && left in rest ensures kept.score >= left.score {
      var i :| 0 <= i < k && best[i] == kept;
      var j :| 0 <= j < |rest| && rest[j] == left;
      assert AtLeast(sorted[i], sorted[k + j]);
    }
    forall i, j | 0 <= i < j < k ensures best[i].score >= best[j].score {
      assert AtLeast(sorted[i], sorted[j]);
    }
  }

  /** The lane is the ranked top of the scan: ranks 1 to n, scores not increasing and above the threshold. */
  lemma LaneIsTopK(t: Tools, q: Request, documents: seq<DocumentRow>, memories: seq<MemoryRow>)
    requires Text.Strip(q.query) != "" && q.eligible != {}
    ensures var lane, scored := Lane(t, q, documents, memories), Scored(t, q, documents, memories);
      && |lane| == Kept(|scored|, q.maxResults)
      && (forall i :: 0 <= i < |lane| ==> lane[i].candidate.rank == i + 1)
      && (forall i, j :: 0 <= i < j < |lane| ==> lane[i].score >= lane[j].score)
      && (forall h :: h in lane ==> h.score >= q.minScore && h.candidate.spaceId in q.eligible)
      && IsTopOf(Unranked(lane), scored)
  {
    var best := Best(Scored(t, q, documents, memories), q.maxResults);
    assert Lane(t, q, documents, memories) == Ranked(best) by { hide Best; hide Scored; hide Text.Strip; }
    hide *;
    BestIsTop(Scored(t, q, documents, memories), q.maxResults);
    BestIsEligible(t, q, documents, memories, best);
    RankedFields(best);
    assert |best| == Kept(|Scored(t, q, documents, memories)|, q.maxResults);
  }

  lemma BestIsEligible(t: Tools, q: Request, documents: seq<DocumentRow>, memories: seq<MemoryRow>, best: seq<Hit>)
    requires forall h :: h in best ==> h in Scored(t, q, documents, memories)
    ensures forall i :: 0 <= i < |best| ==>
              best[i].score >= q.minScore && best[i].candidate.spaceId in q.eligible && best[i].candidate.rank == 1
  {
    hide Scored;
    forall i | 0 <= i < |best|
      ensures best[i].score >= q.minScore && best[i].candidate.spaceId in q.eligible && best[i].candidate.rank == 1
    {
      ScoredIsEligible(t, q, documents, memories, best[i]);
    }
  }

  lemma RankedFields(best: seq<Hit>)
    requires forall i :: 0 <= i < |best| ==> best[i].candidate.rank == 1
    ensures var lane := Ranked(best);
      && (forall i :: 0 <= i < |best| ==>
            lane[i].score == best[i].score && lane[i].candidate.spaceId == best[i].candidate.spaceId
            && lane[i].candidate.rank == i + 1)
      && Unranked(lane) == best
  {
  }

  function Unranked(hits: seq<Hit>): (r: seq<Hit>)
    ensures |r| == |hits|
  {
    seq(|hits|, i requires 0 <= i < |hits| => WithRank(hits[i], 1))
  }

  /** Asking for fewer results gives a prefix of what asking for more gives. */
  lemma FewerResultsIsPrefix(t: Tools, q: Request, documents: seq<DocumentRow>, memories: seq<MemoryRow>, fewer: nat)
    requires fewer <= q.maxResults
    ensures Lane(t, q.(maxResults := fewer), documents, memories) <= Lane(t, q, documents, memories)
  {
    hide Sorted;
    hide Text.Strip;
    DocumentScanIgnoresLimit(t, q, documents, fewer);
    MemoryScanIgnoresLimit(t, q, memories, fewer);
  }

  lemma {:induction false} DocumentScanIgnoresLimit(t: Tools, q: Request, rows: seq<DocumentRow>, max: int)
    ensures DocumentHits(t, q.(maxResults := max), rows) == DocumentHits(t, q, rows)
  {
    hide Similarity;
    if rows != [] {
      DocumentScanIgnoresLimit(t, q, rows[..|rows| - 1], max);
    }
  }

  lemma {:induction false} MemoryScanIgnoresLimit(t: Tools, q: Request, rows: seq<MemoryRow>, max: int)
    ensures MemoryHits(t, q.(maxResults := max), rows) == MemoryHits(t, q, rows)
  {
    hide Similarity;
    if rows != [] {
      MemoryScanIgnoresLimit(t, q, rows[..|rows| - 1], max);
    }
  }

  lemma {:induction false} SortedWhenEqual(s: seq<Hit>, score: real)
    requires forall h :: h in s ==> h.score == score
    ensures Sorted(s, AtLeast) == s
  {
    if s != [] {
      SortedWhenEqual(s[1..], score);
    }
  }

  /** Hits with equal scores keep the order in which the scan met them. */
  lemma TiesKeepScanOrder(scored: seq<Hit>, score: real)
    ensures Filter(Sorted(scored, AtLeast), Scores(score)) == Filter(scored, Scores(score))
  {
    AtLeastIsTotal();
    FilterSorted(scored, AtLeast, Scores(score));
    forall h ensures h in Filter(scored, Scores(score)) <==> h in scored && h.score == score {
      FilterMembership(scored, Scores(score), h);
    }
    SortedWhenEqual(Filter(scored, Scores(score)), score);
  }

  function Scores(score: real): Hit -> bool {
    (h: Hit) => h.score == score
  }

  lemma DocumentsAreDocuments(t: Tools, q: Request, rows: seq<DocumentRow>, h: Hit)
    requires h in DocumentHits(t, q, rows)
    ensures h.candidate.canonicalType == "document"
  {
    DocumentHitsAre(t, q, rows, h);
    hide DocumentHits;
    hide Similarity;
  }

  lemma MemoriesAreMemories(t: Tools, q: Request, rows: seq<MemoryRow>, h: Hit)
    requires h in MemoryHits(t, q, rows)
    ensures h.candidate.canonicalType == "memory"
  {
    MemoryHitsAre(t, q, rows, h);
    hide MemoryHits;
    hide Similarity;
  }

  /** Among the tied hits of a scan every document comes before every memory. */
  lemma TiedDocumentsAreScannedFirst(t: Tools, q: Request, documents: seq<DocumentRow>, memories: seq<MemoryRow>,
                                     score: real, a: nat, b: nat)
    requires var tied := Filter(Scored(t, q, documents, memories), Scores(score));
             a < b < |tied| && tied[b].candidate.canonicalType == "document"
    ensures Filter(Scored(t, q, documents, memories), Scores(score))[a].candidate.canonicalType == "document"
  {
    hide DocumentHits;
    hide MemoryHits;
    var scored := Scored(t, q, documents, memories);
    var d, m := Filter(DocumentHits(t, q, documents), Scores(score)), Filter(MemoryHits(t, q, memories), Scores(score));
    FilterAppend(DocumentHits(t, q, documents), MemoryHits(t, q, memories), Scores(score));
    var tied := Filter(scored, Scores(score));
    assert tied == d + m;
    if b >= |d| {
      assert tied[b] in m;
      FilterMembership(MemoryHits(t, q, memories), Scores(score), tied[b]);
      MemoriesAreMemories(t, q, memories, tied[b]);
      assert false;
    }
    assert tied[a] in d;
    FilterMembership(DocumentHits(t, q, documents), Scores(score), tied[a]);
    DocumentsAreDocuments(t, q, documents, tied[a]);
  }

  /** Of two equal scores in the lane a document never stands behind a memory. */
  lemma TiedDocumentsComeFirst(t: Tools, q: Request, documents: seq<DocumentRow>, memories: seq<MemoryRow>, i: nat,
                               j: nat)
    requires var lane := Lane(t, q, documents, memories);
             i < j < |lane| && lane[i].score == lane[j].score && lane[j].candidate.canonicalType == "document"
    ensures Lane(t, q, documents, memories)[i].candidate.canonicalType == "document"
  {
    var scored := Scored(t, q, documents, memories);
    var sorted, score := Sorted(scored, AtLeast), Lane(t, q, documents, memories)[i].score;
    LaneIsCutFromSorted(t, q, documents, memories, i);
    LaneIsCutFromSorted(t, q, documents, memories, j);
    hide *;
    assert sorted[i].score == score && sorted[j].score == score;
    assert Scores(score)(sorted[i]) && Scores(score)(sorted[j]) by { ScoresIs(score, sorted[i], sorted[j]); }
    var a, b := FilterKeepsOrder(sorted, Scores(score), i, j);
    TiesKeepScanOrder(scored, score);
    TiedDocumentsAreScannedFirst(t, q, documents, memories, score, a, b);
  }

  lemma ScoresIs(score: real, h: Hit, k: Hit)
    requires h.score == score && k.score == score
    ensures Scores(score)(h) && Scores(score)(k)
  {
  }

  lemma LaneIsCutFromSorted(t: Tools, q: Request, documents: seq<DocumentRow>, memories: seq<MemoryRow>, i: nat)
    requires i < |Lane(t, q, documents, memories)|
    ensures var sorted, hit := Sorted(Scored(t, q, documents, memories), AtLeast), Lane(t, q, documents, memories)[i];
            i < |sorted| && hit.score == sorted[i].score
            && hit.candidate.canonicalType == sorted[i].candidate.canonicalType
  {
    hide Sorted;
    hide Scored;
    hide Text.Strip;
  }

  /** A revision whose tokens are the query's in any order scores 1, above every other, unless they cancel out. */
  lemma SameTokensScoreHighest(t: Tools, query: string, text: string, other: string)
    requires Embedding.SquareRoot(t.root, Embedding.SumSq(Embedding.Raw(t.digest, DIMS, t.tokenize(Text.Strip(query)))))
    requires Embedding.SquareRoot(t.root, Embedding.SumSq(Embedding.Raw(t.digest, DIMS, t.tokenize(other))))
    requires multiset(t.tokenize(text)) == multiset(t.tokenize(Text.Strip(query)))
    requires !Embedding.IsZero(Embedding.Raw(t.digest, DIMS, t.tokenize(text)))
    ensures -1.0 <= Similarity(t, query, other) <= Similarity(t, query, text) == 1.0
  {
    var a, b := t.tokenize(Text.Strip(query)), t.tokenize(text);
    Embedding.CosineIsBounded(t.digest, DIMS, a, t.tokenize(other), t.root);
    forall i | 0 <= i < DIMS
      ensures Embedding.Coordinate(t.digest, DIMS, a, i) == Embedding.Coordinate(t.digest, DIMS, b, i)
    {
      Embedding.CoordinateIgnoresOrder(t.digest, DIMS, a, b, i);
    }
    assert Embedding.Raw(t.digest, DIMS, a) == Embedding.Raw(t.digest, DIMS, b);
    Embedding.SelfCosineIff(t.digest, DIMS, a, b, t.root);
  }
}
