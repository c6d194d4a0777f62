/** Weighted reciprocal-rank fusion over retrieval lanes, and the private-space filter behind it. */
module Retrieval {
  import opened Wrappers
  import opened Ordering

  type Uuid = nat

  datatype Lane = TemporalExact | Exact | OssSemantic | Tex | Graph

  const RRF_K := 60
  const LANE_WEIGHTS: map<Lane, real> :=
    map[TemporalExact := 2.0, Exact := 1.5, OssSemantic := 1.0, Tex := 1.0, Graph := 0.8]

  datatype Candidate = Candidate(
    id: string, canonicalType: string, canonicalId: Uuid, revisionId: Uuid, spaceId: Uuid,
    rank: int, locator: Option<string>, snippet: Option<string>)

  datatype Fused = Fused(
    id: string, canonicalType: string, canonicalId: Uuid, revisionId: Uuid, spaceId: Uuid,
    score: real, lanes: seq<Lane>, locator: Option<string>, snippet: Option<string>)

  /** `lane_results.items()`: a dictionary's entries in iteration order. */
  type LaneResults = seq<(Lane, seq<Candidate>)>

  /** One candidate at its place in one lane. */
  datatype Occurrence = Occurrence(lane: Lane, candidate: Candidate)

  datatype FusionError = ZeroDivision

  // ---- the specification: occurrences, scores, order ----

  function LaneOccurrences(lane: Lane, cs: seq<Candidate>): (r: seq<Occurrence>)
    ensures |r| == |cs|
  {
    seq(|cs|, i requires 0 <= i < |cs| => Occurrence(lane, cs[i]))
  }

  function Occurrences(lanes: LaneResults): seq<Occurrence> {
    if lanes == [] then []
    else Occurrences(lanes[..|lanes| - 1]) + LaneOccurrences(lanes[|lanes| - 1].0, lanes[|lanes| - 1].1)
  }

  function ActiveWeights(weights: Option<map<Lane, real>>): map<Lane, real> {
    if weights.Some? && weights.value != map[] then weights.value else LANE_WEIGHTS
  }

  function WeightOf(weights: map<Lane, real>, lane: Lane): real {
    if lane in weights then weights[lane] else 1.0
  }

  datatype Params = Params(k: int, weights: map<Lane, real>)

  predicate Divides(p: Params, o: Occurrence) {
    p.k + o.candidate.rank != 0
  }

  ghost predicate AllDivide(p: Params, occ: seq<Occurrence>) {
    forall o :: o in occ ==> Divides(p, o)
  }

  /** `rrf_contribution`. */
  function Contribution(p: Params, o: Occurrence): real {
    if Divides(p, o) then WeightOf(p.weights, o.lane) / (p.k + o.candidate.rank) as real else 0.0
  }

  /** The sum of the contributions of every occurrence of an id. */
  function Score(p: Params, occ: seq<Occurrence>, id: string): real {
    if occ == [] then 0.0
    else
      var init, o := occ[..|occ| - 1], occ[|occ| - 1];
      Score(p, init, id) + if o.candidate.id == id then Contribution(p, o) else 0.0
  }

  function HasId(id: string): Occurrence -> bool {
    (o: Occurrence) => o.candidate.id == id
  }

  ghost function IdsOf(occ: seq<Occurrence>): set<string> {
    set o | o in occ :: o.candidate.id
  }

  predicate Truthy(s: Option<string>) {
    s.Some? && s.value != ""
  }

  function NewFused(p: Params, o: Occurrence): Fused {
    var c := o.candidate;
    Fused(c.id, c.canonicalType, c.canonicalId, c.revisionId, c.spaceId, Contribution(p, o), [o.lane], c.locator,
        c.snippet)
  }

  function Merged(p: Params, f: Fused, o: Occurrence): Fused {
    f.(score := f.score + Contribution(p, o),
       lanes := f.lanes + [o.lane],
       locator := if f.locator == None && Truthy(o.candidate.locator) then o.candidate.locator else f.locator,
       snippet := if f.snippet == None && Truthy(o.candidate.snippet) then o.candidate.snippet else f.snippet)
  }

  /** The entry one id ends up with: its own occurrences, merged in order. */
  function Entry(p: Params, own: seq<Occurrence>): Fused
    requires own != []
  {
    if |own| == 1 then NewFused(p, own[0]) else Merged(p, Entry(p, own[..|own| - 1]), own[|own| - 1])
  }

  /** Ids in the order a dictionary first sees them. */
  function FirstSeen(occ: seq<Occurrence>): seq<string> {
    if occ == [] then []
    else
      var init, o := occ[..|occ| - 1], occ[|occ| - 1];
      if o.candidate.id in FirstSeen(init) then FirstSeen(init) else FirstSeen(init) + [o.candidate.id]
  }

  predicate Before(a: Fused, b: Fused) {
    a.score > b.score || (a.score == b.score && StringLess(a.id, b.id))
  }

  predicate NotAfter(a: Fused, b: Fused) {
    a.score > b.score || (a.score == b.score && !StringLess(b.id, a.id))
  }

  function EntriesInOrder(p: Params, occ: seq<Occurrence>, ids: seq<string>): (r: seq<Fused>)
    requires forall id :: id in ids ==> Filter(occ, HasId(id)) != []
    ensures |r| == |ids|
  {
    seq(|ids|, i requires 0 <= i < |ids| => Entry(p, Filter(occ, HasId(ids[i]))))
  }

  /** The fused list of a sequence of occurrences. */
  function Fuse(p: Params, occ: seq<Occurrence>): seq<Fused> {
    FirstSeenIds(occ);
    Sorted(EntriesInOrder(p, occ, FirstSeen(occ)), NotAfter)
  }

  lemma OwnOccurrences(occ: seq<Occurrence>, id: string)
    ensures Filter(occ, HasId(id)) != [] <==> id in IdsOf(occ)
    ensures forall o :: o in Filter(occ, HasId(id)) <==> o in occ && o.candidate.id == id
  {
    var own := Filter(occ, HasId(id));
    forall o ensures o in own <==> o in occ && o.candidate.id == id { FilterMembership(occ, HasId(id), o); }
    NonemptyHasElement(own);
  }

  lemma {:induction false} FirstSeenIds(occ: seq<Occurrence>)
    ensures forall id :: id in FirstSeen(occ) <==> id in IdsOf(occ)
    ensures forall i, j :: 0 <= i < j < |FirstSeen(occ)| ==> FirstSeen(occ)[i] != FirstSeen(occ)[j]
    ensures forall id :: id in FirstSeen(occ) ==> Filter(occ, HasId(id)) != []
  {
    if occ != [] {
      var n := |occ| - 1;
      FirstSeenIds(occ[..n]);
      assert occ == occ[..n] + [occ[n]];
    }
    forall id ensures id in IdsOf(occ) ==> Filter(occ, HasId(id)) != [] { OwnOccurrences(occ, id); }
  }

  // ---- the loop ----

  /** The dictionary after some occurrences: one merged entry per id, keys in first-seen order. */
  ghost predicate Accumulates(scores: map<string, Fused>, keys: seq<string>, p: Params, occ: seq<Occurrence>) {
    && keys == FirstSeen(occ)
    && (forall id :: id in scores <==> id in keys)
    && (forall id :: id in scores ==> Filter(occ, HasId(id)) != [] && scores[id] == Entry(p, Filter(occ, HasId(id))))
  }

  lemma OwnSnoc(occ: seq<Occurrence>, o: Occurrence)
    ensures forall x: string :: Filter(occ + [o], HasId(x)) ==
              if x == o.candidate.id then Filter(occ, HasId(x)) + [o] else Filter(occ, HasId(x))
  {
    forall x: string
      ensures Filter(occ + [o], HasId(x))
           == if x == o.candidate.id then Filter(occ, HasId(x)) + [o] else Filter(occ, HasId(x))
    {
      FilterSnoc(occ, o, HasId(x));
    }
  }

  lemma AccumulateMore(scores: map<string, Fused>, keys: seq<string>, p: Params, occ: seq<Occurrence>, o: Occurrence)
    requires Accumulates(scores, keys, p, occ) && o.candidate.id in scores
    ensures var id := o.candidate.id;
            Accumulates(scores[id := Merged(p, scores[id], o)], keys, p, occ + [o])
  {
    hide Entry;
    hide Filter;
    hide Merged;
    assert (occ + [o])[..|occ|] == occ;
    OwnSnoc(occ, o);
    EntrySnoc(p, Filter(occ, HasId(o.candidate.id)), o);
  }

  lemma AccumulateNew(scores: map<string, Fused>, keys: seq<string>, p: Params, occ: seq<Occurrence>, o: Occurrence)
    requires Accumulates(scores, keys, p, occ) && o.candidate.id !in scores
    ensures var id := o.candidate.id;
            Accumulates(scores[id := NewFused(p, o)], keys + [id], p, occ + [o])
  {
    hide Entry;
    hide Filter;
    hide NewFused;
    FirstSeenSnoc(occ, o);
    hide FirstSeen;
    OwnSnoc(occ, o);
    NoneOfNew(occ, o.candidate.id);
    hide IdsOf;
    EntryOne(p, o);
  }

  lemma FirstSeenSnoc(occ: seq<Occurrence>, o: Occurrence)
    ensures FirstSeen(occ + [o])
         == if o.candidate.id in FirstSeen(occ) then FirstSeen(occ) else FirstSeen(occ) + [o.candidate.id]
  {
    assert (occ + [o])[..|occ|] == occ;
  }

  lemma NoneOfNew(occ: seq<Occurrence>, id: string)
    requires id !in FirstSeen(occ)
    ensures Filter(occ, HasId(id)) == []
  {
    hide *;
    FirstSeenIds(occ);
    OwnOccurrences(occ, id);
  }

  lemma EntrySnoc(p: Params, own: seq<Occurrence>, o: Occurrence)
    requires own != []
    ensures Entry(p, own + [o]) == Merged(p, Entry(p, own), o)
  {
    assert (own + [o])[..|own|] == own;
  }

  lemma EntryOne(p: Params, o: Occurrence)
    ensures Entry(p, [] + [o]) == NewFused(p, o)
  {
  }

  /** The body of the inner loop: a new entry, or one more contribution to an existing one. */
  method Accumulate(scores: map<string, Fused>, keys: seq<string>, k: int, lane: Lane, weight: real,
                    candidate: Candidate, ghost p: Params, ghost occ: seq<Occurrence>)
    returns (scores': map<string, Fused>, keys': seq<string>)
    requires Accumulates(scores, keys, p, occ)
    requires p.k == k && weight == WeightOf(p.weights, lane) && k + candidate.rank != 0
    ensures Accumulates(scores', keys', p, occ + [Occurrence(lane, candidate)])
  {
    scores', keys' := scores, keys;
    ghost var o := Occurrence(lane, candidate);
    var contrib := weight / (k + candidate.rank) as real;
    assert contrib == Contribution(p, o);
    if candidate.id !in scores {
      AccumulateNew(scores, keys, p, occ, o);
      hide Accumulates;
      keys' := keys + [candidate.id];
      scores' := scores[candidate.id := Fused(
        candidate.id, candidate.canonicalType, candidate.canonicalId, candidate.revisionId, candidate.spaceId,
        contrib, [lane], candidate.locator, candidate.snippet)];
    } else {
      AccumulateMore(scores, keys, p, occ, o);
      hide Accumulates;
      var existing := scores[candidate.id];
      existing := existing.(score := existing.score + contrib, lanes := existing.lanes + [lane]);
      if existing.locator == None && Truthy(candidate.locator) {
        existing := existing.(locator := candidate.locator);
      }
      if existing.snippet == None && Truthy(candidate.snippet) {
        existing := existing.(snippet := candidate.snippet);
      }
      scores' := scores[candidate.id := existing];
    }
  }

  lemma KeysInScores(scores: map<string, Fused>, keys: seq<string>, p: Params, occ: seq<Occurrence>)
    requires Accumulates(scores, keys, p, occ)
    ensures forall i :: 0 <= i < |keys| ==> keys[i] in scores
  {
  }

  /** The sorted values of the finished dictionary are the fused list. */
  lemma ValuesInOrder(scores: map<string, Fused>, keys: seq<string>, p: Params, occ: seq<Occurrence>,
                      values: seq<Fused>)
    requires Accumulates(scores, keys, p, occ)
    requires |values| == |keys| && forall i :: 0 <= i < |keys| ==> keys[i] in scores && values[i] == scores[keys[i]]
    ensures Sorted(values, NotAfter) == Fuse(p, occ)
  {
    FirstSeenIds(occ);
    assert values == EntriesInOrder(p, occ, FirstSeen(occ));
  }

  /** `fuse_candidates`: two nested loops over a dictionary, then one sort. */
  method FuseCandidates(lanes: LaneResults, k: int := RRF_K, weights: Option<map<Lane, real>> := None)
    returns (r: Result<seq<Fused>, FusionError>)
    ensures var p, occ := Params(k, ActiveWeights(weights)), Occurrences(lanes);
            if AllDivide(p, occ) then r == Success(Fuse(p, occ)) else r == Failure(ZeroDivision)
  {
    var active := ActiveWeights(weights);
    ghost var p := Params(k, active);
    var scores: map<string, Fused> := map[];
    var keys: seq<string> := [];
    ghost var occ: seq<Occurrence> := [];
    assert Accumulates(scores, keys, p, occ) && AllDivide(p, occ);
    hide Accumulates;
    hide AllDivide;
    hide Fuse;
    assert Occurrences(lanes[..0]) == [];
    hide Occurrences;
    hide LaneOccurrences;
    for i := 0 to |lanes|
      invariant occ == Occurrences(lanes[..i])
      invariant AllDivide(p, occ)
      invariant Accumulates(scores, keys, p, occ)
    {
      var lane, candidates := lanes[i].0, lanes[i].1;
      var weight := if lane in active then active[lane] else 1.0;
      ghost var start := occ;
      OccurrencesSnoc(lanes, i);
      for j := 0 to |candidates|
        invariant occ == start + LaneOccurrences(lane, candidates)[..j]
        invariant AllDivide(p, occ)
        invariant Accumulates(scores, keys, p, occ)
      {
        var candidate := candidates[j];
        ghost var o := Occurrence(lane, candidate);
        if k + candidate.rank == 0 {
          ZeroDivides(p, lanes, i, j);
          return Failure(ZeroDivision);
        }
        scores, keys := Accumulate(scores, keys, k, lane, weight, candidate, p, occ);
        AllDivideSnoc(p, occ, o);
        LaneOccurrencesStep(start, lane, candidates, j);
        occ := occ + [o];
      }
      assert LaneOccurrences(lane, candidates)[..|candidates|] == LaneOccurrences(lane, candidates);
    }
    assert lanes[..|lanes|] == lanes;
    KeysInScores(scores, keys, p, occ);
    var values := seq(|keys|, i requires 0 <= i < |keys| && keys[i] in scores => scores[keys[i]]);
    ValuesInOrder(scores, keys, p, occ, values);
    return Success(Sorted(values, NotAfter));
  }

  lemma LaneOccurrencesStep(start: seq<Occurrence>, lane: Lane, cs: seq<Candidate>, j: nat)
    requires j < |cs|
    ensures start + LaneOccurrences(lane, cs)[..j + 1]
            == start + LaneOccurrences(lane, cs)[..j] + [Occurrence(lane, cs[j])]
  {
    assert LaneOccurrences(lane, cs)[..j + 1] == LaneOccurrences(lane, cs)[..j] + [Occurrence(lane, cs[j])];
  }

  lemma OccurrencesSnoc(lanes: LaneResults, i: nat)
    requires i < |lanes|
    ensures Occurrences(lanes[..i + 1]) == Occurrences(lanes[..i]) + LaneOccurrences(lanes[i].0, lanes[i].1)
  {
    assert lanes[..i + 1][..i] == lanes[..i];
  }

  lemma {:induction false} OccurrenceIn(lanes: LaneResults, i: nat, j: nat)
    requires i < |lanes| && j < |lanes[i].1|
    ensures Occurrence(lanes[i].0, lanes[i].1[j]) in Occurrences(lanes)
  {
    var n := |lanes| - 1;
    if i < n {
      OccurrenceIn(lanes[..n], i, j);
    } else {
      assert LaneOccurrences(lanes[n].0, lanes[n].1)[j] == Occurrence(lanes[i].0, lanes[i].1[j]);
    }
  }

  lemma ZeroDivides(p: Params, lanes: LaneResults, i: nat, j: nat)
    requires i < |lanes| && j < |lanes[i].1| && p.k + lanes[i].1[j].rank == 0
    ensures !AllDivide(p, Occurrences(lanes))
  {
    OccurrenceIn(lanes, i, j);
  }

  lemma AllDivideSnoc(p: Params, occ: seq<Occurrence>, o: Occurrence)
    requires AllDivide(p, occ) && Divides(p, o)
    ensures AllDivide(p, occ + [o])
  {
  }

  // ---- fusion meets its specification ----

  lemma {:induction false} EntryOfOwn(p: Params, own: seq<Occurrence>, id: string)
    requires own != [] && forall o :: o in own ==> o.candidate.id == id
    ensures var e := Entry(p, own);
            e.id == id && e.score == Score(p, own, id) && |e.lanes| == |own| && e.spaceId == own[0].candidate.spaceId
  {
    var n := |own| - 1;
    if n == 0 {
      assert own[..0] == [];
    } else {
      EntryOfOwn(p, own[..n], id);
    }
  }

  lemma {:induction false} ScoreOfOwn(p: Params, occ: seq<Occurrence>, id: string)
    ensures Score(p, Filter(occ, HasId(id)), id) == Score(p, occ, id)
  {
    if occ != [] {
      hide *;
      var n := |occ| - 1;
      var own := Filter(occ[..n], HasId(id));
      ScoreOfOwn(p, occ[..n], id);
      assert occ == occ[..n] + [occ[n]];
      OwnSnoc(occ[..n], occ[n]);
      ScoreSplits(p, occ[..n], [occ[n]], id);
      ScoreSplits(p, own, [occ[n]], id);
      ScoreOfOne(p, occ[n], id);
    }
  }

  lemma OrderIsTotal()
    ensures TotalPreorder(NotAfter)
  {
    forall x, y ensures NotAfter(x, y) || NotAfter(y, x) {
      StringLessAsymmetric(x.id, y.id);
    }
    forall x, y, z | NotAfter(x, y) && NotAfter(y, z) ensures NotAfter(x, z) {
      StringLessTotal(y.id, x.id);
      StringLessTotal(z.id, y.id);
      if x.score == z.score && StringLess(z.id, x.id) {
        StringLessTransitive(y.id, z.id, x.id);
      }
    }
  }

  /** The members of the fused list: one merged entry per id. */
  lemma FusedMembership(p: Params, occ: seq<Occurrence>, f: Fused)
    ensures f in Fuse(p, occ)
            <==> f.id in IdsOf(occ) && Filter(occ, HasId(f.id)) != [] && f == Entry(p, Filter(occ, HasId(f.id)))
  {
    hide Entry;
    OrderIsTotal();
    FirstSeenIds(occ);
    var ids := FirstSeen(occ);
    var es := EntriesInOrder(p, occ, ids);
    SortedKeepsElements(es, NotAfter);
    if f in es {
      var i :| 0 <= i < |es| && es[i] == f;
      OwnOccurrences(occ, ids[i]);
      EntryOfOwn(p, Filter(occ, HasId(ids[i])), ids[i]);
    }
    if f.id in IdsOf(occ) && f == Entry(p, Filter(occ, HasId(f.id))) {
      var i :| 0 <= i < |ids| && ids[i] == f.id;
      assert es[i] == f;
    }
  }

  // ---- main results on fusion ----

  ghost function OutputIds(out: seq<Fused>): set<string> {
    set f | f in out :: f.id
  }

  /** Exactly the input ids, once each, strictly by descending score and then id, each with its full sum. */
  lemma FusionMeetsSpec(p: Params, occ: seq<Occurrence>)
    ensures var out := Fuse(p, occ);
            && OutputIds(out) == IdsOf(occ)
            && SortedBy(out, Before)
            && (forall i, j :: 0 <= i < j < |out| ==> out[i].id != out[j].id)
            && (forall f :: f in out ==> f.score == Score(p, occ, f.id))
  {
    var out := Fuse(p, occ);
    forall f | f in out ensures f.id in IdsOf(occ) && f.score == Score(p, occ, f.id) {
      FusedEntry(p, occ, f);
    }
    forall id | id in IdsOf(occ) ensures id in OutputIds(out) {
      FusedHasId(p, occ, id);
    }
    FusedIdsDistinct(p, occ);
    OrderIsTotal();
    FirstSeenIds(occ);
    SortedIsSortedPermutation(EntriesInOrder(p, occ, FirstSeen(occ)), NotAfter);
    forall i, j | 0 <= i < j < |out| ensures Before(out[i], out[j]) {
      assert NotAfter(out[i], out[j]) && out[i].id != out[j].id;
      StringLessTotal(out[i].id, out[j].id);
    }
  }

  lemma FusedEntry(p: Params, occ: seq<Occurrence>, f: Fused)
    requires f in Fuse(p, occ)
    ensures f.id in IdsOf(occ) && f.score == Score(p, occ, f.id)
  {
    hide Fuse;
    FusedMembership(p, occ, f);
    OwnOccurrences(occ, f.id);
    EntryOfOwn(p, Filter(occ, HasId(f.id)), f.id);
    ScoreOfOwn(p, occ, f.id);
  }

  lemma FusedHasId(p: Params, occ: seq<Occurrence>, id: string)
    requires id in IdsOf(occ)
    ensures Filter(occ, HasId(id)) != [] && Entry(p, Filter(occ, HasId(id))) in Fuse(p, occ)
    ensures id in OutputIds(Fuse(p, occ))
  {
    hide Fuse;
    OwnOccurrences(occ, id);
    EntryOfOwn(p, Filter(occ, HasId(id)), id);
    FusedMembership(p, occ, Entry(p, Filter(occ, HasId(id))));
  }

  // ---- what one fused candidate carries ----

  /** The lanes of some occurrences, in order. */
  ghost function LanesOf(own: seq<Occurrence>): (r: seq<Lane>)
    ensures |r| == |own|
  {
    seq(|own|, i requires 0 <= i < |own| => own[i].lane)
  }

  /**
   * A text that is taken from the first occurrence, as it is, and only when that one has none from the first
   * later occurrence that has a nonempty one.
   */
  ghost predicate FirstText(texts: seq<Option<string>>, text: Option<string>) {
    && texts != []
    && (texts[0].Some? ==> text == texts[0])
    && (texts[0] == None && text == None ==> forall i :: 0 < i < |texts| ==> texts[i] in {None, Some("")})
    && (texts[0] == None && text.Some? ==>
          exists i :: 0 < i < |texts| && texts[i] == text && text != Some("")
                   && forall j :: 0 < j < i ==> texts[j] in {None, Some("")})
  }

  ghost function Locators(own: seq<Occurrence>): (r: seq<Option<string>>)
    ensures |r| == |own|
  {
    seq(|own|, i requires 0 <= i < |own| => own[i].candidate.locator)
  }

  ghost function Snippets(own: seq<Occurrence>): (r: seq<Option<string>>)
    ensures |r| == |own|
  {
    seq(|own|, i requires 0 <= i < |own| => own[i].candidate.snippet)
  }

  lemma FirstTextSnoc(texts: seq<Option<string>>, text: Option<string>, next: Option<string>)
    requires FirstText(texts, text)
    ensures FirstText(texts + [next], if text == None && Truthy(next) then next else text)
  {
    var all := texts + [next];
    assert forall j :: 0 <= j < |texts| ==> all[j] == texts[j];
    if texts[0] == None && text.Some? {
      var i :| 0 < i < |texts| && texts[i] == text && text != Some("")
               && forall j :: 0 < j < i ==> texts[j] in {None, Some("")};
      assert all[i] == text;
    } else if texts[0] == None && Truthy(next) {
      assert all[|texts|] == next;
    }
  }

  /** What the entry of an id's occurrences says besides its score. */
  ghost predicate Describes(f: Fused, own: seq<Occurrence>) {
    && own != []
    && var first := own[0].candidate;
    && f.id == first.id && f.canonicalType == first.canonicalType && f.canonicalId == first.canonicalId
    && f.revisionId == first.revisionId && f.spaceId == first.spaceId
    && f.lanes == LanesOf(own) && FirstText(Locators(own), f.locator) && FirstText(Snippets(own), f.snippet)
  }

  lemma DescribesSnoc(p: Params, f: Fused, own: seq<Occurrence>, o: Occurrence)
    requires Describes(f, own)
    ensures Describes(Merged(p, f, o), own + [o])
  {
    FirstTextSnoc(Locators(own), f.locator, o.candidate.locator);
    FirstTextSnoc(Snippets(own), f.snippet, o.candidate.snippet);
    assert Locators(own + [o]) == Locators(own) + [o.candidate.locator];
    assert Snippets(own + [o]) == Snippets(own) + [o.candidate.snippet];
    assert LanesOf(own + [o]) == LanesOf(own) + [o.lane];
    hide FirstText;
    hide Contribution;
  }

  lemma {:induction false} EntryDescribes(p: Params, own: seq<Occurrence>)
    requires own != []
    ensures Describes(Entry(p, own), own)
  {
    var n := |own| - 1;
    if n > 0 {
      EntryDescribes(p, own[..n]);
      assert own == own[..n] + [own[n]];
      hide Describes;
      DescribesSnoc(p, Entry(p, own[..n]), own[..n], own[n]);
    } else {
      hide Contribution;
    }
  }

  /** A fused candidate's identity comes from its first occurrence, its lanes and texts from all of them in order. */
  lemma FusedDescribesItsOccurrences(p: Params, occ: seq<Occurrence>, f: Fused)
    requires f in Fuse(p, occ)
    ensures Describes(f, Filter(occ, HasId(f.id)))
  {
    hide Fuse;
    FusedMembership(p, occ, f);
    EntryDescribes(p, Filter(occ, HasId(f.id)));
  }

  // ---- lane weights ----

  /** A contribution times its denominator is the lane's own weight, or 1 for a lane without one. */
  lemma ContributionIsWeighted(p: Params, o: Occurrence)
    requires p.k + o.candidate.rank != 0
    ensures Contribution(p, o) * (p.k + o.candidate.rank) as real
         == if o.lane in p.weights then p.weights[o.lane] else 1.0
  {
    var w, d := if o.lane in p.weights then p.weights[o.lane] else 1.0, (p.k + o.candidate.rank) as real;
    assert Contribution(p, o) == w / d;
    hide *;
    QuotientTimes(w, d);
  }

  lemma QuotientTimes(w: real, d: real)
    requires d != 0.0
    ensures (w / d) * d == w
  {
  }

  lemma LightDividesLess(w: real, v: real, d: real)
    requires w < v && d > 0.0
    ensures w / d < v / d
  {
    var x, y := w / d, v / d;
    QuotientTimes(w, d);
    QuotientTimes(v, d);
    if x >= y {
      MulMonotone(d, y, x);
    }
  }

  /** An id that occurs once scores its one contribution. */
  lemma LoneScore(p: Params, occ: seq<Occurrence>, o: Occurrence)
    requires Filter(occ, HasId(o.candidate.id)) == [o]
    ensures Score(p, occ, o.candidate.id) == Contribution(p, o)
  {
    hide Contribution;
    ScoreOfOwn(p, occ, o.candidate.id);
    ScoreOfOne(p, o, o.candidate.id);
  }

  /** Of two candidates that occur once, at equal ranks, the one from the heavier lane comes first. */
  lemma HeavierLaneComesFirst(p: Params, occ: seq<Occurrence>, heavy: Occurrence, light: Occurrence, a: nat, b: nat)
    requires Filter(occ, HasId(heavy.candidate.id)) == [heavy] && Filter(occ, HasId(light.candidate.id)) == [light]
    requires heavy.candidate.rank == light.candidate.rank && p.k + light.candidate.rank > 0
    requires heavy.lane in p.weights && light.lane in p.weights && p.weights[light.lane] < p.weights[heavy.lane]
    requires a < |Fuse(p, occ)| && Fuse(p, occ)[a].id == heavy.candidate.id
    requires b < |Fuse(p, occ)| && Fuse(p, occ)[b].id == light.candidate.id
    ensures a < b
  {
    var out := Fuse(p, occ);
    hide Fuse;
    hide Score;
    hide Filter;
    FusionMeetsSpec(p, occ);
    assert forall i, j :: 0 <= i < j < |out| ==> Before(out[i], out[j]);
    assert out[a] in out && out[b] in out;
    LoneScore(p, occ, heavy);
    LoneScore(p, occ, light);
    LightDividesLess(p.weights[light.lane], p.weights[heavy.lane], (p.k + light.candidate.rank) as real);
    assert out[b].score < out[a].score;
  }

  /** Without weights of its own a call ranks exact temporal matches over exact ones, and graph hits last. */
  lemma DefaultWeights(given: Option<map<Lane, real>>)
    requires given == None || given.value == map[]
    ensures var w := ActiveWeights(given);
            && w.Keys == {TemporalExact, Exact, OssSemantic, Tex, Graph}
            && w[Graph] < w[Tex] == w[OssSemantic] < w[Exact] < w[TemporalExact]
            && w[TemporalExact] == 2.0 && w[Exact] == 1.5 && w[OssSemantic] == 1.0 && w[Graph] == 0.8
  {
  }

  lemma FusedIdsDistinct(p: Params, occ: seq<Occurrence>)
    ensures forall i, j :: 0 <= i < j < |Fuse(p, occ)| ==> Fuse(p, occ)[i].id != Fuse(p, occ)[j].id
  {
    hide Entry;
    FirstSeenIds(occ);
    OrderIsTotal();
    var ids := FirstSeen(occ);
    var es := EntriesInOrder(p, occ, ids);
    forall i | 0 <= i < |es| ensures es[i].id == ids[i] {
      OwnOccurrences(occ, ids[i]);
      EntryOfOwn(p, Filter(occ, HasId(ids[i])), ids[i]);
    }
    SortedIsSortedPermutation(es, NotAfter);
    PermutationKeepsDistinctIds(es, Fuse(p, occ));
  }

  lemma PermutationKeepsDistinctIds(s: seq<Fused>, t: seq<Fused>)
    requires multiset(s) == multiset(t)
    requires forall i, j :: 0 <= i < j < |s| ==> s[i].id != s[j].id
    ensures forall i, j :: 0 <= i < j < |t| ==> t[i].id != t[j].id
  {
    forall i, j | 0 <= i < j < |t| ensures t[i].id != t[j].id {
      assert t[i] in multiset(t) && t[j] in multiset(t);
      var a :| 0 <= a < |s| && s[a] == t[i];
      var b :| 0 <= b < |s| && s[b] == t[j];
      AtMostOnce(s, a);
      if t[i] == t[j] {
        AtLeastTwice(t, i, j);
      }
    }
  }

  lemma AtLeastTwice(t: seq<Fused>, i: nat, j: nat)
    requires i < j < |t| && t[i] == t[j]
    ensures multiset(t)[t[i]] >= 2
  {
    assert t == t[..i + 1] + t[i + 1..];
    assert t[i] in t[..i + 1] && t[i] in t[i + 1..] by {
      assert t[..i + 1][i] == t[i] && t[i + 1..][j - i - 1] == t[j];
    }
  }

  lemma AtMostOnce(s: seq<Fused>, a: nat)
    requires a < |s| && forall i, j :: 0 <= i < j < |s| ==> s[i].id != s[j].id
    ensures multiset(s)[s[a]] == 1
  {
    assert s == s[..a] + [s[a]] + s[a + 1..];
    assert s[a] !in s[..a] && s[a] !in s[a + 1..];
  }

  /** The part of the output that lane order must not touch. */
  datatype Ranked = Ranked(id: string, score: real)

  function Ranking(out: seq<Fused>): (r: seq<Ranked>)
    ensures |r| == |out|
  {
    seq(|out|, i requires 0 <= i < |out| => Ranked(out[i].id, out[i].score))
  }

  predicate RankedBefore(a: Ranked, b: Ranked) {
    a.score > b.score || (a.score == b.score && StringLess(a.id, b.id))
  }

  lemma {:induction false} ScoreSplits(p: Params, s: seq<Occurrence>, t: seq<Occurrence>, id: string)
    ensures Score(p, s + t, id) == Score(p, s, id) + Score(p, t, id)
  {
    if t == [] {
      assert s + t == s;
    } else {
      var n := |t| - 1;
      ScoreSplits(p, s, t[..n], id);
      assert (s + t)[..|s + t| - 1] == s + t[..n];
    }
  }

  lemma ScoreOfOne(p: Params, o: Occurrence, id: string)
    ensures Score(p, [o], id) == if o.candidate.id == id then Contribution(p, o) else 0.0
  {
    assert [o][..0] == [];
    assert Score(p, [o][..0], id) == 0.0;
  }

  lemma {:induction false} ScoreIgnoresOrder(p: Params, s: seq<Occurrence>, t: seq<Occurrence>, id: string)
    requires multiset(s) == multiset(t)
    ensures Score(p, s, id) == Score(p, t, id)
    decreases |s|
  {
    if s == [] {
      assert |multiset(t)| == 0;
    } else {
      var n := |s| - 1;
      var o := s[n];
      assert s == s[..n] + [o];
      assert o in multiset(t);
      var i :| 0 <= i < |t| && t[i] == o;
      WithoutOne(s, n, t, i);
      assert s[..n] + s[n + 1..] == s[..n];
      ScoreIgnoresOrder(p, s[..n], t[..i] + t[i + 1..], id);
      ScoreWithoutOne(p, t, i, id);
    }
  }

  lemma ScoreWithoutOne(p: Params, t: seq<Occurrence>, i: nat, id: string)
    requires i < |t|
    ensures Score(p, t, id)
         == Score(p, t[..i] + t[i + 1..], id) + if t[i].candidate.id == id then Contribution(p, t[i]) else 0.0
  {
    hide *;
    ScoreInMiddle(p, t[..i], t[i], t[i + 1..], id);
    assert t == t[..i] + [t[i]] + t[i + 1..];
  }

  lemma ScoreInMiddle(p: Params, a: seq<Occurrence>, o: Occurrence, c: seq<Occurrence>, id: string)
    ensures Score(p, a + [o] + c, id)
         == Score(p, a + c, id) + if o.candidate.id == id then Contribution(p, o) else 0.0
  {
    hide *;
    ScoreSplits(p, a + [o], c, id);
    ScoreSplits(p, a, [o], id);
    ScoreSplits(p, a, c, id);
    ScoreOfOne(p, o, id);
  }

  lemma RankingMembership(p: Params, occ: seq<Occurrence>, r: Ranked)
    ensures r in Ranking(Fuse(p, occ)) <==> r.id in IdsOf(occ) && r.score == Score(p, occ, r.id)
  {
    hide Fuse;
    hide Score;
    FusionMeetsSpec(p, occ);
    var out := Fuse(p, occ);
    if r in Ranking(out) {
      var i :| 0 <= i < |out| && Ranking(out)[i] == r;
      assert out[i] in out;
    }
    if r.id in IdsOf(occ) && r.score == Score(p, occ, r.id) {
      assert r.id in OutputIds(out);
      var f :| f in out && f.id == r.id;
      var i :| 0 <= i < |out| && out[i] == f;
      assert Ranking(out)[i] == r;
    }
  }

  /** The order in which lanes and their candidates are visited does not change ids, scores or ranking. */
  lemma RankingIgnoresOrder(p: Params, s: seq<Occurrence>, t: seq<Occurrence>)
    requires multiset(s) == multiset(t)
    ensures Ranking(Fuse(p, s)) == Ranking(Fuse(p, t))
  {
    hide Fuse;
    hide Score;
    FusionMeetsSpec(p, s);
    FusionMeetsSpec(p, t);
    assert IdsOf(s) == IdsOf(t) by {
      forall o ensures o in s <==> o in t { assert o in multiset(s) <==> o in multiset(t); }
    }
    forall r ensures r in Ranking(Fuse(p, s)) <==> r in Ranking(Fuse(p, t)) {
      RankingMembership(p, s, r);
      RankingMembership(p, t, r);
      ScoreIgnoresOrder(p, s, t, r.id);
    }
    RankedBeforeAsymmetric();
    assert SortedBy(Ranking(Fuse(p, s)), RankedBefore) by { RankingIsSorted(Fuse(p, s)); }
    assert SortedBy(Ranking(Fuse(p, t)), RankedBefore) by { RankingIsSorted(Fuse(p, t)); }
    StrictlySortedUnique(Ranking(Fuse(p, s)), Ranking(Fuse(p, t)), RankedBefore);
  }

  lemma RankingIsSorted(out: seq<Fused>)
    requires SortedBy(out, Before)
    ensures SortedBy(Ranking(out), RankedBefore)
  {
    var r := Ranking(out);
    forall i, j | 0 <= i < j < |r| ensures RankedBefore(r[i], r[j]) {
      assert Before(out[i], out[j]);
    }
  }

  lemma RankedBeforeAsymmetric()
    ensures forall x, y :: RankedBefore(x, y) ==> !RankedBefore(y, x)
  {
    forall x, y | RankedBefore(x, y) ensures !RankedBefore(y, x) { StringLessAsymmetric(x.id, y.id); }
  }

  // ---- improving a rank ----

  /** A better rank under a non-negative weight never contributes less. */
  lemma BetterRankContributesMore(p: Params, o: Occurrence, rank: int)
    requires WeightOf(p.weights, o.lane) >= 0.0
    requires 0 < p.k + rank <= p.k + o.candidate.rank
    ensures Contribution(p, o) <= Contribution(p, Occurrence(o.lane, o.candidate.(rank := rank)))
  {
    DivMonotone(WeightOf(p.weights, o.lane), (p.k + rank) as real, (p.k + o.candidate.rank) as real);
  }

  lemma DivMonotone(w: real, a: real, b: real)
    requires w >= 0.0 && 0.0 < a <= b
    ensures w / b <= w / a
  {
    var x, y := w / a, w / b;
    assert x * a == w && y * b == w;
    MulMonotone(y, a, b);
    if x < y {
      assert x * a < y * a;
    }
  }

  lemma MulMonotone(x: real, a: real, b: real)
    requires x >= 0.0 && a <= b
    ensures x * a <= x * b
  {
  }

  /** Replace the rank of the candidate at position `i`. */
  function WithRank(occ: seq<Occurrence>, i: nat, rank: int): seq<Occurrence>
    requires i < |occ|
  {
    occ[i := Occurrence(occ[i].lane, occ[i].candidate.(rank := rank))]
  }

  lemma ScoreAfterImprovement(p: Params, occ: seq<Occurrence>, i: nat, rank: int, id: string)
    requires i < |occ|
    requires WeightOf(p.weights, occ[i].lane) >= 0.0 && 0 < p.k + rank <= p.k + occ[i].candidate.rank
    ensures var after := Score(p, WithRank(occ, i, rank), id);
            if id == occ[i].candidate.id then after >= Score(p, occ, id) else after == Score(p, occ, id)
  {
    var occ' := WithRank(occ, i, rank);
    BetterRankContributesMore(p, occ[i], rank);
    assert occ == occ[..i] + [occ[i]] + occ[i + 1..];
    assert occ' == occ[..i] + [occ'[i]] + occ[i + 1..];
    ScoreSplits(p, occ[..i] + [occ[i]], occ[i + 1..], id);
    ScoreSplits(p, occ[..i], [occ[i]], id);
    ScoreSplits(p, occ[..i] + [occ'[i]], occ[i + 1..], id);
    ScoreSplits(p, occ[..i], [occ'[i]], id);
    ScoreOfOne(p, occ[i], id);
    ScoreOfOne(p, occ'[i], id);
  }

  /** Improving one candidate's rank in one lane never moves it below a candidate it was above. */
  lemma ImprovementIsMonotone(p: Params, occ: seq<Occurrence>, i: nat, rank: int, a: nat, b: nat, a': nat, b': nat)
    requires i < |occ|
    requires WeightOf(p.weights, occ[i].lane) >= 0.0 && 0 < p.k + rank <= p.k + occ[i].candidate.rank
    requires a < b < |Fuse(p, occ)| && Fuse(p, occ)[a].id == occ[i].candidate.id
    requires var out' := Fuse(p, WithRank(occ, i, rank));
             a' < |out'| && b' < |out'| && out'[a'].id == Fuse(p, occ)[a].id && out'[b'].id == Fuse(p, occ)[b].id
    ensures a' < b'
  {
    hide Fuse;
    hide Score;
    var occ' := WithRank(occ, i, rank);
    var out, out' := Fuse(p, occ), Fuse(p, occ');
    FusionMeetsSpec(p, occ);
    FusionMeetsSpec(p, occ');
    ScoreAfterImprovement(p, occ, i, rank, out[a].id);
    ScoreAfterImprovement(p, occ, i, rank, out[b].id);
    assert out[a] in out && out[b] in out && out'[a'] in out' && out'[b'] in out';
    assert Before(out[a], out[b]);
    assert Before(out'[a'], out'[b']);
    StringLessAsymmetric(out[a].id, out[b].id);
    assert b' < a' ==> Before(out'[b'], out'[a']);
  }

  // ---- the private-space filter ----

  datatype Visibility = General | Private

  const EXTERNAL_READ := "external_read"

  predicate Visible(visibility: map<Uuid, Visibility>, space: Uuid) {
    !(space in visibility && visibility[space] == Private)
  }

  function FusedVisible(visibility: map<Uuid, Visibility>): Fused -> bool {
    (f: Fused) => Visible(visibility, f.spaceId)
  }

  function CandidateVisible(visibility: map<Uuid, Visibility>): Candidate -> bool {
    (c: Candidate) => Visible(visibility, c.spaceId)
  }

  function OccurrenceVisible(visibility: map<Uuid, Visibility>): Occurrence -> bool {
    (o: Occurrence) => Visible(visibility, o.candidate.spaceId)
  }

  /** `exclude_private_spaces`, on fused candidates. */
  method ExcludePrivateSpaces(candidates: seq<Fused>, visibility: map<Uuid, Visibility>, purpose: string)
    returns (kept: seq<Fused>)
    ensures kept == if purpose != EXTERNAL_READ then candidates else Filter(candidates, FusedVisible(visibility))
  {
    if purpose != EXTERNAL_READ {
      return candidates;
    }
    kept := [];
    for i := 0 to |candidates|
      invariant kept == Filter(candidates[..i], FusedVisible(visibility))
    {
      assert candidates[..i + 1] == candidates[..i] + [candidates[i]];
      FilterSnoc(candidates[..i], candidates[i], FusedVisible(visibility));
      var space := candidates[i].spaceId;
      if space in visibility && visibility[space] == Private {
        continue;
      }
      kept := kept + [candidates[i]];
    }
    assert candidates[..|candidates|] == candidates;
  }

  /** The filter keeps exactly the candidates whose space is not known to be private. */
  lemma PrivateCandidatesAreDropped(candidates: seq<Fused>, visibility: map<Uuid, Visibility>, f: Fused)
    ensures f in Filter(candidates, FusedVisible(visibility)) <==>
              f in candidates && !(f.spaceId in visibility && visibility[f.spaceId] == Private)
  {
    FilterMembership(candidates, FusedVisible(visibility), f);
  }

  /** Filter every lane before fusing. */
  function FilterLanes(lanes: LaneResults, visibility: map<Uuid, Visibility>): (r: LaneResults)
    ensures |r| == |lanes|
  {
    seq(|lanes|, i requires 0 <= i < |lanes| => (lanes[i].0, Filter(lanes[i].1, CandidateVisible(visibility))))
  }

  lemma {:induction false} LaneFilters(lane: Lane, cs: seq<Candidate>, visibility: map<Uuid, Visibility>)
    ensures LaneOccurrences(lane, Filter(cs, CandidateVisible(visibility)))
         == Filter(LaneOccurrences(lane, cs), OccurrenceVisible(visibility))
  {
    if cs != [] {
      LaneFilters(lane, cs[1..], visibility);
      assert LaneOccurrences(lane, cs)[1..] == LaneOccurrences(lane, cs[1..]);
      var f := Filter(cs[1..], CandidateVisible(visibility));
      assert LaneOccurrences(lane, [cs[0]] + f) == [Occurrence(lane, cs[0])] + LaneOccurrences(lane, f);
    }
  }

  lemma {:induction false} LanesFilter(lanes: LaneResults, visibility: map<Uuid, Visibility>)
    ensures Occurrences(FilterLanes(lanes, visibility)) == Filter(Occurrences(lanes), OccurrenceVisible(visibility))
  {
    if lanes != [] {
      var n := |lanes| - 1;
      LanesFilter(lanes[..n], visibility);
      assert FilterLanes(lanes, visibility)[..n] == FilterLanes(lanes[..n], visibility);
      LaneFilters(lanes[n].0, lanes[n].1, visibility);
      FilterAppend(Occurrences(lanes[..n]), LaneOccurrences(lanes[n].0, lanes[n].1), OccurrenceVisible(visibility));
    }
  }

  /** Every id is either always visible or always private. */
  ghost predicate IdsFixVisibility(occ: seq<Occurrence>, visibility: map<Uuid, Visibility>) {
    forall o, o' :: o in occ && o' in occ && o.candidate.id == o'.candidate.id ==>
      Visible(visibility, o.candidate.spaceId) == Visible(visibility, o'.candidate.spaceId)
  }

  lemma OwnFiltered(occ: seq<Occurrence>, visibility: map<Uuid, Visibility>, id: string)
    requires IdsFixVisibility(occ, visibility)
    ensures var own, own' := Filter(occ, HasId(id)), Filter(Filter(occ, OccurrenceVisible(visibility)), HasId(id));
            own' == if own != [] && Visible(visibility, own[0].candidate.spaceId) then own else []
  {
    var v := OccurrenceVisible(visibility);
    var own := Filter(occ, HasId(id));
    FilterTwice(occ, v, HasId(id));
    OwnOccurrences(occ, id);
    if own != [] {
      assert own[0] in own;
      if Visible(visibility, own[0].candidate.spaceId) {
        FilterAll(own, v);
      } else {
        FilterNone(own, v);
      }
    }
  }

  lemma FusedSide(p: Params, occ: seq<Occurrence>, visibility: map<Uuid, Visibility>, f: Fused)
    requires IdsFixVisibility(occ, visibility)
    ensures f in Fuse(p, Filter(occ, OccurrenceVisible(visibility)))
            <==> f in Filter(Fuse(p, occ), FusedVisible(visibility))
  {
    hide Fuse;
    hide Filter;
    hide Entry;
    hide IdsFixVisibility;
    var kept := Filter(occ, OccurrenceVisible(visibility));
    FusedMembership(p, occ, f);
    FusedMembership(p, kept, f);
    FilterMembership(Fuse(p, occ), FusedVisible(visibility), f);
    OwnFiltered(occ, visibility, f.id);
    OwnOccurrences(occ, f.id);
    OwnOccurrences(kept, f.id);
    if Filter(occ, HasId(f.id)) != [] {
      EntryOfOwn(p, Filter(occ, HasId(f.id)), f.id);
    }
  }

  lemma {:induction false} FilterKeepsSorted(s: seq<Fused>, q: Fused -> bool)
    requires SortedBy(s, Before)
    ensures SortedBy(Filter(s, q), Before)
  {
    if s != [] {
      FilterKeepsSorted(s[1..], q);
      forall x | x in Filter(s[1..], q) ensures Before(s[0], x) {
        FilterMembership(s[1..], q, x);
        var i :| 0 <= i < |s[1..]| && s[1..][i] == x;
        assert Before(s[0], s[i + 1]);
      }
    }
  }

  lemma BeforeAsymmetric()
    ensures forall x, y :: Before(x, y) ==> !Before(y, x)
  {
    forall x, y | Before(x, y) ensures !Before(y, x) { StringLessAsymmetric(x.id, y.id); }
  }

  lemma FuseThenFilter(p: Params, occ: seq<Occurrence>, visibility: map<Uuid, Visibility>)
    requires IdsFixVisibility(occ, visibility)
    ensures Fuse(p, Filter(occ, OccurrenceVisible(visibility))) == Filter(Fuse(p, occ), FusedVisible(visibility))
  {
    hide Fuse;
    hide Filter;
    var kept := Filter(occ, OccurrenceVisible(visibility));
    var a, b := Fuse(p, kept), Filter(Fuse(p, occ), FusedVisible(visibility));
    FusionMeetsSpec(p, occ);
    FusionMeetsSpec(p, kept);
    FilterKeepsSorted(Fuse(p, occ), FusedVisible(visibility));
    forall f ensures f in a <==> f in b { FusedSide(p, occ, visibility, f); }
    BeforeAsymmetric();
    StrictlySortedUnique(a, b, Before);
  }

  /** If an id occurs both in a visible and in a private space, the two orders differ on it. */
  lemma MixedIdBreaks(p: Params, occ: seq<Occurrence>, visibility: map<Uuid, Visibility>, o: Occurrence, o': Occurrence)
    requires o in occ && o' in occ && o.candidate.id == o'.candidate.id
    requires Visible(visibility, o.candidate.spaceId) && !Visible(visibility, o'.candidate.spaceId)
    ensures Fuse(p, Filter(occ, OccurrenceVisible(visibility))) != Filter(Fuse(p, occ), FusedVisible(visibility))
  {
    hide Fuse;
    hide Entry;
    var v, id := OccurrenceVisible(visibility), o.candidate.id;
    var kept := Filter(occ, v);
    FilterMembership(occ, v, o);
    OwnOccurrences(occ, id);
    OwnOccurrences(kept, id);
    var own, own' := Filter(occ, HasId(id)), Filter(kept, HasId(id));
    assert id in IdsOf(kept);
    FusedHasId(p, kept, id);
    EntryOfOwn(p, own', id);
    EntryOfOwn(p, own, id);
    var f := Entry(p, own');
    FusedMembership(p, occ, f);
    FilterTwice(occ, v, HasId(id));
    FilterShrinks(own, v, o');
    assert |f.lanes| < |own| == |Entry(p, own).lanes|;
    FilterMembership(Fuse(p, occ), FusedVisible(visibility), f);
  }

  /** When nothing raises, the two orders agree iff no id is both visible and private. */
  lemma FusedListsCommuteIff(p: Params, occ: seq<Occurrence>, visibility: map<Uuid, Visibility>)
    ensures Fuse(p, Filter(occ, OccurrenceVisible(visibility))) == Filter(Fuse(p, occ), FusedVisible(visibility))
       <==> IdsFixVisibility(occ, visibility)
  {
    hide Fuse;
    hide Filter;
    if IdsFixVisibility(occ, visibility) {
      FuseThenFilter(p, occ, visibility);
    } else {
      var o, o' :| o in occ && o' in occ && o.candidate.id == o'.candidate.id
                   && Visible(visibility, o.candidate.spaceId) != Visible(visibility, o'.candidate.spaceId);
      if Visible(visibility, o.candidate.spaceId) {
        MixedIdBreaks(p, occ, visibility, o, o');
      } else {
        MixedIdBreaks(p, occ, visibility, o', o);
      }
    }
  }

  /** What `fuse_candidates` answers for these lanes. */
  ghost function FusionOf(p: Params, lanes: LaneResults): Result<seq<Fused>, FusionError> {
    if AllDivide(p, Occurrences(lanes)) then Success(Fuse(p, Occurrences(lanes))) else Failure(ZeroDivision)
  }

  /** The filter behind a call that may have raised. */
  function ThenFilter(r: Result<seq<Fused>, FusionError>, visibility: map<Uuid, Visibility>)
    : Result<seq<Fused>, FusionError>
  {
    match r
    case Success(out) => Success(Filter(out, FusedVisible(visibility)))
    case Failure(e) => Failure(e)
  }

  ghost predicate VisibleRaises(p: Params, occ: seq<Occurrence>, visibility: map<Uuid, Visibility>) {
    exists o :: o in occ && Visible(visibility, o.candidate.spaceId) && !Divides(p, o)
  }

  /** Both orders raise, or neither does and no id is mixed. */
  ghost predicate OrdersAgree(p: Params, occ: seq<Occurrence>, visibility: map<Uuid, Visibility>) {
    VisibleRaises(p, occ, visibility) || (AllDivide(p, occ) && IdsFixVisibility(occ, visibility))
  }

  lemma FilteredDivideIff(p: Params, occ: seq<Occurrence>, visibility: map<Uuid, Visibility>)
    ensures AllDivide(p, Filter(occ, OccurrenceVisible(visibility))) <==> !VisibleRaises(p, occ, visibility)
  {
    hide Filter;
    var kept := Filter(occ, OccurrenceVisible(visibility));
    forall o ensures o in kept <==> o in occ && Visible(visibility, o.candidate.spaceId) {
      FilterMembership(occ, OccurrenceVisible(visibility), o);
    }
  }

  /**
   * Filtering every lane and then fusing answers what fusing and then filtering answers, as exact ordered
   * lists or as the same exception, iff some visible candidate already raises, or none raises and no
   * candidate id occurs in both a visible and a private space.
   */
  lemma FilterCommutesIff(p: Params, lanes: LaneResults, visibility: map<Uuid, Visibility>)
    ensures FusionOf(p, FilterLanes(lanes, visibility)) == ThenFilter(FusionOf(p, lanes), visibility)
       <==> OrdersAgree(p, Occurrences(lanes), visibility)
  {
    var occ := Occurrences(lanes);
    assert AllDivide(p, occ) ==> !VisibleRaises(p, occ, visibility);
    LanesFilter(lanes, visibility);
    FilteredDivideIff(p, occ, visibility);
    hide AllDivide;
    hide Fuse;
    hide Filter;
    hide VisibleRaises;
    hide IdsFixVisibility;
    FusedListsCommuteIff(p, occ, visibility);
  }

  /** A private candidate whose rank cancels `k` makes only one of the two orders raise. */
  lemma PrivateRankCanRaise(k: int, weights: map<Lane, real>)
    requires k > 0
    ensures var p, visibility := Params(k, weights), map[2 := Private];
            var seen := Candidate("a", "document", 0, 0, 1, 1, None, None);
            var hidden := Candidate("b", "document", 0, 0, 2, -k, None, None);
            var lanes := [(Exact, [seen, hidden])];
            && IdsFixVisibility(Occurrences(lanes), visibility)
            && FusionOf(p, FilterLanes(lanes, visibility)).Success? && FusionOf(p, lanes).Failure?
  {
    var p, visibility := Params(k, weights), map[2 := Private];
    var seen := Candidate("a", "document", 0, 0, 1, 1, None, None);
    var hidden := Candidate("b", "document", 0, 0, 2, -k, None, None);
    var lanes := [(Exact, [seen, hidden])];
    hide Fuse;
    hide Filter;
    OneLane(Exact, [seen, hidden]);
    var occ := [Occurrence(Exact, seen), Occurrence(Exact, hidden)];
    assert LaneOccurrences(Exact, [seen, hidden]) == occ;
    LanesFilter(lanes, visibility);
    FilteredDivideIff(p, occ, visibility);
    assert occ[1] in occ && !Divides(p, occ[1]);
    assert forall o :: o in occ && Visible(visibility, o.candidate.spaceId) ==> o == occ[0];
  }

  lemma OneLane(lane: Lane, cs: seq<Candidate>)
    ensures Occurrences([(lane, cs)]) == LaneOccurrences(lane, cs)
  {
    assert [(lane, cs)][..0] == [];
  }
}
