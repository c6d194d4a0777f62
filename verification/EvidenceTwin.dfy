/** The evidence twin: a deterministic replay of learner events into per-concept evidence. */
module EvidenceTwin {
  import opened Wrappers
  import opened Ordering

  type Uuid = nat

  datatype EventType = AttemptStarted | GradeRecorded | ReviewRated | OtherType(name: string)
  datatype Rating = Again | Hard | Good | Easy | UnknownRating

  /** `correct` and `rating` are the two payload keys the replay reads, after its defaults. */
  datatype Event = Event(
    id: Uuid, kind: EventType, concept: Option<Uuid>, occurredAt: int,
    eligible: bool, correct: bool, rating: Rating)

  datatype EvidenceState = Unassessed | Practicing | Demonstrated | DelayedDemonstrated
  datatype RecallState = Current | Due | Lapsed

  datatype Evidence = Evidence(
    state: EvidenceState, recall: RecallState, eligibleGrades: nat, ineligibleHits: nat)

  // ---- the canonical history of an event list ----

  predicate KeyLeq(a: Event, b: Event) {
    a.occurredAt < b.occurredAt || (a.occurredAt == b.occurredAt && a.id <= b.id)
  }

  predicate KeyLess(a: Event, b: Event) {
    a.occurredAt < b.occurredAt || (a.occurredAt == b.occurredAt && a.id < b.id)
  }

  function Ids(s: seq<Event>): set<Uuid> {
    set e | e in s :: e.id
  }

  /** Keep the first record of every id. */
  function FirstById(s: seq<Event>): seq<Event> {
    if s == [] then []
    else
      var init, last := s[..|s| - 1], s[|s| - 1];
      if last.id in Ids(init) then FirstById(init) else FirstById(init) + [last]
  }

  function Canonical(events: seq<Event>): seq<Event> {
    FirstById(Sorted(events, KeyLeq))
  }

  ghost predicate SameElements(a: seq<Event>, b: seq<Event>) {
    forall e :: e in a <==> e in b
  }

  ghost predicate Earliest(e: Event, events: seq<Event>) {
    e in events && forall f :: f in events && f.id == e.id ==> e.occurredAt <= f.occurredAt
  }

  /** No id has two different records tied for its earliest time. */
  ghost predicate EarliestUnambiguous(events: seq<Event>) {
    forall e, f :: Earliest(e, events) && Earliest(f, events) && e.id == f.id ==> e == f
  }

  /** What a primary key gives: one record per id. */
  ghost predicate OneRecordPerId(events: seq<Event>) {
    forall e, f :: e in events && f in events && e.id == f.id ==> e == f
  }

  lemma KeysArePreordered()
    ensures TotalPreorder(KeyLeq)
  {
  }

  lemma FirstByIdSnoc(s: seq<Event>, x: Event)
    requires s != []
    ensures var n := |s| - 1;
            x in FirstById(s) <==> x in FirstById(s[..n]) || (x == s[n] && x.id !in Ids(s[..n]))
  {
    hide Ids;
  }

  lemma {:induction false} FirstByIdMembership(s: seq<Event>, x: Event)
    ensures x in FirstById(s) <==> exists i :: 0 <= i < |s| && s[i] == x && x.id !in Ids(s[..i])
  {
    if s != [] {
      hide *;
      var n := |s| - 1;
      var init := s[..n];
      FirstByIdMembership(init, x);
      FirstByIdSnoc(s, x);
      forall i | 0 <= i <= n ensures init[..i] == s[..i] {}
      if x in FirstById(init) {
        var i :| 0 <= i < n && init[i] == x && x.id !in Ids(init[..i]);
        assert s[i] == x && x.id !in Ids(s[..i]);
      }
      if i :| 0 <= i < n && s[i] == x && x.id !in Ids(s[..i]) {
        assert init[i] == x && x.id !in Ids(init[..i]);
      }
    } else {
      assert FirstById(s) == [];
    }
  }

  lemma PrefixIds(s: seq<Event>, i: nat)
    requires i <= |s|
    ensures forall j :: 0 <= j < i ==> s[j].id in Ids(s[..i])
  {
    forall j | 0 <= j < i ensures s[j].id in Ids(s[..i]) {
      assert s[..i][j] == s[j];
    }
  }

  /** Canonical histories are strictly ordered by (time, id). */
  lemma {:induction false} FirstByIdIsStrict(s: seq<Event>)
    requires SortedBy(s, KeyLeq)
    ensures SortedBy(FirstById(s), KeyLess)
  {
    if s == [] {
    } else {
      var n := |s| - 1;
      var init, last := s[..n], s[n];
      FirstByIdIsStrict(init);
      if last.id !in Ids(init) {
        var d := FirstById(init);
        forall k | 0 <= k < |d| ensures KeyLess(d[k], last) {
          FirstByIdMembership(init, d[k]);
          var i :| 0 <= i < |init| && init[i] == d[k] && d[k].id !in Ids(init[..i]);
          assert init[i].id in Ids(init);
          assert KeyLeq(s[i], s[n]);
        }
      }
    }
  }

  lemma FirstOfIdIsEarliest(s: seq<Event>, i: nat)
    requires SortedBy(s, KeyLeq) && i < |s| && s[i].id !in Ids(s[..i])
    ensures Earliest(s[i], s)
  {
    PrefixIds(s, i);
    forall f | f in s && f.id == s[i].id ensures s[i].occurredAt <= f.occurredAt {
      var j :| 0 <= j < |s| && s[j] == f;
      assert i <= j;
    }
  }

  /** Each id survives once, as its earliest record. */
  lemma CanonicalKeepsEarliest(events: seq<Event>, x: Event)
    ensures x in Canonical(events) ==> Earliest(x, events)
    ensures EarliestUnambiguous(events) && Earliest(x, events) ==> x in Canonical(events)
  {
    KeysArePreordered();
    var s := Sorted(events, KeyLeq);
    SortedIsSortedPermutation(events, KeyLeq);
    SortedKeepsElements(events, KeyLeq);
    FirstByIdMembership(s, x);
    if x in FirstById(s) {
      var i :| 0 <= i < |s| && s[i] == x && x.id !in Ids(s[..i]);
      FirstOfIdIsEarliest(s, i);
    }
    if EarliestUnambiguous(events) && Earliest(x, events) {
      var i := FirstIndexOfId(s, x.id);
      FirstOfIdIsEarliest(s, i);
      assert s[i] == x by {
        assert Earliest(s[i], events);
      }
    }
  }

  lemma {:induction false} FirstIndexOfId(s: seq<Event>, id: Uuid) returns (i: nat)
    requires id in Ids(s)
    ensures i < |s| && s[i].id == id && id !in Ids(s[..i])
  {
    var n := |s| - 1;
    if id in Ids(s[..n]) {
      i := FirstIndexOfId(s[..n], id);
      assert s[..n][..i] == s[..i];
    } else {
      i := n;
    }
  }

  lemma CanonicalIsStrict(events: seq<Event>)
    ensures SortedBy(Canonical(events), KeyLess)
  {
    KeysArePreordered();
    SortedIsSortedPermutation(events, KeyLeq);
    FirstByIdIsStrict(Sorted(events, KeyLeq));
  }

  /** Lists with the same events, in any order and with any repetition, have one canonical history. */
  lemma SameEventsSameHistory(a: seq<Event>, b: seq<Event>)
    requires EarliestUnambiguous(a) && SameElements(a, b)
    ensures Canonical(a) == Canonical(b)
  {
    forall x ensures Earliest(x, a) <==> Earliest(x, b) {}
    forall x ensures x in Canonical(a) <==> x in Canonical(b) {
      CanonicalKeepsEarliest(a, x);
      CanonicalKeepsEarliest(b, x);
    }
    CanonicalIsStrict(a);
    CanonicalIsStrict(b);
    StrictlySortedUnique(Canonical(a), Canonical(b), KeyLess);
  }

  lemma {:induction false} InsertGoesFirst(x: Event, s: seq<Event>) returns (i: nat)
    ensures i < |Insert(x, s, KeyLeq)| && Insert(x, s, KeyLeq)[i] == x
    ensures forall j :: 0 <= j < i ==> !KeyLeq(x, Insert(x, s, KeyLeq)[j])
  {
    if s == [] || KeyLeq(x, s[0]) {
      i := 0;
    } else {
      var k := InsertGoesFirst(x, s[1..]);
      i := k + 1;
    }
  }

  /** Repeating an earliest record at the front of the list makes it the surviving one. */
  lemma FrontRecordWins(x: Event, events: seq<Event>)
    requires Earliest(x, events)
    ensures x in Canonical([x] + events)
  {
    KeysArePreordered();
    assert ([x] + events)[1..] == events;
    var t := Sorted(events, KeyLeq);
    SortedKeepsElements(events, KeyLeq);
    var s := Sorted([x] + events, KeyLeq);
    SortedKeepsElements([x] + events, KeyLeq);
    assert s == Insert(x, t, KeyLeq);
    var i := InsertGoesFirst(x, t);
    forall j | 0 <= j < i ensures s[j].id != x.id {
      assert s[j] in [x] + events;
      assert s[j] == x || s[j] in events;
    }
    FirstByIdMembership(s, x);
  }

  lemma {:induction false} FirstByIdHasDistinctIds(s: seq<Event>, x: Event, y: Event)
    requires x in FirstById(s) && y in FirstById(s) && x.id == y.id
    ensures x == y
  {
    FirstByIdMembership(s, x);
    FirstByIdMembership(s, y);
    var i :| 0 <= i < |s| && s[i] == x && x.id !in Ids(s[..i]);
    var j :| 0 <= j < |s| && s[j] == y && y.id !in Ids(s[..j]);
    PrefixIds(s, i);
    PrefixIds(s, j);
  }

  /** Exactly when the promised stability under duplicates and reordering holds. */
  lemma HistoryIsStableIff(a: seq<Event>)
    ensures (forall b :: SameElements(a, b) ==> Canonical(b) == Canonical(a)) <==> EarliestUnambiguous(a)
  {
    if EarliestUnambiguous(a) {
      forall b | SameElements(a, b) ensures Canonical(b) == Canonical(a) {
        SameEventsSameHistory(a, b);
      }
    }
    if forall b :: SameElements(a, b) ==> Canonical(b) == Canonical(a) {
      forall e, f | Earliest(e, a) && Earliest(f, a) && e.id == f.id ensures e == f {
        hide *;
        FrontSameElements(e, a);
        FrontSameElements(f, a);
        TiedRecordsAreEqual(a, e, f);
      }
    }
  }

  lemma FrontSameElements(x: Event, s: seq<Event>)
    requires Earliest(x, s)
    ensures SameElements(s, [x] + s)
  {
  }

  /** If neither of two tied records displaces the other, they are the same. */
  lemma TiedRecordsAreEqual(a: seq<Event>, e: Event, f: Event)
    requires Earliest(e, a) && Earliest(f, a) && e.id == f.id
    requires Canonical([e] + a) == Canonical(a) == Canonical([f] + a)
    ensures e == f
  {
    FrontRecordWins(e, a);
    FrontRecordWins(f, a);
    FirstByIdHasDistinctIds(Sorted(a, KeyLeq), e, f);
  }

  // ---- the closed form of one concept's evidence ----

  predicate IsIneligible(e: Event) { !e.eligible }
  predicate IsEligible(e: Event) { e.eligible }
  predicate IsGrade(e: Event) { e.eligible && e.kind == GradeRecorded }
  predicate IsCorrectGrade(e: Event) { IsGrade(e) && e.correct }
  predicate IsPractice(e: Event) { !e.eligible || e.kind == AttemptStarted }
  predicate IsRecallSignal(e: Event) {
    IsGrade(e) || (e.eligible && e.kind == ReviewRated && e.rating != UnknownRating)
  }

  /** The last eligible grade and the number of correct ones fix the state. */
  function StateOf(grades: seq<Event>, correct: nat, practised: bool): EvidenceState {
    if grades == [] then (if practised then Practicing else Unassessed)
    else if !grades[|grades| - 1].correct then Practicing
    else if correct >= 2 then DelayedDemonstrated
    else Demonstrated
  }

  function RecallOf(signals: seq<Event>): RecallState {
    if signals == [] then Current
    else
      var e := signals[|signals| - 1];
      if e.kind == GradeRecorded then (if e.correct then Current else Lapsed)
      else if e.rating == Again then Lapsed
      else Current
  }

  function Summary(h: seq<Event>): Evidence {
    var correct := |Filter(h, IsCorrectGrade)|;
    Evidence(
      StateOf(Filter(h, IsGrade), correct, Filter(h, IsPractice) != []),
      RecallOf(Filter(h, IsRecallSignal)),
      correct,
      |Filter(h, IsIneligible)|)
  }

  function OfConcept(c: Uuid): Event -> bool {
    (e: Event) => e.concept == Some(c)
  }

  function Concepts(h: seq<Event>): set<Uuid> {
    set e | e in h && e.concept.Some? :: e.concept.value
  }

  /** The projection of an event list: one closed-form summary per concept of its history. */
  function Projection(events: seq<Event>): map<Uuid, Evidence> {
    var h := Canonical(events);
    map c | c in Concepts(h) :: Summary(Filter(h, OfConcept(c)))
  }

  lemma SummarySnoc(h: seq<Event>, e: Event)
    ensures Filter(h + [e], IsGrade) == Filter(h, IsGrade) + (if IsGrade(e) then [e] else [])
    ensures Filter(h + [e], IsCorrectGrade) == Filter(h, IsCorrectGrade) + (if IsCorrectGrade(e) then [e] else [])
    ensures Filter(h + [e], IsPractice) == Filter(h, IsPractice) + (if IsPractice(e) then [e] else [])
    ensures Filter(h + [e], IsRecallSignal) == Filter(h, IsRecallSignal) + (if IsRecallSignal(e) then [e] else [])
    ensures Filter(h + [e], IsIneligible) == Filter(h, IsIneligible) + (if IsIneligible(e) then [e] else [])
  {
    FilterSnoc(h, e, IsGrade);
    FilterSnoc(h, e, IsCorrectGrade);
    FilterSnoc(h, e, IsPractice);
    FilterSnoc(h, e, IsRecallSignal);
    FilterSnoc(h, e, IsIneligible);
  }

  // ---- what a summary says, position by position ----

  ghost predicate GradedAt(h: seq<Event>, i: nat, correct: bool) {
    i < |h| && h[i].eligible && h[i].kind == GradeRecorded && h[i].correct == correct
  }

  /** An eligible grade that no other eligible grade follows. */
  ghost predicate LastGradedAt(h: seq<Event>, i: nat, correct: bool) {
    GradedAt(h, i, correct) && forall j :: i < j < |h| ==> !(h[j].eligible && h[j].kind == GradeRecorded)
  }

  /** An eligible event that sets the recall state, and to what. */
  ghost predicate SignalAt(h: seq<Event>, i: nat, lapse: bool) {
    && i < |h| && h[i].eligible
    && ((h[i].kind == GradeRecorded && h[i].correct == !lapse)
        || (h[i].kind == ReviewRated && h[i].rating in (if lapse then {Again} else {Hard, Good, Easy})))
  }

  ghost predicate LastSignalAt(h: seq<Event>, i: nat, lapse: bool) {
    SignalAt(h, i, lapse) && forall j :: i < j < |h| ==> !SignalAt(h, j, true) && !SignalAt(h, j, false)
  }

  ghost predicate PractisedAt(h: seq<Event>, i: nat) {
    i < |h| && (!h[i].eligible || h[i].kind == AttemptStarted)
  }

  /** The evidence state, read off the positions of grades and practice in the history. */
  lemma StateReads(h: seq<Event>)
    ensures var state := Summary(h).state;
      && (state == DelayedDemonstrated <==> exists i, j :: i < j && GradedAt(h, i, true) && LastGradedAt(h, j, true))
      && (state == Demonstrated <==>
            exists j :: LastGradedAt(h, j, true) && forall i :: GradedAt(h, i, true) ==> i == j)
      && (state == Practicing <==>
            || (exists j :: LastGradedAt(h, j, false))
            || ((forall i, c :: !GradedAt(h, i, c)) && exists i :: PractisedAt(h, i)))
      && (state == Unassessed <==> (forall i, c :: !GradedAt(h, i, c)) && forall i :: !PractisedAt(h, i))
  {
    var grades, right := Filter(h, IsGrade), Filter(h, IsCorrectGrade);
    FilterCounts(h, IsCorrectGrade);
    var correct := Positions(h, IsCorrectGrade);
    PractisedIff(h);
    if grades == [] {
      NoGrades(h);
    } else {
      var j := LastKept(h, IsGrade);
      assert LastGradedAt(h, j, h[j].correct);
      assert forall i: nat, c :: LastGradedAt(h, i, c) ==> i == j && c == h[j].correct;
      if h[j].correct {
        assert j in correct;
        TwoOrOne(correct, j);
        assert forall i: nat :: i in correct <==> GradedAt(h, i, true);
      }
      assert GradedAt(h, j, h[j].correct);
    }
    hide Filter;
    hide LastGradedAt;
    hide GradedAt;
    hide PractisedAt;
  }

  lemma NoGrades(h: seq<Event>)
    requires Filter(h, IsGrade) == []
    ensures forall i, c :: !GradedAt(h, i, c)
  {
    forall i: nat, c ensures !GradedAt(h, i, c) {
      if GradedAt(h, i, c) { FilterMembership(h, IsGrade, h[i]); }
    }
  }

  lemma PractisedIff(h: seq<Event>)
    ensures Filter(h, IsPractice) != [] <==> exists i :: PractisedAt(h, i)
  {
    if i: nat :| PractisedAt(h, i) { FilterMembership(h, IsPractice, h[i]); }
    if Filter(h, IsPractice) != [] {
      var j := LastKept(h, IsPractice);
      assert PractisedAt(h, j);
    }
  }

  /** A set that holds `j` has two elements exactly when it holds another one. */
  lemma TwoOrOne(s: set<nat>, j: nat)
    requires j in s
    ensures |s| >= 2 <==> exists i :: i in s && i != j
  {
    assert s == {j} + (s - {j});
    if |s| >= 2 {
      var i :| i in s - {j};
    }
  }

  /** The recall state is set by the last signal; the two counts count positions. */
  lemma RecallAndCountsRead(h: seq<Event>)
    ensures Summary(h).recall == Lapsed <==> exists j :: LastSignalAt(h, j, true)
    ensures Summary(h).recall == Current <==>
              (exists j :: LastSignalAt(h, j, false)) || forall i, lapse :: !SignalAt(h, i, lapse)
    ensures Summary(h).eligibleGrades == |set i: nat | i < |h| && GradedAt(h, i, true)|
    ensures Summary(h).ineligibleHits == |set i: nat | i < |h| && !h[i].eligible|
  {
    FilterCounts(h, IsCorrectGrade);
    FilterCounts(h, IsIneligible);
    assert Positions(h, IsCorrectGrade) == set i: nat | i < |h| && GradedAt(h, i, true);
    assert Positions(h, IsIneligible) == set i: nat | i < |h| && !h[i].eligible;
    if Filter(h, IsRecallSignal) == [] {
      NoSignals(h);
    } else {
      var j, lapse := LastSignal(h);
      assert SignalAt(h, j, lapse);
    }
    hide Filter;
    hide LastSignalAt;
    hide SignalAt;
    hide GradedAt;
  }

  lemma NoSignals(h: seq<Event>)
    requires Filter(h, IsRecallSignal) == []
    ensures forall i: nat, lapse :: !SignalAt(h, i, lapse)
  {
    forall i: nat, lapse ensures !SignalAt(h, i, lapse) {
      if SignalAt(h, i, lapse) { FilterMembership(h, IsRecallSignal, h[i]); }
    }
  }

  lemma LastSignal(h: seq<Event>) returns (j: nat, lapse: bool)
    requires Filter(h, IsRecallSignal) != []
    ensures LastSignalAt(h, j, lapse) && forall i: nat, l :: LastSignalAt(h, i, l) ==> i == j && l == lapse
    ensures Summary(h).recall == if lapse then Lapsed else Current
  {
    j := LastKept(h, IsRecallSignal);
    lapse := (h[j].kind == GradeRecorded && !h[j].correct) || (h[j].kind == ReviewRated && h[j].rating == Again);
    assert forall i: nat :: i < |h| ==> (IsRecallSignal(h[i]) <==> SignalAt(h, i, true) || SignalAt(h, i, false));
    assert SignalAt(h, j, lapse) && !SignalAt(h, j, !lapse);
    hide Filter;
    hide SignalAt;
  }

  // ---- the replay ----

  class ConceptEvidence {
    const conceptNodeId: Uuid
    var evidenceState: EvidenceState
    var recallState: RecallState
    var eligibleGrades: nat
    var ineligibleHits: nat

    constructor (concept: Uuid)
      ensures conceptNodeId == concept && View() == Summary([])
    {
      conceptNodeId := concept;
      evidenceState, recallState := Unassessed, Current;
      eligibleGrades, ineligibleHits := 0, 0;
    }

    function View(): Evidence
      reads this
    {
      Evidence(evidenceState, recallState, eligibleGrades, ineligibleHits)
    }

    /** The loop body's update for one event of this concept whose earlier events are `h`. */
    method Apply(e: Event, ghost h: seq<Event>)
      requires View() == Summary(h)
      modifies this
      ensures View() == Summary(h + [e])
    {
      SummarySnoc(h, e);
      if !e.eligible {
        ineligibleHits := ineligibleHits + 1;
        if evidenceState == Unassessed {
          evidenceState := Practicing;
        }
        return;
      }
      if e.kind == AttemptStarted {
        if evidenceState == Unassessed {
          evidenceState := Practicing;
        }
      } else if e.kind == GradeRecorded {
        if e.correct {
          eligibleGrades := eligibleGrades + 1;
          if eligibleGrades >= 2 {
            evidenceState := DelayedDemonstrated;
          } else {
            evidenceState := Demonstrated;
          }
          recallState := Current;
        } else {
          evidenceState := Practicing;
          recallState := Lapsed;
        }
      } else if e.kind == ReviewRated {
        if e.rating == Again {
          recallState := Lapsed;
        } else if e.rating == Hard || e.rating == Good || e.rating == Easy {
          recallState := Current;
        }
      }
    }
  }

  /** The dictionary holds the closed-form evidence of history `h`, one object per concept. */
  ghost predicate Tracks(projections: map<Uuid, ConceptEvidence>, h: seq<Event>)
    reads projections.Values
  {
    && projections.Keys == Concepts(h)
    && (forall c: Uuid :: c in projections ==> projections[c].conceptNodeId == c)
    && forall c: Uuid :: c in projections ==> projections[c].View() == Summary(Filter(h, OfConcept(c)))
  }

  /** `setdefault` and the update of one event not seen before. */
  method Record(projections: map<Uuid, ConceptEvidence>, e: Event, ghost h: seq<Event>)
    returns (next: map<Uuid, ConceptEvidence>)
    requires Tracks(projections, h)
    modifies projections.Values
    ensures Tracks(next, h + [e])
    ensures forall c :: c in next ==> (c in projections && next[c] == projections[c]) || fresh(next[c])
  {
    hide Summary;
    hide Filter;
    hide Concepts;
    next := projections;
    ConceptSnoc(h, e);
    if e.concept == None {
      return;
    }
    var c := e.concept.value;
    if c !in next {
      NoEventsOfConcept(h, c);
      var state := new ConceptEvidence(c);
      next := next[c := state];
    }
    next[c].Apply(e, Filter(h, OfConcept(c)));
  }

  /** `replay_evidence`: the loop computes the closed-form projection. */
  method ReplayEvidence(events: seq<Event>) returns (projections: map<Uuid, ConceptEvidence>)
    ensures projections.Keys == Projection(events).Keys
    ensures forall c :: c in projections ==>
              fresh(projections[c]) && projections[c].conceptNodeId == c
                  && projections[c].View() == Projection(events)[c]
  {
    hide Summary;
    hide Filter;
    hide Sorted;
    hide Concepts;
    var seen: set<Uuid> := {};
    var ordered := Sorted(events, KeyLeq);
    projections := map[];
    NothingTracked(projections);
    hide FirstById;
    hide Ids;
    for i := 0 to |ordered|
      invariant seen == Ids(ordered[..i])
      invariant forall c :: c in projections ==> fresh(projections[c])
      invariant Tracks(projections, FirstById(ordered[..i]))
    {
      var e := ordered[i];
      FirstByIdNext(ordered, i);
      if e.id in seen {
        continue;
      }
      seen := seen + {e.id};
      projections := Record(projections, e, FirstById(ordered[..i]));
    }
    assert ordered[..|ordered|] == ordered;
  }

  lemma NothingTracked(projections: map<Uuid, ConceptEvidence>)
    requires projections == map[]
    ensures FirstById([]) == [] && Ids([]) == {} && Tracks(projections, [])
  {
  }

  lemma FirstByIdNext(s: seq<Event>, i: nat)
    requires i < |s|
    ensures Ids(s[..i + 1]) == Ids(s[..i]) + {s[i].id}
    ensures FirstById(s[..i + 1]) == if s[i].id in Ids(s[..i]) then FirstById(s[..i]) else FirstById(s[..i]) + [s[i]]
  {
    assert s[..i + 1] == s[..i] + [s[i]];
  }

  lemma ConceptSnoc(h: seq<Event>, e: Event)
    ensures Concepts(h + [e]) == Concepts(h) + (if e.concept.Some? then {e.concept.value} else {})
    ensures forall c: Uuid :: Filter(h + [e], OfConcept(c)) ==
              if e.concept == Some(c) then Filter(h, OfConcept(c)) + [e] else Filter(h, OfConcept(c))
  {
    forall c: Uuid ensures Filter(h + [e], OfConcept(c)) ==
                           if e.concept == Some(c) then Filter(h, OfConcept(c)) + [e] else Filter(h, OfConcept(c)) {
      FilterSnoc(h, e, OfConcept(c));
    }
  }

  lemma NoEventsOfConcept(h: seq<Event>, c: Uuid)
    requires c !in Concepts(h)
    ensures Filter(h, OfConcept(c)) == []
  {
    var f := Filter(h, OfConcept(c));
    if f != [] {
      FilterMembership(h, OfConcept(c), f[0]);
    }
  }

  // ---- what the projection promises ----

  /** An event with the fields the replay does not read made equal. */
  function Observe(e: Event): Event {
    var kind :=
      if e.concept == None || !e.eligible then OtherType("")
      else if e.kind == AttemptStarted || e.kind == GradeRecorded then e.kind
      else if e.kind == ReviewRated && e.rating != UnknownRating then ReviewRated
      else OtherType("");
    Event(e.id, kind, e.concept, e.occurredAt, e.concept != None && e.eligible,
          kind == GradeRecorded && e.correct,
          if kind != ReviewRated then UnknownRating else if e.rating == Again then Again else Good)
  }

  function Observed(s: seq<Event>): (r: seq<Event>)
    ensures |r| == |s|
  {
    seq(|s|, i requires 0 <= i < |s| => Observe(s[i]))
  }

  lemma {:induction false} InsertObserved(x: Event, s: seq<Event>)
    ensures Insert(Observe(x), Observed(s), KeyLeq) == Observed(Insert(x, s, KeyLeq))
  {
    if s != [] {
      assert KeyLeq(Observe(x), Observe(s[0])) == KeyLeq(x, s[0]);
      hide Observe;
      hide KeyLeq;
      InsertObserved(x, s[1..]);
      assert Observed(s)[1..] == Observed(s[1..]);
    }
  }

  lemma {:induction false} SortedObserved(s: seq<Event>)
    ensures Sorted(Observed(s), KeyLeq) == Observed(Sorted(s, KeyLeq))
  {
    if s != [] {
      SortedObserved(s[1..]);
      assert Observed(s)[1..] == Observed(s[1..]);
      InsertObserved(s[0], Sorted(s[1..], KeyLeq));
    }
  }

  lemma IdsObserved(s: seq<Event>)
    ensures Ids(Observed(s)) == Ids(s)
  {
    forall e | e in s ensures e.id in Ids(Observed(s)) {
      var i :| 0 <= i < |s| && s[i] == e;
      assert Observed(s)[i] in Observed(s);
    }
  }

  lemma ObservedSnoc(s: seq<Event>, e: Event)
    ensures Observed(s + [e]) == Observed(s) + [Observe(e)]
  {
    hide Observe;
  }

  lemma {:induction false} FirstByIdObserved(s: seq<Event>)
    ensures FirstById(Observed(s)) == Observed(FirstById(s))
  {
    if s != [] {
      var init, last := s[..|s| - 1], s[|s| - 1];
      FirstByIdObserved(init);
      IdsObserved(init);
      assert Observed(s)[..|s| - 1] == Observed(init);
      ObservedSnoc(FirstById(init), last);
    }
  }

  lemma CanonicalObserved(s: seq<Event>)
    ensures Canonical(Observed(s)) == Observed(Canonical(s))
  {
    SortedObserved(s);
    FirstByIdObserved(Sorted(s, KeyLeq));
  }

  /** A predicate that reads only what the replay reads selects the same events. */
  lemma {:induction false} FilterObserved(s: seq<Event>, p: Event -> bool)
    requires forall e :: e in s ==> p(Observe(e)) == p(e)
    ensures Filter(Observed(s), p) == Observed(Filter(s, p))
  {
    hide Observe;
    if s != [] {
      FilterObserved(s[1..], p);
      assert Observed(s)[1..] == Observed(s[1..]);
    }
  }

  ghost predicate HaveConcepts(h: seq<Event>) {
    forall e :: e in h ==> e.concept.Some?
  }

  /** The summary of a concept's history depends on the observed history alone. */
  lemma SummaryObserved(h: seq<Event>)
    requires HaveConcepts(h)
    ensures Summary(Observed(h)) == Summary(h)
  {
    FilterObserved(h, IsGrade);
    FilterObserved(h, IsCorrectGrade);
    FilterObserved(h, IsPractice);
    FilterObserved(h, IsRecallSignal);
    FilterObserved(h, IsIneligible);
    StateObserved(h, |Filter(h, IsCorrectGrade)|, Filter(h, IsPractice) != []);
    RecallObserved(h);
    hide StateOf;
    hide RecallOf;
    hide Observe;
  }

  lemma StateObserved(h: seq<Event>, correct: nat, practised: bool)
    requires HaveConcepts(h)
    ensures StateOf(Observed(Filter(h, IsGrade)), correct, practised) == StateOf(Filter(h, IsGrade), correct, practised)
  {
    var grades := Filter(h, IsGrade);
    if grades != [] {
      FilterMembership(h, IsGrade, grades[|grades| - 1]);
    }
  }

  lemma RecallObserved(h: seq<Event>)
    requires HaveConcepts(h)
    ensures RecallOf(Observed(Filter(h, IsRecallSignal))) == RecallOf(Filter(h, IsRecallSignal))
  {
    var signals := Filter(h, IsRecallSignal);
    if signals != [] {
      FilterMembership(h, IsRecallSignal, signals[|signals| - 1]);
    }
  }

  lemma ConceptsObserved(h: seq<Event>)
    ensures Concepts(Observed(h)) == Concepts(h)
  {
    forall e | e in h ensures Observe(e) in Observed(h) {
      var i :| 0 <= i < |h| && h[i] == e;
      assert Observed(h)[i] == Observe(e);
    }
    assert forall c :: c in Concepts(h) ==> exists e :: e in h && e.concept == Some(c) && Observe(e).concept == Some(c);
  }

  lemma ConceptObserved(h: seq<Event>, c: Uuid)
    ensures Summary(Filter(Observed(h), OfConcept(c))) == Summary(Filter(h, OfConcept(c)))
  {
    hide Summary;
    FilterObserved(h, OfConcept(c));
    var own := Filter(h, OfConcept(c));
    forall e | e in own ensures e.concept.Some? { FilterMembership(h, OfConcept(c), e); }
    SummaryObserved(own);
  }

  /** Fields the replay does not read do not matter. */
  lemma ProjectionReadsObserved(events: seq<Event>)
    ensures Projection(Observed(events)) == Projection(events)
  {
    hide Summary;
    hide Filter;
    hide Canonical;
    CanonicalObserved(events);
    var h := Canonical(events);
    ConceptsObserved(h);
    forall c | c in Concepts(h) ensures Summary(Filter(Observed(h), OfConcept(c))) == Summary(Filter(h, OfConcept(c))) {
      ConceptObserved(h, c);
    }
  }

  lemma SameElementsObserved(a: seq<Event>, b: seq<Event>)
    requires SameElements(a, b)
    ensures SameElements(Observed(a), Observed(b))
  {
    forall x ensures x in Observed(a) <==> x in Observed(b) {
      if x in Observed(a) {
        var i :| 0 <= i < |a| && Observed(a)[i] == x;
        assert a[i] in b;
        var j :| 0 <= j < |b| && b[j] == a[i];
        assert Observed(b)[j] == x;
      }
      if x in Observed(b) {
        var i :| 0 <= i < |b| && Observed(b)[i] == x;
        assert b[i] in a;
        var j :| 0 <= j < |a| && a[j] == b[i];
        assert Observed(a)[j] == x;
      }
    }
  }

  /**
   * Duplicates and reordering change nothing when records of one id tied for its earliest time differ
   * at most in what the replay does not read.
   */
  lemma ProjectionIgnoresOrderAndDuplicates(a: seq<Event>, b: seq<Event>)
    requires EarliestUnambiguous(Observed(a)) && SameElements(a, b)
    ensures Projection(a) == Projection(b)
  {
    hide Summary;
    SameElementsObserved(a, b);
    SameEventsSameHistory(Observed(a), Observed(b));
    ProjectionReadsObserved(a);
    ProjectionReadsObserved(b);
  }

  /** In particular when no id has two different records tied for its earliest time. */
  lemma UnambiguousIsObservedUnambiguous(a: seq<Event>)
    requires EarliestUnambiguous(a)
    ensures EarliestUnambiguous(Observed(a))
  {
    var o := Observed(a);
    forall x, y | Earliest(x, o) && Earliest(y, o) && x.id == y.id ensures x == y {
      var i :| 0 <= i < |a| && o[i] == x;
      var j :| 0 <= j < |a| && o[j] == y;
      EarliestObserved(a, i);
      EarliestObserved(a, j);
    }
  }

  lemma EarliestObserved(a: seq<Event>, i: nat)
    requires i < |a| && Earliest(Observed(a)[i], Observed(a))
    ensures Earliest(a[i], a)
  {
    forall f | f in a && f.id == a[i].id ensures a[i].occurredAt <= f.occurredAt {
      var j :| 0 <= j < |a| && a[j] == f;
      assert Observed(a)[j] in Observed(a);
    }
  }

  // ---- two records of one id and time ----

  lemma SingleProjection(x: Event)
    ensures Projection([x]) == if x.concept.Some? then map[x.concept.value := Summary([x])] else map[]
  {
    SortedOne(x);
    assert [x][..0] == [];
    assert FirstById([x][..0]) == [] && x.id !in Ids([x][..0]);
    assert FirstById([x]) == [x];
    assert Concepts([x]) == if x.concept.Some? then {x.concept.value} else {};
    if x.concept.Some? {
      FilterOne(x, OfConcept(x.concept.value));
    }
  }

  lemma FilterOne(x: Event, p: Event -> bool)
    ensures Filter([x], p) == if p(x) then [x] else []
  {
    assert [x][1..] == [];
  }

  lemma SummaryOfOne(x: Event)
    ensures Summary([x]) == Evidence(
      StateOf(if IsGrade(x) then [x] else [], if IsCorrectGrade(x) then 1 else 0, IsPractice(x)),
      RecallOf(if IsRecallSignal(x) then [x] else []),
      if IsCorrectGrade(x) then 1 else 0, if IsIneligible(x) then 1 else 0)
  {
    FilterOne(x, IsGrade);
    FilterOne(x, IsCorrectGrade);
    FilterOne(x, IsPractice);
    FilterOne(x, IsRecallSignal);
    FilterOne(x, IsIneligible);
  }

  /** A forgotten review of the concept just before an event. */
  function LapseBefore(e: Event): Event {
    Event(e.id + 1, ReviewRated, e.concept, e.occurredAt - 1, true, false, Again)
  }

  lemma SortedPair(x: Event, y: Event)
    ensures Sorted([x, y], KeyLeq) == if KeyLeq(x, y) then [x, y] else [y, x]
  {
    assert [x, y][1..] == [y] && [y][1..] == [];
    SortedOne(y);
    assert Insert(x, [], KeyLeq) == [x];
  }

  lemma SortedOne(x: Event)
    ensures Sorted([x], KeyLeq) == [x]
  {
    assert [x][1..] == [] && Sorted([x][1..], KeyLeq) == [];
  }

  lemma AfterLapse(x: Event)
    requires x.concept.Some?
    ensures var p := LapseBefore(x);
            x.concept.value in Projection([x, p]) && Projection([x, p])[x.concept.value] == Summary([p, x])
  {
    var p, c := LapseBefore(x), x.concept.value;
    SortedPair(x, p);
    assert !KeyLeq(x, p);
    assert [p, x][..1] == [p] && [p][..0] == [];
    assert FirstById([p]) == [p] && Canonical([x, p]) == [p, x];
    assert [p, x][1..] == [x];
    FilterOne(x, OfConcept(c));
    assert Filter([p, x], OfConcept(c)) == [p, x];
    assert x in [p, x];
  }

  lemma RecallAfterLapse(x: Event)
    ensures var p := LapseBefore(x);
            Summary([p, x]).recall == if IsRecallSignal(x) then RecallOf([x]) else Lapsed
  {
    var p := LapseBefore(x);
    assert [p, x] == [p] + [x];
    SummarySnoc([p], x);
    FilterOne(p, IsRecallSignal);
  }

  /**
   * Which of two records of one id and time is met first never matters, in any list, exactly when they
   * agree on what the replay reads.
   */
  lemma TiedRecordsMatterIff(e: Event, f: Event)
    requires e.id == f.id && e.occurredAt == f.occurredAt
    ensures (forall s :: Projection([e] + s) == Projection([f] + s)) <==> Observe(e) == Observe(f)
  {
    hide Projection;
    if Observe(e) == Observe(f) {
      forall s ensures Projection([e] + s) == Projection([f] + s) {
        assert Observed([e] + s) == Observed([f] + s);
        ProjectionReadsObserved([e] + s);
        ProjectionReadsObserved([f] + s);
      }
    }
    if forall s :: Projection([e] + s) == Projection([f] + s) {
      var p := LapseBefore(e);
      assert [e] + [] == [e] && [f] + [] == [f] && [e] + [p] == [e, p] && [f] + [p] == [f, p];
      assert Projection([e] + []) == Projection([f] + []);
      assert Projection([e] + [p]) == Projection([f] + [p]);
      AgreementShows(e, f);
    }
  }

  /** Agreeing alone and behind a lapse, two records agree on what the replay reads. */
  lemma AgreementShows(e: Event, f: Event)
    requires e.id == f.id && e.occurredAt == f.occurredAt
    requires Projection([e]) == Projection([f]) && Projection([e, LapseBefore(e)]) == Projection([f, LapseBefore(e)])
    ensures Observe(e) == Observe(f)
  {
    hide Projection;
    hide Summary;
    SingleProjection(e);
    SingleProjection(f);
    assert f.concept.Some? ==> f.concept.value in Projection([f]);
    if e.concept.Some? {
      var c := e.concept.value;
      assert c in Projection([f]);
      assert f.concept == e.concept && Summary([e]) == Summary([f]);
      assert LapseBefore(f) == LapseBefore(e);
      AfterLapse(e);
      AfterLapse(f);
      RecallAfterLapse(e);
      RecallAfterLapse(f);
      SummaryOfOne(e);
      SummaryOfOne(f);
    }
  }

  /** A correct and an incorrect grade tied under one id: the order of the list decides what is demonstrated. */
  lemma TiedGradesAreOrderSensitive(c: Uuid)
    ensures var e, f := Event(1, GradeRecorded, Some(c), 0, true, true, UnknownRating),
                        Event(1, GradeRecorded, Some(c), 0, true, false, UnknownRating);
            SameElements([e, f], [f, e]) && Projection([e, f]) != Projection([f, e])
  {
    var e, f := Event(1, GradeRecorded, Some(c), 0, true, true, UnknownRating),
                Event(1, GradeRecorded, Some(c), 0, true, false, UnknownRating);
    hide Projection;
    hide Summary;
    TiedPair(e, f);
    TiedPair(f, e);
    SummaryOfOne(e);
    SummaryOfOne(f);
    assert Projection([e, f])[c].eligibleGrades == 1 && Projection([f, e])[c].eligibleGrades == 0;
    assert SameElements([e, f], [f, e]);
  }

  lemma TiedPair(e: Event, f: Event)
    requires e.id == f.id && e.occurredAt == f.occurredAt && e.concept.Some?
    ensures Projection([e, f]) == map[e.concept.value := Summary([e])]
  {
    hide Summary;
    SortedPair(e, f);
    assert [e, f][..1] == [e] && [e][..0] == [];
    assert f.id in Ids([e]) && [e, f][1] == f;
    assert FirstById([e]) == [e];
    assert FirstById([e, f]) == [e] && Canonical([e, f]) == [e];
    FilterOne(e, OfConcept(e.concept.value));
    assert Concepts([e]) == {e.concept.value};
  }

  lemma {:induction false} FirstByIdFilters(s: seq<Event>, p: Event -> bool)
    requires OneRecordPerId(s)
    ensures FirstById(Filter(s, p)) == Filter(FirstById(s), p)
  {
    if s == [] {
    } else {
      var n := |s| - 1;
      var init, last := s[..n], s[n];
      assert s == init + [last];
      FirstByIdFilters(init, p);
      FilterSnoc(init, last, p);
      FilterSnoc(FirstById(init), last, p);
      forall x ensures x in Filter(init, p) <==> x in init && p(x) { FilterMembership(init, p, x); }
      if p(last) {
        var g := Filter(init, p) + [last];
        assert g[..|g| - 1] == Filter(init, p);
        assert last.id in Ids(Filter(init, p)) <==> last.id in Ids(init);
      }
    }
  }

  /** Selecting events before the replay or after it is the same. */
  lemma CanonicalFilters(events: seq<Event>, p: Event -> bool)
    requires OneRecordPerId(events)
    ensures Canonical(Filter(events, p)) == Filter(Canonical(events), p)
  {
    KeysArePreordered();
    FilterSorted(events, KeyLeq, p);
    SortedKeepsElements(events, KeyLeq);
    FirstByIdFilters(Sorted(events, KeyLeq), p);
  }

  lemma OneConceptLeft(h: seq<Event>, c: Uuid)
    requires c in Concepts(h)
    ensures Concepts(Filter(h, OfConcept(c))) == {c}
    ensures Filter(Filter(h, OfConcept(c)), OfConcept(c)) == Filter(h, OfConcept(c))
  {
    var g := Filter(h, OfConcept(c));
    forall x ensures x in g <==> x in h && x.concept == Some(c) { FilterMembership(h, OfConcept(c), x); }
    FilterAll(g, OfConcept(c));
    var e :| e in h && e.concept == Some(c);
    assert e in g;
  }

  /** A concept's evidence is the replay of that concept's events alone. */
  lemma ConceptsAreIndependent(events: seq<Event>, c: Uuid)
    requires OneRecordPerId(events) && c in Projection(events)
    ensures Projection(Filter(events, OfConcept(c))) == map[c := Projection(events)[c]]
  {
    hide Summary;
    hide Filter;
    hide Canonical;
    CanonicalFilters(events, OfConcept(c));
    var h := Canonical(events);
    OneConceptLeft(h, c);
  }

  /** Within one concept, ineligible events add hits and turn UNASSESSED into PRACTICING; nothing else. */
  lemma IneligibleOnlyMarks(h: seq<Event>)
    ensures var all, kept := Summary(h), Summary(Filter(h, IsEligible));
            && all.eligibleGrades == kept.eligibleGrades
            && all.recall == kept.recall
            && kept.ineligibleHits == 0
            && all.state == if kept.state == Unassessed && all.ineligibleHits > 0 then Practicing else kept.state
  {
    var k := Filter(h, IsEligible);
    FilterSubsumed(h, IsEligible, IsGrade);
    FilterSubsumed(h, IsEligible, IsCorrectGrade);
    FilterSubsumed(h, IsEligible, IsRecallSignal);
    var none := Filter(k, IsIneligible);
    if none != [] {
      FilterMembership(k, IsIneligible, none[0]);
      FilterMembership(h, IsEligible, none[0]);
    }
    PracticeSplits(h);
  }

  lemma PracticeSplits(h: seq<Event>)
    ensures Filter(h, IsPractice) != [] <==>
              Filter(h, IsIneligible) != [] || Filter(Filter(h, IsEligible), IsPractice) != []
  {
    var k := Filter(h, IsEligible);
    var a, b, c := Filter(h, IsPractice), Filter(h, IsIneligible), Filter(k, IsPractice);
    forall x ensures x in a <==> x in b || x in c {
      FilterMembership(h, IsPractice, x);
      FilterMembership(h, IsIneligible, x);
      FilterMembership(h, IsEligible, x);
      FilterMembership(k, IsPractice, x);
    }
    NonemptyHasElement(a);
    NonemptyHasElement(b);
    NonemptyHasElement(c);
  }

  /**
   * Deleting every ineligible event changes, per concept, only the hit count and UNASSESSED versus
   * PRACTICING; a concept seen only in ineligible events loses its (never demonstrated) entry.
   */
  lemma DeletingIneligibleEvents(events: seq<Event>, c: Uuid)
    requires OneRecordPerId(events)
    ensures var all, kept := Projection(events), Projection(Filter(events, IsEligible));
            && kept.Keys <= all.Keys
            && (c in kept ==>
                  && all[c].eligibleGrades == kept[c].eligibleGrades && all[c].recall == kept[c].recall
                  && kept[c].ineligibleHits == 0
                  && all[c].state == (if kept[c].state == Unassessed && all[c].ineligibleHits > 0 then Practicing
                                      else kept[c].state))
            && (c in all && c !in kept ==>
                  all[c].state == Practicing && all[c].recall == Current && all[c].eligibleGrades == 0
                      && all[c].ineligibleHits > 0)
  {
    CanonicalFilters(events, IsEligible);
    var h := Canonical(events);
    var k := Filter(h, IsEligible);
    forall x ensures x in k <==> x in h && IsEligible(x) { FilterMembership(h, IsEligible, x); }
    assert Concepts(k) <= Concepts(h);
    var g := Filter(h, OfConcept(c));
    FilterTwice(h, IsEligible, OfConcept(c));
    IneligibleOnlyMarks(g);
    if c in Concepts(h) && c !in Concepts(k) {
      NoEventsOfConcept(k, c);
      assert Filter(g, IsEligible) == [];
      var e :| e in h && e.concept == Some(c);
      FilterMembership(h, OfConcept(c), e);
      FilterMembership(g, IsEligible, e);
      FilterMembership(g, IsIneligible, e);
    }
  }
}
