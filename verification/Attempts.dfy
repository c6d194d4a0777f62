/** Assessment attempts: start, reveal, submit, and the review schedule they feed. */
module Attempts {
  import opened Wrappers
  import Fsrs
  import Text

  type Uuid = nat

  // ---- rows of one account ----

  datatype Status = InProgress | Graded

  datatype Attempt = Attempt(
    user: Uuid, course: Uuid, item: Uuid, revision: Uuid, clientId: Option<string>,
    status: Status, hintRevealed: bool, answerRevealed: bool,
    response: Option<string>, confidence: Option<string>)

  /** The unique `client_event_id` of an event: a fixed prefix and the attempt's id. */
  datatype EventKey = StartedKey(attempt: Uuid) | HintKey(attempt: Uuid) | AnswerKey(attempt: Uuid)
      | GradeKey(attempt: Uuid)

  datatype Event = Event(user: Uuid, item: Uuid, eligible: bool, correct: bool, at: real)

  datatype Review = Review(stability: real, difficulty: real, reps: nat, lapses: nat, dueAt: real, revision: Uuid)

  /** One grading, in the order gradings happened. */
  datatype Grading = Grading(attempt: Uuid, user: Uuid, item: Uuid, correct: bool, revealed: bool, at: real)

  /** `byClient` is the unique index on `client_attempt_id`; `gradings` is a history variable. */
  datatype Store = Store(
    attempts: map<Uuid, Attempt>, byClient: map<string, Uuid>, events: map<EventKey, Event>,
    reviews: map<(Uuid, Uuid), Review>, gradings: seq<Grading>)

  const EMPTY := Store(map[], map[], map[], map[], [])

  /** Courses with their space; items with course and space; revisions with item, space and sealed option. */
  datatype Catalog = Catalog(
    courses: map<Uuid, Uuid>, items: map<Uuid, (Uuid, Uuid)>, revisions: map<Uuid, (Uuid, Uuid, Option<string>)>)

  datatype Error =
    | CourseNotFound | ItemNotFound | RevisionNotFound | IdempotencyConflict | UniqueViolation
    | ConfidenceRequired | AttemptStartRequired | AttemptTargetMismatch | AttemptNotStarted

  datatype Target = Target(user: Uuid, course: Uuid, item: Uuid, revision: Uuid)

  datatype StartReply = StartReply(attempt: Uuid, status: Status, idempotent: bool)
  datatype RevealReply = RevealReply(hintRevealed: bool, answerRevealed: bool)
  datatype SubmitReply = SubmitReply(attempt: Uuid, correct: Option<bool>, eligible: Option<bool>, idempotent: bool)

  // ---- the calls, as functions of the rows ----

  predicate SameTarget(a: Attempt, t: Target) {
    a.course == t.course && a.item == t.item && a.revision == t.revision
  }

  function CheckStartTarget(cat: Catalog, t: Target): Option<Error> {
    if t.course !in cat.courses then Some(CourseNotFound)
    else if t.item !in cat.items || cat.items[t.item] != (t.course, cat.courses[t.course]) then Some(ItemNotFound)
    else if t.revision !in cat.revisions || cat.revisions[t.revision].0 != t.item
              || cat.revisions[t.revision].1 != cat.courses[t.course] then Some(RevisionNotFound)
    else None
  }

  function NewAttempt(t: Target, clientId: Option<string>): Attempt {
    Attempt(t.user, t.course, t.item, t.revision, clientId, InProgress, false, false, None, None)
  }

  function Opened(st: Store, t: Target, clientId: Option<string>, id: Uuid, at: real): Store {
    st.(attempts := st.attempts[id := NewAttempt(t, clientId)],
        byClient := if clientId.Some? then st.byClient[clientId.value := id] else st.byClient,
        events := st.events[StartedKey(id) := Event(t.user, t.item, false, false, at)])
  }

  function Start(st: Store, cat: Catalog, t: Target, clientId: Option<string>, newId: Uuid, at: real)
    : (Store, Result<StartReply, Error>)
  {
    var bad := CheckStartTarget(cat, t);
    if bad.Some? then (st, Failure(bad.value))
    else if clientId.Some? && clientId.value != "" && clientId.value in st.byClient
        && st.byClient[clientId.value] in st.attempts then
      var id := st.byClient[clientId.value];
      var a := st.attempts[id];
      if a.user != t.user || !SameTarget(a, t) then (st, Failure(IdempotencyConflict))
      else (st, Success(StartReply(id, a.status, true)))
    else if newId in st.attempts || StartedKey(newId) in st.events
        || (clientId.Some? && clientId.value in st.byClient) then
      (st, Failure(UniqueViolation))
    else
      (Opened(st, t, clientId, newId, at), Success(StartReply(newId, InProgress, false)))
  }

  function RevealKey(attempt: Uuid, answer: bool): EventKey {
    if answer then AnswerKey(attempt) else HintKey(attempt)
  }

  function WithFlags(a: Attempt, hint: bool, answer: bool): Attempt {
    a.(hintRevealed := a.hintRevealed || hint, answerRevealed := a.answerRevealed || answer)
  }

  function Revealed(st: Store, id: Uuid, hint: bool, answer: bool, at: real): Store
    requires id in st.attempts
  {
    var a := st.attempts[id];
    st.(attempts := st.attempts[id := WithFlags(a, hint, answer)],
        events := if hint || answer
                  then st.events[RevealKey(id, answer) := Event(a.user, a.item, false, false, at)]
                  else st.events)
  }

  function Reveal(st: Store, user: Uuid, id: Uuid, hint: bool, answer: bool, at: real)
    : (Store, Result<Option<RevealReply>, Error>)
  {
    if id !in st.attempts || st.attempts[id].user != user || st.attempts[id].status != InProgress
        then (st, Success(None))
    else
      var a := st.attempts[id];
      var a' := WithFlags(a, hint, answer);
      var key := RevealKey(id, answer);
      if (hint || answer) && key in st.events then (st, Failure(UniqueViolation))
      else
        (Revealed(st, id, hint, answer, at), Success(Some(RevealReply(a'.hintRevealed, a'.answerRevealed))))
  }

  function GradeMcq(sealed: Option<string>, response: Option<string>): bool {
    sealed.Some? && response.Some? && sealed.value == response.value
  }

  function CardOf(r: Review): Fsrs.Card {
    Fsrs.Card(r.stability, r.difficulty, r.reps, r.lapses, r.dueAt, None)
  }

  function ReviewOf(c: Fsrs.Card, revision: Uuid): Review {
    Review(c.stability, c.difficulty, c.reps, c.lapses, c.dueAt, revision)
  }

  function ApplyReviewRating(reviews: map<(Uuid, Uuid), Review>, t: Target, correct: bool, revealed: bool,
                             hint: bool, at: real)
    : map<(Uuid, Uuid), Review>
  {
    var rating := Fsrs.MapOutcomeToRating(correct, revealed, hint, false, false);
    var card := if (t.user, t.item) in reviews then CardOf(reviews[(t.user, t.item)]) else Fsrs.InitialCard(at);
    reviews[(t.user, t.item) := ReviewOf(Fsrs.Schedule(card, rating, at), t.revision)]
  }

  /** `select ... where user_id and client_attempt_id`. */
  function FindAttempt(st: Store, user: Uuid, clientId: string): Option<Uuid> {
    if clientId in st.byClient && st.byClient[clientId] in st.attempts
        && st.attempts[st.byClient[clientId]].user == user
    then Some(st.byClient[clientId]) else None
  }

  predicate Unrevealed(a: Attempt) {
    !a.answerRevealed && !a.hintRevealed
  }

  function Recorded(st: Store, id: Uuid, t: Target, correct: bool, response: Option<string>,
                    confidence: Option<string>, feedbackAt: real, scheduledAt: real): Store
    requires id in st.attempts
  {
    var a := st.attempts[id];
    st.(attempts := st.attempts[id := a.(status := Graded, response := response, confidence := confidence)],
        events := st.events[GradeKey(id) := Event(t.user, t.item, Unrevealed(a), correct, feedbackAt)],
        reviews := if Unrevealed(a)
                   then ApplyReviewRating(st.reviews, t, correct, a.answerRevealed, a.hintRevealed, scheduledAt)
                   else st.reviews,
        gradings := st.gradings + [Grading(id, t.user, t.item, correct, !Unrevealed(a), scheduledAt)])
  }

  function Submit(st: Store, cat: Catalog, t: Target, clientId: Option<string>, response: Option<string>,
                  confidence: Option<string>, feedbackAt: real, scheduledAt: real)
    : (Store, Result<SubmitReply, Error>)
  {
    if confidence == None || Text.IsBlank(confidence.value) then (st, Failure(ConfidenceRequired))
    else if clientId == None || clientId.value == "" then (st, Failure(AttemptStartRequired))
    else
      var found := FindAttempt(st, t.user, clientId.value);
      if found.Some? && st.attempts[found.value].status == Graded then
        if !SameTarget(st.attempts[found.value], t) then (st, Failure(IdempotencyConflict))
        else (st, Success(SubmitReply(found.value, None, None, true)))
      else if t.course !in cat.courses then (st, Failure(CourseNotFound))
      else if t.revision !in cat.revisions || cat.revisions[t.revision].0 != t.item then (st, Failure(RevisionNotFound))
      else if found == None then (st, Failure(AttemptNotStarted))
      else
        var id := found.value;
        var a := st.attempts[id];
        if !SameTarget(a, t) then (st, Failure(AttemptTargetMismatch))
        else if GradeKey(id) in st.events then (st, Failure(UniqueViolation))
        else
          var correct := GradeMcq(cat.revisions[t.revision].2, response);
          (Recorded(st, id, t, correct, response, confidence, feedbackAt, scheduledAt),
           Success(SubmitReply(id, Some(correct), Some(Unrevealed(a)), false)))
  }

  // ---- runs ----

  datatype Call =
    | StartCall(cat: Catalog, t: Target, clientId: Option<string>, newId: Uuid, at: real)
    | RevealCall(user: Uuid, id: Uuid, hint: bool, answer: bool, at: real)
    | SubmitCall(cat: Catalog, t: Target, clientId: Option<string>, response: Option<string>,
                 confidence: Option<string>, feedbackAt: real, at: real)

  function Step(st: Store, c: Call): Store {
    match c
    case StartCall(cat, t, clientId, newId, at) => Start(st, cat, t, clientId, newId, at).0
    case RevealCall(user, id, hint, answer, at) => Reveal(st, user, id, hint, answer, at).0
    case SubmitCall(cat, t, clientId, response, confidence, feedbackAt, at) =>
      Submit(st, cat, t, clientId, response, confidence, feedbackAt, at).0
  }

  function Run(st: Store, calls: seq<Call>): Store {
    if calls == [] then st else Step(Run(st, calls[..|calls| - 1]), calls[|calls| - 1])
  }

  /** The unique index on `client_attempt_id` names the rows that carry it. */
  ghost predicate IndexSound(attempts: map<Uuid, Attempt>, byClient: map<string, Uuid>) {
    && (forall c :: c in byClient ==> byClient[c] in attempts && attempts[byClient[c]].clientId == Some(c))
    && (forall a :: a in attempts && attempts[a].clientId.Some? ==>
          attempts[a].clientId.value in byClient && byClient[attempts[a].clientId.value] == a)
  }

  /** The events of one attempt agree with its row. */
  ghost predicate RowSound(id: Uuid, row: Attempt, events: map<EventKey, Event>) {
    && StartedKey(id) in events
    && (row.status == Graded <==> GradeKey(id) in events)
    && (row.answerRevealed <==> AnswerKey(id) in events)
    && (HintKey(id) in events ==> row.hintRevealed)
    && (row.hintRevealed ==> HintKey(id) in events || AnswerKey(id) in events)
  }

  ghost predicate EventsSound(attempts: map<Uuid, Attempt>, events: map<EventKey, Event>) {
    && (forall k :: k in events ==> k.attempt in attempts)
    && (forall a :: a in attempts ==> RowSound(a, attempts[a], events))
  }

  /** A grading's attempt is graded, and its event is eligible exactly when nothing was revealed. */
  ghost predicate GradingSound(g: Grading, attempts: map<Uuid, Attempt>, events: map<EventKey, Event>) {
    && g.attempt in attempts && GradeKey(g.attempt) in events
    && attempts[g.attempt].status == Graded
    && attempts[g.attempt].user == g.user && attempts[g.attempt].item == g.item
    && g.revealed == !Unrevealed(attempts[g.attempt])
    && events[GradeKey(g.attempt)].eligible == !g.revealed && events[GradeKey(g.attempt)].correct == g.correct
  }

  /** Grade events and gradings are in bijection: one each per graded attempt. */
  ghost predicate GradingsSound(attempts: map<Uuid, Attempt>, events: map<EventKey, Event>, gradings: seq<Grading>) {
    && (forall i, j :: 0 <= i < j < |gradings| ==> gradings[i].attempt != gradings[j].attempt)
    && (forall a :: GradeKey(a) in events ==> exists i :: 0 <= i < |gradings| && gradings[i].attempt == a)
    && (forall i :: 0 <= i < |gradings| ==> GradingSound(gradings[i], attempts, events))
  }

  /** GOOD or AGAIN for each grading of this user and item that no reveal preceded, in order. */
  function History(gradings: seq<Grading>, user: Uuid, item: Uuid): seq<Fsrs.Review> {
    if gradings == [] then []
    else
      var init, g := gradings[..|gradings| - 1], gradings[|gradings| - 1];
      if g.user == user && g.item == item && !g.revealed
      then History(init, user, item) + [Fsrs.Review(if g.correct then Fsrs.Good else Fsrs.Again, g.at)]
      else History(init, user, item)
  }

  ghost predicate SameState(r: Review, c: Fsrs.Card) {
    r.stability == c.stability && r.difficulty == c.difficulty && r.reps == c.reps && r.lapses == c.lapses
        && r.dueAt == c.dueAt
  }

  /** The stored review state is the scheduler's fold over the eligible history, for every user and item. */
  ghost predicate ReviewsAreFolds(reviews: map<(Uuid, Uuid), Review>, gradings: seq<Grading>) {
    forall user: Uuid, item: Uuid :: IsFold(reviews, user, item, History(gradings, user, item))
  }

  ghost predicate IsFold(reviews: map<(Uuid, Uuid), Review>, user: Uuid, item: Uuid, h: seq<Fsrs.Review>) {
    && ((user, item) in reviews <==> h != [])
    && ((user, item) in reviews ==> SameState(reviews[(user, item)], Fsrs.Replay(h[0].at, h)))
  }

  ghost predicate Sound(st: Store) {
    && IndexSound(st.attempts, st.byClient)
    && EventsSound(st.attempts, st.events)
    && GradingsSound(st.attempts, st.events, st.gradings)
    && ReviewsAreFolds(st.reviews, st.gradings)
  }

  // ---- every call keeps the rows sound ----

  /** Writing one row and one of its events leaves the other rows' agreement alone. */
  lemma EventsFrame(attempts: map<Uuid, Attempt>, events: map<EventKey, Event>, id: Uuid, row: Attempt,
                    events': map<EventKey, Event>)
    requires EventsSound(attempts, events)
    requires RowSound(id, row, events')
    requires forall k :: k in events' ==> k in events || k.attempt == id
    requires forall k :: k in events ==> k in events'
    ensures EventsSound(attempts[id := row], events')
  {
    forall a | a in attempts && a != id ensures RowSound(a, attempts[a], events') {
      assert RowSound(a, attempts[a], events);
      assert StartedKey(a).attempt == HintKey(a).attempt == AnswerKey(a).attempt == GradeKey(a).attempt == a;
    }
  }

  /** Gradings only read graded rows and grade events. */
  lemma GradingsFrame(attempts: map<Uuid, Attempt>, events: map<EventKey, Event>, gradings: seq<Grading>, id: Uuid,
                      row: Attempt, key: EventKey, event: Event)
    requires GradingsSound(attempts, events, gradings) && EventsSound(attempts, events)
    requires !key.GradeKey? && (id in attempts ==> attempts[id].status == InProgress)
    ensures GradingsSound(attempts[id := row], events, gradings)
    ensures GradingsSound(attempts[id := row], events[key := event], gradings)
  {
    hide EventsSound;
    forall i | 0 <= i < |gradings|
      ensures GradingSound(gradings[i], attempts[id := row], events)
      ensures GradingSound(gradings[i], attempts[id := row], events[key := event])
    {
      assert GradingSound(gradings[i], attempts, events);
    }
  }

  /** Rewriting a row without touching its client id keeps the index. */
  lemma IndexFrame(attempts: map<Uuid, Attempt>, byClient: map<string, Uuid>, id: Uuid, row: Attempt)
    requires IndexSound(attempts, byClient)
    requires id in attempts && attempts[id].clientId == row.clientId
    ensures IndexSound(attempts[id := row], byClient)
  {
  }

  lemma IndexGrows(attempts: map<Uuid, Attempt>, byClient: map<string, Uuid>, id: Uuid, row: Attempt)
    requires IndexSound(attempts, byClient) && id !in attempts
    requires row.clientId.Some? ==> row.clientId.value !in byClient
    ensures IndexSound(attempts[id := row], if row.clientId.Some? then byClient[row.clientId.value := id] else byClient)
  {
  }

  lemma OpenedIsSound(st: Store, t: Target, clientId: Option<string>, id: Uuid, at: real)
    requires Sound(st)
    requires id !in st.attempts && (clientId.Some? ==> clientId.value !in st.byClient)
    ensures Sound(Opened(st, t, clientId, id, at))
  {
    hide RowSound;
    hide GradingsSound;
    hide ReviewsAreFolds;
    hide IndexSound;
    var st' := Opened(st, t, clientId, id, at);
    var row := NewAttempt(t, clientId);
    assert RowSound(id, row, st'.events) by { NewRowIsSound(st, id, row, st'.events[StartedKey(id)]); }
    EventsFrame(st.attempts, st.events, id, row, st'.events);
    GradingsFrame(st.attempts, st.events, st.gradings, id, row, StartedKey(id), st'.events[StartedKey(id)]);
    IndexGrows(st.attempts, st.byClient, id, row);
  }

  lemma NewRowIsSound(st: Store, id: Uuid, row: Attempt, event: Event)
    requires EventsSound(st.attempts, st.events) && id !in st.attempts
    requires row.status == InProgress && Unrevealed(row)
    ensures RowSound(id, row, st.events[StartedKey(id) := event])
  {
    assert GradeKey(id).attempt == HintKey(id).attempt == AnswerKey(id).attempt == id;
  }

  lemma RevealedIsSound(st: Store, id: Uuid, hint: bool, answer: bool, at: real)
    requires Sound(st)
    requires id in st.attempts && st.attempts[id].status == InProgress
    ensures Sound(Revealed(st, id, hint, answer, at))
  {
    hide RowSound;
    hide GradingsSound;
    hide ReviewsAreFolds;
    hide IndexSound;
    var st' := Revealed(st, id, hint, answer, at);
    var a := st.attempts[id];
    var row := WithFlags(a, hint, answer);
    var event := Event(a.user, a.item, false, false, at);
    RevealedRow(id, a, hint, answer, st.events, event);
    EventsFrame(st.attempts, st.events, id, row, st'.events);
    GradingsFrame(st.attempts, st.events, st.gradings, id, row, RevealKey(id, answer), event);
    IndexFrame(st.attempts, st.byClient, id, row);
  }

  lemma RevealedRow(id: Uuid, a: Attempt, hint: bool, answer: bool, events: map<EventKey, Event>, event: Event)
    requires RowSound(id, a, events)
    ensures RowSound(id, WithFlags(a, hint, answer), if hint || answer then events[RevealKey(id, answer) := event]
            else events)
  {
  }

  /** A grading extends the history of its own user and item, and only when nothing was revealed. */
  lemma HistoryExtends(gradings: seq<Grading>, g: Grading, user: Uuid, item: Uuid)
    ensures History(gradings + [g], user, item) ==
              if g.user == user && g.item == item && !g.revealed
              then History(gradings, user, item) + [Fsrs.Review(if g.correct then Fsrs.Good else Fsrs.Again, g.at)]
              else History(gradings, user, item)
  {
    assert (gradings + [g])[..|gradings|] == gradings;
  }

  /** The scheduler reads neither the due date nor the last review date of the card it is given. */
  lemma ScheduleReadsFieldsOnly(r: Review, c: Fsrs.Card, rating: Fsrs.Rating, now: real)
    requires SameState(r, c)
    ensures Fsrs.Schedule(CardOf(r), rating, now) == Fsrs.Schedule(c, rating, now)
  {
    hide Fsrs.Round4;
  }

  lemma ReplayExtends(created: real, h: seq<Fsrs.Review>, r: Fsrs.Review)
    ensures Fsrs.Replay(created, h + [r]) == Fsrs.Schedule(Fsrs.Replay(created, h), r.rating, r.at)
  {
    assert (h + [r])[..|h|] == h;
  }

  lemma RatingExtendsFold(reviews: map<(Uuid, Uuid), Review>, t: Target, correct: bool, h: seq<Fsrs.Review>, at: real)
    requires IsFold(reviews, t.user, t.item, h)
    ensures var r := Fsrs.Review(if correct then Fsrs.Good else Fsrs.Again, at);
            IsFold(ApplyReviewRating(reviews, t, correct, false, false, at), t.user, t.item, h + [r])
  {
    hide Fsrs.Schedule;
    hide Fsrs.Replay;
    var r := Fsrs.Review(if correct then Fsrs.Good else Fsrs.Again, at);
    if h == [] {
      FirstReplay(at, r);
      assert h + [r] == [r];
    } else {
      ReplayExtends(h[0].at, h, r);
      ScheduleReadsFieldsOnly(reviews[(t.user, t.item)], Fsrs.Replay(h[0].at, h), r.rating, at);
    }
  }

  lemma RecordedKeepsFolds(st: Store, id: Uuid, t: Target, correct: bool, response: Option<string>,
                           confidence: Option<string>, feedbackAt: real, at: real)
    requires ReviewsAreFolds(st.reviews, st.gradings) && id in st.attempts
    ensures var st' := Recorded(st, id, t, correct, response, confidence, feedbackAt, at);
            ReviewsAreFolds(st'.reviews, st'.gradings)
  {
    var st' := Recorded(st, id, t, correct, response, confidence, feedbackAt, at);
    var g := Grading(id, t.user, t.item, correct, !Unrevealed(st.attempts[id]), at);
    assert st'.gradings == st.gradings + [g];
    forall user: Uuid, item: Uuid ensures IsFold(st'.reviews, user, item, History(st'.gradings, user, item)) {
      HistoryExtends(st.gradings, g, user, item);
      var h := History(st.gradings, user, item);
      assert IsFold(st.reviews, user, item, h);
      hide Fsrs.Schedule;
      hide Fsrs.Replay;
      if g.user == user && g.item == item && !g.revealed {
        RatingExtendsFold(st.reviews, t, correct, h, at);
      }
    }
  }

  lemma FirstReplay(created: real, r: Fsrs.Review)
    ensures Fsrs.Replay(created, [r]) == Fsrs.Schedule(Fsrs.InitialCard(created), r.rating, r.at)
  {
    assert [r][..0] == [];
    assert Fsrs.Replay(created, [r][..0]) == Fsrs.InitialCard(created);
  }

  lemma RecordedIsSound(st: Store, id: Uuid, t: Target, correct: bool, response: Option<string>,
                        confidence: Option<string>, feedbackAt: real, at: real)
    requires Sound(st)
    requires id in st.attempts && st.attempts[id].status == InProgress && TargetOf(st.attempts[id]) == t
    ensures Sound(Recorded(st, id, t, correct, response, confidence, feedbackAt, at))
  {
    hide RowSound;
    hide GradingsSound;
    hide ReviewsAreFolds;
    hide IndexSound;
    hide ApplyReviewRating;
    RecordedKeepsFolds(st, id, t, correct, response, confidence, feedbackAt, at);
    var st' := Recorded(st, id, t, correct, response, confidence, feedbackAt, at);
    var a := st.attempts[id];
    var row := a.(status := Graded, response := response, confidence := confidence);
    var g := Grading(id, t.user, t.item, correct, !Unrevealed(a), at);
    var event := Event(t.user, t.item, Unrevealed(a), correct, feedbackAt);
    GradingsGrow(st.attempts, st.events, st.gradings, row, g, event);
    RecordedRow(id, a, row, st.events, event);
    EventsFrame(st.attempts, st.events, id, row, st'.events);
    IndexFrame(st.attempts, st.byClient, id, row);
  }

  lemma RecordedRow(id: Uuid, a: Attempt, row: Attempt, events: map<EventKey, Event>, event: Event)
    requires RowSound(id, a, events)
    requires row.status == Graded && row.hintRevealed == a.hintRevealed && row.answerRevealed == a.answerRevealed
    ensures RowSound(id, row, events[GradeKey(id) := event])
  {
  }

  lemma GradingsGrow(attempts: map<Uuid, Attempt>, events: map<EventKey, Event>, gradings: seq<Grading>,
                     row: Attempt, g: Grading, event: Event)
    requires GradingsSound(attempts, events, gradings)
    requires g.attempt in attempts && attempts[g.attempt].status == InProgress
    requires row.status == Graded && row.user == g.user && row.item == g.item && g.revealed == !Unrevealed(row)
    requires event.eligible == !g.revealed && event.correct == g.correct
    ensures GradingsSound(attempts[g.attempt := row], events[GradeKey(g.attempt) := event], gradings + [g])
  {
    var attempts', events', all := attempts[g.attempt := row], events[GradeKey(g.attempt) := event], gradings + [g];
    var n := |gradings|;
    forall i | 0 <= i < n ensures all[i].attempt != g.attempt && GradingSound(all[i], attempts', events') {
      assert GradingSound(gradings[i], attempts, events);
    }
    assert all[n] == g && GradingSound(g, attempts', events');
    forall a | GradeKey(a) in events' ensures exists i :: 0 <= i < |all| && all[i].attempt == a {
      if a == g.attempt {
        assert all[n].attempt == a;
      } else {
        var i :| 0 <= i < n && gradings[i].attempt == a;
        assert all[i].attempt == a;
      }
    }
  }

  lemma OutcomeOfSubmit(st: Store, cat: Catalog, t: Target, clientId: Option<string>, response: Option<string>,
                        confidence: Option<string>, feedbackAt: real, at: real)
    requires Sound(st)
    ensures Sound(Submit(st, cat, t, clientId, response, confidence, feedbackAt, at).0)
  {
    hide Sound;
    hide Recorded;
    if clientId.Some? {
      var found := FindAttempt(st, t.user, clientId.value);
      if found.Some? && t.revision in cat.revisions {
        var id := found.value;
        var correct := GradeMcq(cat.revisions[t.revision].2, response);
        if st.attempts[id].status == InProgress && SameTarget(st.attempts[id], t) {
          RecordedIsSound(st, id, t, correct, response, confidence, feedbackAt, at);
        }
      }
    }
  }

  /** A started attempt that is not graded is in progress, so its grade key is free. */
  lemma StartedGradeKey(st: Store, user: Uuid, clientId: string)
    requires EventsSound(st.attempts, st.events)
    ensures var found := FindAttempt(st, user, clientId);
            found.Some? && st.attempts[found.value].status == InProgress ==> GradeKey(found.value) !in st.events
  {
  }

  lemma OutcomeOfStart(st: Store, cat: Catalog, t: Target, clientId: Option<string>, newId: Uuid, at: real)
    requires Sound(st)
    ensures Sound(Start(st, cat, t, clientId, newId, at).0)
  {
    hide Sound;
    hide Opened;
    if newId !in st.attempts && (clientId.Some? ==> clientId.value !in st.byClient) {
      OpenedIsSound(st, t, clientId, newId, at);
    }
  }

  lemma OutcomeOfReveal(st: Store, user: Uuid, id: Uuid, hint: bool, answer: bool, at: real)
    requires Sound(st)
    ensures Sound(Reveal(st, user, id, hint, answer, at).0)
  {
    hide Sound;
    hide Revealed;
    if id in st.attempts && st.attempts[id].status == InProgress {
      RevealedIsSound(st, id, hint, answer, at);
    }
  }

  lemma StepKeepsSound(st: Store, c: Call)
    requires Sound(st)
    ensures Sound(Step(st, c))
  {
    match c
    case StartCall(cat, t, clientId, newId, at) => OutcomeOfStart(st, cat, t, clientId, newId, at);
    case RevealCall(user, id, hint, answer, at) => OutcomeOfReveal(st, user, id, hint, answer, at);
    case SubmitCall(cat, t, clientId, response, confidence, feedbackAt, at) =>
      OutcomeOfSubmit(st, cat, t, clientId, response, confidence, feedbackAt, at);
  }

  /** Over every run from empty tables the stored review states are folds over graded history. */
  lemma {:induction false} RunKeepsSound(st: Store, calls: seq<Call>)
    requires Sound(st)
    ensures Sound(Run(st, calls))
  {
    hide Sound;
    hide Step;
    if calls != [] {
      RunKeepsSound(st, calls[..|calls| - 1]);
      StepKeepsSound(Run(st, calls[..|calls| - 1]), calls[|calls| - 1]);
    }
  }

  lemma EmptyIsSound()
    ensures Sound(EMPTY)
  {
  }

  // ---- what a run can do to one attempt ----

  /** From one store to a later one: nothing disappears, flags only turn on, graded rows are frozen. */
  ghost predicate Advances(st: Store, st': Store) {
    && (forall a :: a in st.attempts ==>
          && a in st'.attempts
          && st'.attempts[a].user == st.attempts[a].user && SameTarget(st'.attempts[a], TargetOf(st.attempts[a]))
          && (st.attempts[a].hintRevealed ==> st'.attempts[a].hintRevealed)
          && (st.attempts[a].answerRevealed ==> st'.attempts[a].answerRevealed)
          && (st.attempts[a].status == Graded ==> st'.attempts[a] == st.attempts[a]))
    && (forall k :: k in st.events ==> k in st'.events && st'.events[k] == st.events[k])
    && st.gradings <= st'.gradings
  }

  function TargetOf(a: Attempt): Target {
    Target(a.user, a.course, a.item, a.revision)
  }

  lemma RowAdvances(st: Store, st': Store, id: Uuid)
    requires id in st'.attempts && st'.attempts == st.attempts[id := st'.attempts[id]]
    requires id in st.attempts ==>
               && st.attempts[id].status == InProgress
               && TargetOf(st'.attempts[id]) == TargetOf(st.attempts[id])
               && (st.attempts[id].hintRevealed ==> st'.attempts[id].hintRevealed)
               && (st.attempts[id].answerRevealed ==> st'.attempts[id].answerRevealed)
    requires forall k :: k in st.events ==> k in st'.events && st'.events[k] == st.events[k]
    requires st.gradings <= st'.gradings
    ensures Advances(st, st')
  {
  }

  lemma StepAdvances(st: Store, c: Call)
    ensures Advances(st, Step(st, c))
  {
    var st' := Step(st, c);
    if st' != st {
      hide Advances;
      match c {
        case StartCall(cat, t, clientId, newId, at) =>
          RowAdvances(st, st', newId);
        case RevealCall(user, id, hint, answer, at) =>
          RowAdvances(st, st', id);
        case SubmitCall(cat, t, clientId, response, confidence, feedbackAt, at) =>
          SubmitAdvances(st, cat, t, clientId, response, confidence, feedbackAt, at);
      }
    }
  }

  lemma SubmitAdvances(st: Store, cat: Catalog, t: Target, clientId: Option<string>, response: Option<string>,
                       confidence: Option<string>, feedbackAt: real, at: real)
    ensures var st' := Submit(st, cat, t, clientId, response, confidence, feedbackAt, at).0;
            st' == st || Advances(st, st')
  {
    hide Advances;
    hide ApplyReviewRating;
    var st' := Submit(st, cat, t, clientId, response, confidence, feedbackAt, at).0;
    if st' != st {
      RowAdvances(st, st', FindAttempt(st, t.user, clientId.value).value);
    }
  }

  lemma {:induction false} RunAdvances(st: Store, calls: seq<Call>)
    ensures Advances(st, Run(st, calls))
  {
    hide Step;
    if calls != [] {
      RunAdvances(st, calls[..|calls| - 1]);
      StepAdvances(Run(st, calls[..|calls| - 1]), calls[|calls| - 1]);
    }
  }

  // ---- what each call answers and writes ----

  /** The revision has a sealed option and the response is that option. */
  ghost predicate AnswersSealed(cat: Catalog, revision: Uuid, response: Option<string>) {
    revision in cat.revisions && response.Some? && cat.revisions[revision].2 == response
  }

  /**
   * When a submission records a grade, the reply, the event and the grading are correct exactly when the
   * revision's sealed option is there and equals the response, and eligible exactly when nothing was
   * revealed; besides them only the attempt's own row and, if eligible, the learner's review of this item
   * are written.
   */
  lemma GradeFollowsSealedOption(st: Store, cat: Catalog, t: Target, clientId: Option<string>,
                                 response: Option<string>, confidence: Option<string>, feedbackAt: real, at: real)
    requires Sound(st)
    ensures var (st', r) := Submit(st, cat, t, clientId, response, confidence, feedbackAt, at);
            st'.gradings != st.gradings ==>
              && r.Success? && r.value.attempt in st.attempts
              && var id, row := r.value.attempt, st.attempts[r.value.attempt];
              var right, clean := AnswersSealed(cat, t.revision, response), !row.hintRevealed && !row.answerRevealed;
              && row.clientId == clientId && TargetOf(row) == t && row.status == InProgress
              && r.value == SubmitReply(id, Some(right), Some(clean), false)
              && st'.gradings == st.gradings + [Grading(id, t.user, t.item, right, !clean, at)]
              && st'.events == st.events[GradeKey(id) := Event(t.user, t.item, clean, right, feedbackAt)]
              && st'.attempts == st.attempts[id := row.(status := Graded, response := response,
                                                        confidence := confidence)]
              && st'.byClient == st.byClient
              && OnlyReviewOf(st.reviews, st'.reviews, t, clean)
  {
    hide Fsrs.Schedule;
    hide GradingsSound;
    hide ReviewsAreFolds;
    hide EventsSound;
  }

  /** No review is written, or just the learner's review of this item, under this revision. */
  ghost predicate OnlyReviewOf(reviews: map<(Uuid, Uuid), Review>, reviews': map<(Uuid, Uuid), Review>, t: Target,
                               written: bool)
  {
    if written then
      && (t.user, t.item) in reviews' && reviews'[(t.user, t.item)].revision == t.revision
      && reviews' == reviews[(t.user, t.item) := reviews'[(t.user, t.item)]]
    else reviews' == reviews
  }

  /** This submission graded this attempt: it named it, it is what the row holds, and it decided the grade. */
  ghost predicate GradedBy(g: Grading, row: Attempt, c: Call) {
    && c.SubmitCall? && c.t == TargetOf(row) && c.clientId == row.clientId
    && row.response == c.response && row.confidence == c.confidence && g.at == c.at
    && (g.correct <==> AnswersSealed(c.cat, c.t.revision, c.response))
  }

  ghost predicate GradedBySome(g: Grading, row: Attempt, calls: seq<Call>) {
    exists i :: 0 <= i < |calls| && GradedBy(g, row, calls[i])
  }

  ghost predicate GradingsFollow(st: Store, calls: seq<Call>) {
    forall k :: 0 <= k < |st.gradings| ==>
      st.gradings[k].attempt in st.attempts
      && GradedBySome(st.gradings[k], st.attempts[st.gradings[k].attempt], calls)
  }

  /** Over every run each grading is the grade of one submission's response against the sealed option. */
  lemma {:induction false} GradingsFollowCalls(calls: seq<Call>)
    ensures GradingsFollow(Run(EMPTY, calls), calls)
  {
    if calls != [] {
      var front, c := calls[..|calls| - 1], calls[|calls| - 1];
      var st := Run(EMPTY, front);
      GradingsFollowCalls(front);
      EmptyIsSound();
      RunKeepsSound(EMPTY, front);
      StepAdvances(st, c);
      EarlierGradingsFollow(st, Step(st, c), front, c);
      if Step(st, c).gradings != st.gradings {
        LastGradingFollows(st, c);
      }
      hide *;
      assert Run(EMPTY, calls) == Step(st, c) by { RunSnoc(calls); }
      assert calls == front + [c];
      GradingsFollowSnoc(st, Step(st, c), front, c);
    }
  }

  lemma RunSnoc(calls: seq<Call>)
    requires calls != []
    ensures Run(EMPTY, calls) == Step(Run(EMPTY, calls[..|calls| - 1]), calls[|calls| - 1])
  {
  }

  /** The earlier gradings' rows are graded, hence frozen. */
  lemma EarlierGradingsFollow(st: Store, st': Store, calls: seq<Call>, c: Call)
    requires Sound(st) && Advances(st, st') && GradingsFollow(st, calls)
    ensures st.gradings <= st'.gradings
    ensures forall k :: 0 <= k < |st.gradings| ==>
              st.gradings[k].attempt in st'.attempts
              && GradedBySome(st.gradings[k], st'.attempts[st.gradings[k].attempt], calls + [c])
  {
    hide GradedBy;
    hide ReviewsAreFolds;
    hide EventsSound;
    hide IndexSound;
    forall k | 0 <= k < |st.gradings|
      ensures st.gradings[k].attempt in st'.attempts
              && GradedBySome(st.gradings[k], st'.attempts[st.gradings[k].attempt], calls + [c])
    {
      var g := st.gradings[k];
      assert GradingSound(g, st.attempts, st.events);
      var i :| 0 <= i < |calls| && GradedBy(g, st.attempts[g.attempt], calls[i]);
      assert (calls + [c])[i] == calls[i];
    }
  }

  lemma OnlySubmitsGrade(st: Store, c: Call)
    requires Step(st, c).gradings != st.gradings
    ensures c.SubmitCall?
  {
  }

  lemma LastGradingFollows(st: Store, c: Call)
    requires Sound(st) && Step(st, c).gradings != st.gradings
    ensures var st' := Step(st, c);
            && |st'.gradings| == |st.gradings| + 1
            && var g := st'.gradings[|st.gradings|];
            g.attempt in st'.attempts && GradedBy(g, st'.attempts[g.attempt], c)
  {
    assert c.SubmitCall? by { OnlySubmitsGrade(st, c); }
    GradeFollowsSealedOption(st, c.cat, c.t, c.clientId, c.response, c.confidence, c.feedbackAt, c.at);
    hide Submit;
    hide Sound;
    hide AnswersSealed;
    hide OnlyReviewOf;
  }

  lemma GradingsFollowSnoc(st: Store, st': Store, calls: seq<Call>, c: Call)
    requires st.gradings <= st'.gradings
    requires forall k :: 0 <= k < |st.gradings| ==>
               st.gradings[k].attempt in st'.attempts
               && GradedBySome(st.gradings[k], st'.attempts[st.gradings[k].attempt], calls + [c])
    requires st'.gradings != st.gradings ==>
               && |st'.gradings| == |st.gradings| + 1
               && var g := st'.gradings[|st.gradings|];
               g.attempt in st'.attempts && GradedBy(g, st'.attempts[g.attempt], c)
    ensures GradingsFollow(st', calls + [c])
  {
    hide GradedBy;
    var all := calls + [c];
    forall k | 0 <= k < |st'.gradings|
      ensures st'.gradings[k].attempt in st'.attempts
              && GradedBySome(st'.gradings[k], st'.attempts[st'.gradings[k].attempt], all)
    {
      if k < |st.gradings| {
        assert st'.gradings[k] == st.gradings[k];
      } else {
        assert all[|calls|] == c;
      }
    }
  }

  /** The caller's own attempt under a client id. */
  ghost predicate Mine(st: Store, id: Uuid, user: Uuid, clientId: Option<string>) {
    id in st.attempts && st.attempts[id].user == user && st.attempts[id].clientId == clientId
  }

  ghost predicate HasAny(st: Store, user: Uuid, clientId: Option<string>) {
    exists a :: Mine(st, a, user, clientId)
  }

  ghost predicate HasGraded(st: Store, user: Uuid, clientId: Option<string>) {
    exists a :: Mine(st, a, user, clientId) && st.attempts[a].status == Graded
  }

  /** The caller's attempt under this client id is for something else. */
  ghost predicate HasOther(st: Store, t: Target, clientId: Option<string>) {
    exists a :: Mine(st, a, t.user, clientId) && TargetOf(st.attempts[a]) != t
  }

  /** Which refusal or replay a submission gets, in terms of the caller's own attempt under its client id. */
  lemma SubmitAnswers(st: Store, cat: Catalog, t: Target, clientId: Option<string>, response: Option<string>,
                      confidence: Option<string>, feedbackAt: real, at: real)
    requires IndexSound(st.attempts, st.byClient) && EventsSound(st.attempts, st.events)
    ensures var r := Submit(st, cat, t, clientId, response, confidence, feedbackAt, at).1;
            var confident := confidence.Some? && exists c :: c in confidence.value && !Text.IsSpace(c);
            var named := confident && clientId.Some? && clientId.value != "";
            var graded := HasGraded(st, t.user, clientId);
            var known := named && !graded && t.course in cat.courses;
            var revised := known && t.revision in cat.revisions && cat.revisions[t.revision].0 == t.item;
            && (r == Failure(ConfidenceRequired) <==> !confident)
            && (r == Failure(AttemptStartRequired) <==> confident && !named)
            && (r == Failure(IdempotencyConflict) <==> named && graded && HasOther(st, t, clientId))
            && (r == Failure(CourseNotFound) <==> named && !graded && !known)
            && (r == Failure(RevisionNotFound) <==> known && !revised)
            && (r == Failure(AttemptNotStarted) <==> revised && !HasAny(st, t.user, clientId))
            && (r == Failure(AttemptTargetMismatch) <==> revised && HasOther(st, t, clientId))
            && r != Failure(UniqueViolation)
            && (r.Success? ==> Mine(st, r.value.attempt, t.user, clientId) && (r.value.idempotent <==> graded))
  {
    hide Recorded;
    if clientId.Some? {
      StartedGradeKey(st, t.user, clientId.value);
      FoundIsMine(st, t, clientId.value);
    }
    hide FindAttempt;
    hide EventsSound;
    hide IndexSound;
    hide HasGraded;
    hide HasOther;
  }

  lemma FoundIsMine(st: Store, t: Target, clientId: string)
    requires IndexSound(st.attempts, st.byClient)
    ensures var found := FindAttempt(st, t.user, clientId);
            && (HasAny(st, t.user, Some(clientId)) <==> found.Some?)
            && (found.Some? ==> Mine(st, found.value, t.user, Some(clientId)))
            && (HasGraded(st, t.user, Some(clientId)) <==> found.Some? && st.attempts[found.value].status == Graded)
            && (HasOther(st, t, Some(clientId)) <==> found.Some? && TargetOf(st.attempts[found.value]) != t)
  {
    var found := FindAttempt(st, t.user, clientId);
    assert forall a: Uuid :: Mine(st, a, t.user, Some(clientId)) ==> found == Some(a);
    assert found.Some? ==> Mine(st, found.value, t.user, Some(clientId));
    hide FindAttempt;
  }

  /** Course, item and revision belong together. */
  ghost predicate ItemInCourse(cat: Catalog, t: Target) {
    t.course in cat.courses && t.item in cat.items && cat.items[t.item] == (t.course, cat.courses[t.course])
  }

  ghost predicate RevisionOfItem(cat: Catalog, t: Target) {
    && ItemInCourse(cat, t)
    && t.revision in cat.revisions && cat.revisions[t.revision].0 == t.item
    && cat.revisions[t.revision].1 == cat.courses[t.course]
  }

  /** Some attempt carries this client id. */
  ghost predicate ClientIdUsed(st: Store, clientId: Option<string>) {
    exists a :: a in st.attempts && clientId.Some? && st.attempts[a].clientId == clientId
  }

  ghost predicate UsedByOther(st: Store, t: Target, clientId: Option<string>) {
    exists a :: a in st.attempts && clientId.Some? && st.attempts[a].clientId == clientId
                && TargetOf(st.attempts[a]) != t
  }

  lemma StartTargetChecks(cat: Catalog, t: Target)
    ensures var bad := CheckStartTarget(cat, t);
      && (bad == Some(CourseNotFound) <==> t.course !in cat.courses)
      && (bad == Some(ItemNotFound) <==> t.course in cat.courses && !ItemInCourse(cat, t))
      && (bad == Some(RevisionNotFound) <==> ItemInCourse(cat, t) && !RevisionOfItem(cat, t))
      && (bad == None <==> RevisionOfItem(cat, t))
      && (bad.Some? ==> bad.value == CourseNotFound || bad.value == ItemNotFound || bad.value == RevisionNotFound)
  {
  }

  /** Which refusal a start gets. */
  lemma StartRefusals(st: Store, cat: Catalog, t: Target, clientId: Option<string>, newId: Uuid, at: real)
    requires IndexSound(st.attempts, st.byClient) && EventsSound(st.attempts, st.events)
    ensures var (st', r) := Start(st, cat, t, clientId, newId, at);
            var used := ClientIdUsed(st, clientId);
            && (r == Failure(CourseNotFound) <==> t.course !in cat.courses)
            && (r == Failure(ItemNotFound) <==> t.course in cat.courses && !ItemInCourse(cat, t))
            && (r == Failure(RevisionNotFound) <==> ItemInCourse(cat, t) && !RevisionOfItem(cat, t))
            && (r == Failure(IdempotencyConflict) <==>
                  RevisionOfItem(cat, t) && clientId != Some("") && UsedByOther(st, t, clientId))
            && (r == Failure(UniqueViolation) <==>
                  RevisionOfItem(cat, t) && (used ==> clientId == Some("")) && (used || newId in st.attempts))
            && (r.Failure? ==> st' == st)
  {
    StartTargetChecks(cat, t);
    StartedKeyIsFree(st, newId);
    UsedIsIndexed(st, t, clientId);
    hide EventsSound;
    hide IndexSound;
    hide ClientIdUsed;
    hide UsedByOther;
    hide CheckStartTarget;
    hide ItemInCourse;
    hide RevisionOfItem;
    hide Opened;
  }

  /** A repeated start is answered with the attempt it started, a new one with a new attempt. */
  lemma StartReplies(st: Store, cat: Catalog, t: Target, clientId: Option<string>, newId: Uuid, at: real)
    requires IndexSound(st.attempts, st.byClient)
    ensures var (st', r) := Start(st, cat, t, clientId, newId, at);
            r.Success? ==>
              if r.value.idempotent then
                && st' == st && clientId.Some? && r.value.attempt in st.attempts
                && var row := st.attempts[r.value.attempt];
                row.clientId == clientId && TargetOf(row) == t && r.value.status == row.status
              else r.value == StartReply(newId, InProgress, false)
  {
    UsedIsIndexed(st, t, clientId);
    hide IndexSound;
    hide CheckStartTarget;
    hide Opened;
  }

  lemma StartedKeyIsFree(st: Store, id: Uuid)
    requires EventsSound(st.attempts, st.events)
    ensures id !in st.attempts ==> StartedKey(id) !in st.events
  {
    assert StartedKey(id).attempt == id;
  }

  /** What a fresh attempt holds, and the event that announces it. */
  lemma StartedRow(st: Store, cat: Catalog, t: Target, clientId: Option<string>, newId: Uuid, at: real)
    ensures var (st', r) := Start(st, cat, t, clientId, newId, at);
            r.Success? && !r.value.idempotent ==>
              && newId in st'.attempts
              && var row := st'.attempts[newId];
              && TargetOf(row) == t && row.clientId == clientId && row.status == InProgress
              && !row.hintRevealed && !row.answerRevealed && row.response == None && row.confidence == None
              && st'.events == st.events[StartedKey(newId) := Event(t.user, t.item, false, false, at)]
  {
  }

  lemma UsedIsIndexed(st: Store, t: Target, clientId: Option<string>)
    requires IndexSound(st.attempts, st.byClient)
    ensures var used := clientId.Some? && clientId.value in st.byClient;
            && (used ==> st.byClient[clientId.value] in st.attempts
                         && st.attempts[st.byClient[clientId.value]].clientId == clientId)
            && (ClientIdUsed(st, clientId) <==> used)
            && (UsedByOther(st, t, clientId) <==> used && TargetOf(st.attempts[st.byClient[clientId.value]]) != t)
            && forall a :: a in st.attempts && clientId.Some? && st.attempts[a].clientId == clientId ==>
                 used && st.byClient[clientId.value] == a
  {
  }

  /** What a reveal answers, and that it writes the flags it was asked for and one ineligible event. */
  lemma RevealAnswers(st: Store, user: Uuid, id: Uuid, hint: bool, answer: bool, at: real)
    ensures var (st', r) := Reveal(st, user, id, hint, answer, at);
            var open := id in st.attempts && st.attempts[id].user == user && st.attempts[id].status == InProgress;
            var key := if answer then AnswerKey(id) else HintKey(id);
            && (r == Success(None) <==> !open)
            && (r == Failure(UniqueViolation) <==> open && (hint || answer) && key in st.events)
            && (r.Failure? ==> r.error == UniqueViolation)
            && (r.Success? && r.value.Some? ==>
                  && st'.attempts.Keys == st.attempts.Keys
                  && (forall a :: a in st.attempts && a != id ==> st'.attempts[a] == st.attempts[a])
                  && var row, row' := st.attempts[id], st'.attempts[id];
                  && row'.hintRevealed == (row.hintRevealed || hint)
                  && row'.answerRevealed == (row.answerRevealed || answer)
                  && row' == row.(hintRevealed := row'.hintRevealed, answerRevealed := row'.answerRevealed)
                  && r.value.value == RevealReply(row'.hintRevealed, row'.answerRevealed)
                  && st'.events == (if hint || answer
                                    then st.events[key := Event(user, row.item, false, false, at)] else st.events)
                  && st'.byClient == st.byClient && st'.reviews == st.reviews && st'.gradings == st.gradings)
            && (r.Failure? || r.value == None ==> st' == st)
  {
  }

  /** A graded attempt answers every later submission without touching a row. */
  lemma GradedAttemptReplays(st: Store, cat: Catalog, t: Target, clientId: string, response: Option<string>,
                             confidence: string, feedbackAt: real, at: real)
    requires Sound(st) && clientId != "" && !Text.IsBlank(confidence)
    requires exists a :: a in st.attempts && st.attempts[a].user == t.user && st.attempts[a].clientId == Some(clientId)
                         && st.attempts[a].status == Graded
    ensures var (st', r) := Submit(st, cat, t, Some(clientId), response, Some(confidence), feedbackAt, at);
            && st' == st
            && (r.Failure? ==> r.error == IdempotencyConflict)
            && (r.Success? ==> r.value.idempotent && GradeKey(r.value.attempt) in st.events)
  {
    hide ApplyReviewRating;
  }

  /** Exactly when a submission grades: a matching attempt of this user is in progress. */
  lemma SubmitGradesIff(st: Store, cat: Catalog, t: Target, clientId: Option<string>, response: Option<string>,
                        confidence: Option<string>, feedbackAt: real, at: real)
    requires Sound(st)
    ensures var st' := Submit(st, cat, t, clientId, response, confidence, feedbackAt, at).0;
            |st'.gradings| == |st.gradings| + 1 <==>
              && confidence.Some? && !Text.IsBlank(confidence.value) && clientId.Some? && clientId.value != ""
              && t.course in cat.courses && t.revision in cat.revisions && cat.revisions[t.revision].0 == t.item
              && exists a :: a in st.attempts && st.attempts[a].clientId == clientId
                   && st.attempts[a].status == InProgress
                             && TargetOf(st.attempts[a]) == t
  {
    hide ApplyReviewRating;
  }

  /** Exactly when a start opens a new attempt, and that it then touches nothing else. */
  lemma StartOpensIff(st: Store, cat: Catalog, t: Target, clientId: Option<string>, newId: Uuid, at: real)
    requires Sound(st)
    ensures var st' := Start(st, cat, t, clientId, newId, at).0;
            && (st' != st <==>
                  && t.course in cat.courses && t.item in cat.items && t.revision in cat.revisions
                  && cat.items[t.item] == (t.course, cat.courses[t.course])
                  && cat.revisions[t.revision].0 == t.item && cat.revisions[t.revision].1 == cat.courses[t.course]
                  && newId !in st.attempts
                  && forall a :: a in st.attempts && clientId.Some? ==> st.attempts[a].clientId != clientId)
            && (st' != st ==>
                  && st'.attempts == st.attempts[newId := NewAttempt(t, clientId)]
                  && st'.events.Keys == st.events.Keys + {StartedKey(newId)}
                  && st'.reviews == st.reviews && st'.gradings == st.gradings)
  {
    hide GradingsSound;
    hide ReviewsAreFolds;
    var st' := Start(st, cat, t, clientId, newId, at).0;
    StartedKeyIsFree(st, newId);
    hide EventsSound;
    UsedIsIndexed(st, t, clientId);
    hide IndexSound;
    if st' != st {
      assert newId in st'.attempts;
    }
  }

  /** A reveal marks the rows exactly when the user's own attempt is in progress and this kind is new. */
  lemma RevealMarksIff(st: Store, user: Uuid, id: Uuid, hint: bool, answer: bool, at: real)
    requires Sound(st)
    ensures var st' := Reveal(st, user, id, hint, answer, at).0;
            && (st' != st <==>
                  && id in st.attempts && st.attempts[id].user == user && st.attempts[id].status == InProgress
                  && (hint || answer) && RevealKey(id, answer) !in st.events)
            && (st' != st ==> (!Unrevealed(st'.attempts[id]) && st'.reviews == st.reviews
                               && st'.gradings == st.gradings))
  {
    hide GradingsSound;
    hide ReviewsAreFolds;
    hide EventsSound;
    hide IndexSound;
    var st' := Reveal(st, user, id, hint, answer, at).0;
    if id in st.attempts && (hint || answer) && RevealKey(id, answer) !in st.events {
      assert RevealKey(id, answer) in Revealed(st, id, hint, answer, at).events;
    }
    if id in st.attempts && !hint && !answer {
      assert WithFlags(st.attempts[id], hint, answer) == st.attempts[id];
    }
  }

  /** A second reveal of the same kind hits the unique event id and is rolled back. */
  lemma RepeatedRevealAborts(st: Store, user: Uuid, id: Uuid, hint: bool, answer: bool, at: real, later: real)
    requires hint || answer
    ensures var (st', r) := Reveal(st, user, id, hint, answer, at);
            (r.Success? && r.value.Some?) ==>
              Reveal(st', user, id, hint, answer, later) == (st', Failure(UniqueViolation))
  {
  }

  lemma RevealedFlags(st: Store, id: Uuid, hint: bool, answer: bool, at: real)
    requires id in st.attempts
    ensures var after := Revealed(st, id, hint, answer, at).attempts;
            id in after && after[id] == WithFlags(st.attempts[id], hint, answer)
  {
  }

  // ---- the service: the rows updated in place ----

  class AssessmentService {
    var attempts: map<Uuid, Attempt>
    var byClient: map<string, Uuid>
    var events: map<EventKey, Event>
    var reviews: map<(Uuid, Uuid), Review>
    ghost var gradings: seq<Grading>

    ghost function View(): Store
      reads this
    {
      Store(attempts, byClient, events, reviews, gradings)
    }

    constructor ()
      ensures View() == EMPTY && Sound(View())
    {
      attempts, byClient, events, reviews, gradings := map[], map[], map[], map[], [];
      new;
      EmptyIsSound();
    }

    method StartAttempt(cat: Catalog, t: Target, clientId: Option<string>, newId: Uuid, at: real)
      returns (r: Result<StartReply, Error>)
      requires Sound(View())
      modifies this
      ensures (View(), r) == Start(old(View()), cat, t, clientId, newId, at)
      ensures Sound(View())
    {
      OutcomeOfStart(View(), cat, t, clientId, newId, at);
      if t.course !in cat.courses {
        return Failure(CourseNotFound);
      }
      var space := cat.courses[t.course];
      if t.item !in cat.items || cat.items[t.item] != (t.course, space) {
        return Failure(ItemNotFound);
      }
      if t.revision !in cat.revisions || cat.revisions[t.revision].0 != t.item || cat.revisions[t.revision].1 != space {
        return Failure(RevisionNotFound);
      }
      if clientId.Some? && clientId.value != "" && clientId.value in byClient {
        var existing := attempts[byClient[clientId.value]];
        if existing.user != t.user || !SameTarget(existing, t) {
          return Failure(IdempotencyConflict);
        }
        return Success(StartReply(byClient[clientId.value], existing.status, true));
      }
      if newId in attempts || StartedKey(newId) in events || (clientId.Some? && clientId.value in byClient) {
        return Failure(UniqueViolation);
      }
      attempts := attempts[newId := NewAttempt(t, clientId)];
      if clientId.Some? {
        byClient := byClient[clientId.value := newId];
      }
      events := events[StartedKey(newId) := Event(t.user, t.item, false, false, at)];
      return Success(StartReply(newId, InProgress, false));
    }

    method RecordReveal(user: Uuid, id: Uuid, hint: bool, answer: bool, at: real)
      returns (r: Result<Option<RevealReply>, Error>)
      requires Sound(View())
      modifies this
      ensures (View(), r) == Reveal(old(View()), user, id, hint, answer, at)
      ensures Sound(View())
    {
      OutcomeOfReveal(View(), user, id, hint, answer, at);
      hide Sound;
      if id !in attempts || attempts[id].user != user || attempts[id].status != InProgress {
        return Success(None);
      }
      hide Revealed;
      var stored := WriteReveal(id, hint, answer, at);
      if !stored {
        return Failure(UniqueViolation);
      }
      RevealedFlags(old(View()), id, hint, answer, at);
      return Success(Some(RevealReply(attempts[id].hintRevealed, attempts[id].answerRevealed)));
    }

    /** The flags and the one event a reveal writes; false when the event's client id is taken. */
    method WriteReveal(id: Uuid, hint: bool, answer: bool, at: real) returns (stored: bool)
      requires id in attempts
      modifies this
      ensures stored <==> !((hint || answer) && RevealKey(id, answer) in old(events))
      ensures View() == if stored then Revealed(old(View()), id, hint, answer, at) else old(View())
    {
      var row := attempts[id];
      var key := AnswerKey(id);
      if hint {
        row := row.(hintRevealed := true);
        key := HintKey(id);
      }
      if answer {
        row := row.(answerRevealed := true);
        key := AnswerKey(id);
      }
      if hint || answer {
        if key in events {
          return false;
        }
        events := events[key := Event(row.user, row.item, false, false, at)];
      }
      attempts := attempts[id := row];
      return true;
    }

    /** The client's two reveal booleans are accepted and ignored. */
    method SubmitAttempt(cat: Catalog, t: Target, clientId: Option<string>, response: Option<string>,
                         confidence: Option<string>, clientHint: bool, clientAnswer: bool, feedbackAt: real, at: real)
      returns (r: Result<SubmitReply, Error>)
      requires Sound(View())
      modifies this
      ensures (View(), r) == Submit(old(View()), cat, t, clientId, response, confidence, feedbackAt, at)
      ensures Sound(View())
    {
      OutcomeOfSubmit(View(), cat, t, clientId, response, confidence, feedbackAt, at);
      assert IndexSound(attempts, byClient);
      hide IndexSound;
      hide Recorded;
      hide Text.IsBlank;
      hide GradeMcq;
      hide Unrevealed;
      if confidence == None || Text.IsBlank(confidence.value) {
        return Failure(ConfidenceRequired);
      }
      if clientId == None || clientId.value == "" {
        return Failure(AttemptStartRequired);
      }
      var found := FindMine(t.user, clientId.value);
      StartedGradeKey(View(), t.user, clientId.value);
      hide FindAttempt;
      if found.Some? && attempts[found.value].status == Graded {
        if !SameTarget(attempts[found.value], t) {
          return Failure(IdempotencyConflict);
        }
        return Success(SubmitReply(found.value, None, None, true));
      }
      if t.course !in cat.courses {
        return Failure(CourseNotFound);
      }
      if t.revision !in cat.revisions || cat.revisions[t.revision].0 != t.item {
        return Failure(RevisionNotFound);
      }
      var correct := GradeMcq(cat.revisions[t.revision].2, response);
      if found == None {
        return Failure(AttemptNotStarted);
      }
      if !SameTarget(attempts[found.value], t) {
        return Failure(AttemptTargetMismatch);
      }
      var eligible := RecordGrade(found.value, t, correct, response, confidence, feedbackAt, at);
      return Success(SubmitReply(found.value, Some(correct), Some(eligible), false));
    }

    /** The attempt of this user with this client id. */
    method FindMine(user: Uuid, clientId: string) returns (found: Option<Uuid>)
      requires IndexSound(attempts, byClient)
      ensures found == FindAttempt(View(), user, clientId)
      ensures found.Some? ==> found.value in attempts
    {
      if clientId in byClient && attempts[byClient[clientId]].user == user {
        return Some(byClient[clientId]);
      }
      return None;
    }

    method RecordGrade(id: Uuid, t: Target, correct: bool, response: Option<string>, confidence: Option<string>,
                       feedbackAt: real, at: real)
      returns (eligible: bool)
      requires id in attempts
      modifies this
      ensures View() == Recorded(old(View()), id, t, correct, response, confidence, feedbackAt, at)
      ensures eligible == Unrevealed(old(attempts)[id])
    {
      hide ApplyReviewRating;
      var prior := attempts[id];
      attempts := attempts[id := prior.(status := Graded, response := response, confidence := confidence)];
      eligible := !prior.answerRevealed && !prior.hintRevealed;
      events := events[GradeKey(id) := Event(t.user, t.item, eligible, correct, feedbackAt)];
      gradings := gradings + [Grading(id, t.user, t.item, correct, !eligible, at)];
      if eligible {
        reviews := ApplyReviewRating(reviews, t, correct, prior.answerRevealed, prior.hintRevealed, at);
      }
    }
  }
}
