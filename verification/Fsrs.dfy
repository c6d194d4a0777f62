/** The FSRS-like scheduler: exact decimal arithmetic, rounded to four places as the source rounds. */
module Fsrs {
  import opened Wrappers

  datatype Rating = Again | Hard | Good | Easy

  /** Times are real numbers of days. */
  datatype Card = Card(
    stability: real, difficulty: real, reps: nat, lapses: nat, dueAt: real, lastReviewAt: Option<real>)

  const MINUTES_10 := 10.0 / 1440.0

  function Max(a: real, b: real): real { if a < b then b else a }

  function Min(a: real, b: real): real { if b < a then b else a }

  function TenThousandths(n: int): real { n as real / 10000.0 }

  function Halves(n: int): real { n as real / 2.0 }

  /** `round(x, 4)`: to the nearest multiple of 1/10000, ties to the even one. */
  function Round4(x: real): real {
    var n := (x * 10000.0).Floor;
    var rest := x * 10000.0 - n as real;
    var m := if rest < 0.5 then n else if rest > 0.5 then n + 1 else if n % 2 == 0 then n else n + 1;
    TenThousandths(m)
  }

  function InitialCard(now: real): Card {
    Card(1.0, 5.0, 0, 0, now, None)
  }

  function MapOutcomeToRating(correct: bool, revealed: bool, substantiveHint: bool, scaffold: bool,
                              effortless: bool): Rating {
    if !correct || revealed || substantiveHint then Again
    else if scaffold then Hard
    else if effortless then Easy
    else Good
  }

  function Schedule(card: Card, rating: Rating, now: real): Card {
    match rating
    case Again =>
      Card(Round4(Max(0.5, card.stability * 0.5)), Round4(Min(10.0, card.difficulty + 1.0)),
           0, card.lapses + 1, now + MINUTES_10, Some(now))
    case Hard =>
      var s := Max(1.0, card.stability * 1.2);
      Card(Round4(s), Round4(Min(10.0, card.difficulty + 0.5)),
           card.reps + 1, card.lapses, now + Max(1.0, s * 0.8), Some(now))
    case Good =>
      var s := Max(1.0, card.stability * 1.8);
      Card(Round4(s), Round4(card.difficulty),
           card.reps + 1, card.lapses, now + Max(1.0, s), Some(now))
    case Easy =>
      var s := Max(1.0, card.stability * 2.4);
      Card(Round4(s), Round4(Max(1.0, card.difficulty - 0.5)),
           card.reps + 1, card.lapses, now + Max(2.0, s * 1.3), Some(now))
  }

  datatype Review = Review(rating: Rating, at: real)

  /** The card after a history of reviews of one item. */
  function Replay(created: real, reviews: seq<Review>): Card {
    if reviews == [] then InitialCard(created)
    else
      var last := reviews[|reviews| - 1];
      Schedule(Replay(created, reviews[..|reviews| - 1]), last.rating, last.at)
  }

  // ---- rounding ----

  lemma RoundMonotone(x: real, y: real)
    requires x <= y
    ensures Round4(x) <= Round4(y)
  {
    var a, b := (x * 10000.0).Floor, (y * 10000.0).Floor;
    assert a <= b;
  }

  lemma RoundExact(n: int)
    ensures Round4(TenThousandths(n)) == TenThousandths(n)
  {
    assert (TenThousandths(n)) * 10000.0 == n as real;
  }

  /** Halfway between two neighbours the even one is taken. */
  lemma RoundTiesToEven(x: real, n: int)
    requires x * 10000.0 == n as real + 0.5
    ensures Round4(x) == TenThousandths(if n % 2 == 0 then n else n + 1)
  {
    assert (x * 10000.0).Floor == n;
  }

  function Distance(x: real, y: real): real { if x < y then y - x else x - y }

  /** No other four-place decimal is closer. */
  lemma RoundIsNearest(x: real, n: int)
    ensures Distance(x, Round4(x)) <= Distance(x, TenThousandths(n))
  {
    var k := (x * 10000.0).Floor;
    assert n <= k || k + 1 <= n;
  }

  lemma RoundIsMultiple(x: real) returns (n: int)
    ensures Round4(x) == TenThousandths(n)
  {
    var k := (x * 10000.0).Floor;
    n := if Round4(x) == TenThousandths(k) then k else k + 1;
  }

  // ---- invariants over every rating sequence ----

  /** Four decimals of stability, half steps of difficulty. */
  ghost predicate OnGrid(card: Card) {
    && (exists n: int :: card.stability == TenThousandths(n))
    && (exists m: int :: 2 <= m <= 20 && card.difficulty == Halves(m))
  }

  lemma DifficultyIsExact(m: int)
    ensures Round4(Halves(m)) == Halves(m)
  {
    assert Halves(m) == TenThousandths(m * 5000);
    RoundExact(m * 5000);
  }

  ghost predicate InRange(card: Card) {
    card.stability >= 0.5 && 1.0 <= card.difficulty <= 10.0 && OnGrid(card)
  }

  function NextStability(s: real, rating: Rating): real {
    match rating
    case Again => Max(0.5, s * 0.5)
    case Hard => Max(1.0, s * 1.2)
    case Good => Max(1.0, s * 1.8)
    case Easy => Max(1.0, s * 2.4)
  }

  lemma StabilityStaysInRange(card: Card, rating: Rating, now: real)
    requires InRange(card)
    ensures var s := Schedule(card, rating, now).stability;
            s >= 0.5 && exists n: int :: s == TenThousandths(n)
  {
    hide Round4;
    var s := NextStability(card.stability, rating);
    var k := RoundIsMultiple(s);
    RoundMonotone(0.5, s);
    RoundExact(5000);
    assert Schedule(card, rating, now).stability == Round4(s);
  }

  lemma DifficultyStaysInRange(card: Card, rating: Rating, now: real)
    requires InRange(card)
    ensures exists m: int :: 2 <= m <= 20 && Schedule(card, rating, now).difficulty == Halves(m)
  {
    var m: int :| 2 <= m <= 20 && card.difficulty == Halves(m);
    NextDifficulty(card, rating, now, m);
    assert 2 <= NextSteps(rating, m) <= 20;
    hide Schedule;
  }

  lemma {:induction false} ReplayStaysInRange(created: real, reviews: seq<Review>)
    ensures InRange(Replay(created, reviews))
  {
    hide Schedule;
    if reviews == [] {
      assert 1.0 == TenThousandths(10000) && 5.0 == Halves(10);
    } else {
      var n := |reviews| - 1;
      ReplayStaysInRange(created, reviews[..n]);
      var c := Replay(created, reviews[..n]);
      StabilityStaysInRange(c, reviews[n].rating, reviews[n].at);
      DifficultyStaysInRange(c, reviews[n].rating, reviews[n].at);
    }
  }

  /** `k` is the length of the longest AGAIN-free suffix. */
  ghost predicate IsTrailingRun(reviews: seq<Review>, k: nat) {
    && k <= |reviews|
    && (forall i :: |reviews| - k <= i < |reviews| ==> reviews[i].rating != Again)
    && (k < |reviews| ==> reviews[|reviews| - k - 1].rating == Again)
  }

  ghost function AgainPositions(reviews: seq<Review>): set<nat> {
    set i: nat | i < |reviews| && reviews[i].rating == Again
  }

  lemma ScheduleCounts(card: Card, rating: Rating, now: real)
    ensures var c := Schedule(card, rating, now);
            if rating == Again then c.reps == 0 && c.lapses == card.lapses + 1
            else c.reps == card.reps + 1 && c.lapses == card.lapses
  {
  }

  /** `lapses` counts the AGAINs and `reps` is the length of the AGAIN-free tail. */
  lemma {:induction false} ReplayCounts(created: real, reviews: seq<Review>)
    ensures Replay(created, reviews).lapses == |AgainPositions(reviews)|
    ensures IsTrailingRun(reviews, Replay(created, reviews).reps)
  {
    hide Schedule;
    if reviews == [] {
      assert AgainPositions(reviews) == {};
    } else {
      var n := |reviews| - 1;
      var init := reviews[..n];
      ReplayCounts(created, init);
      ScheduleCounts(Replay(created, init), reviews[n].rating, reviews[n].at);
      AgainsSnoc(reviews);
      hide AgainPositions;
    }
  }

  lemma AgainsSnoc(reviews: seq<Review>)
    requires reviews != []
    ensures var n := |reviews| - 1;
            |AgainPositions(reviews)| == |AgainPositions(reviews[..n])| + if reviews[n].rating == Again then 1 else 0
  {
    var n := |reviews| - 1;
    if reviews[n].rating == Again {
      assert AgainPositions(reviews) == AgainPositions(reviews[..n]) + {n};
    } else {
      assert AgainPositions(reviews) == AgainPositions(reviews[..n]);
    }
  }

  // ---- histories of one answer ----

  /** The same answer `n` times. */
  function Repeated(rating: Rating, at: real, n: nat): seq<Review> {
    if n == 0 then [] else Repeated(rating, at, n - 1) + [Review(rating, at)]
  }

  lemma ReplayRepeated(created: real, rating: Rating, at: real, n: nat)
    requires n > 0
    ensures Replay(created, Repeated(rating, at, n))
         == Schedule(Replay(created, Repeated(rating, at, n - 1)), rating, at)
  {
    hide Schedule;
    var front := Repeated(rating, at, n - 1);
    assert (front + [Review(rating, at)])[..|front|] == front;
  }

  /** Difficulty in half steps after `n` equal answers: it starts at 5, and ends at 10 or at 1. */
  function DifficultySteps(rating: Rating, n: nat): int {
    match rating
    case Again => if n >= 5 then 20 else 10 + 2 * n
    case Hard => if n >= 10 then 20 else 10 + n
    case Good => 10
    case Easy => if n >= 8 then 2 else 10 - n
  }

  /** One answer's effect on the difficulty, in half steps. */
  function NextSteps(rating: Rating, m: int): int {
    match rating
    case Again => if m + 2 <= 20 then m + 2 else 20
    case Hard => if m + 1 <= 20 then m + 1 else 20
    case Good => m
    case Easy => if m - 1 >= 2 then m - 1 else 2
  }

  lemma NextDifficulty(c: Card, rating: Rating, now: real, m: int)
    requires 2 <= m <= 20 && c.difficulty == Halves(m)
    ensures Schedule(c, rating, now).difficulty == Halves(NextSteps(rating, m))
  {
    hide Round4;
    DifficultyIsExact(NextSteps(rating, m));
  }

  lemma StepsAdvance(rating: Rating, n: nat)
    requires n > 0
    ensures 2 <= DifficultySteps(rating, n - 1) <= 20
    ensures DifficultySteps(rating, n) == NextSteps(rating, DifficultySteps(rating, n - 1))
  {
  }

  lemma FirstDifficulty(created: real, rating: Rating, at: real)
    ensures Replay(created, Repeated(rating, at, 0)).difficulty == Halves(DifficultySteps(rating, 0))
  {
    assert Halves(10) == 5.0;
  }

  /** Every AGAIN adds 1 to the difficulty, every HARD a half, every EASY takes a half away, between 1 and 10. */
  lemma {:induction false} DifficultyOfRepeated(created: real, rating: Rating, at: real, n: nat)
    ensures Replay(created, Repeated(rating, at, n)).difficulty == Halves(DifficultySteps(rating, n))
  {
    hide *;
    if n > 0 {
      DifficultyOfRepeated(created, rating, at, n - 1);
      ReplayRepeated(created, rating, at, n);
      StepsAdvance(rating, n);
      NextDifficulty(Replay(created, Repeated(rating, at, n - 1)), rating, at, DifficultySteps(rating, n - 1));
    } else {
      FirstDifficulty(created, rating, at);
    }
  }

  /** A card that was only ever forgotten is at the floor of stability and due in ten minutes. */
  lemma {:induction false} ForgottenCard(created: real, at: real, n: nat)
    requires n > 0
    ensures var c := Replay(created, Repeated(Again, at, n));
            c.stability == 0.5 && c.reps == 0 && c.lapses == n && c.dueAt == at + 10.0 / 1440.0
            && c.lastReviewAt == Some(at)
  {
    ReplayRepeated(created, Again, at, n);
    RoundExact(5000);
    if n > 1 {
      ForgottenCard(created, at, n - 1);
    }
    hide Round4;
  }

  /** How much each passing answer multiplies stability by. */
  function Growth(rating: Rating): real {
    match rating case Again => 0.5 case Hard => 1.2 case Good => 1.8 case Easy => 2.4
  }

  /** Stability and due time follow the answer's factor: stored to four places, due by the unrounded interval. */
  lemma StabilityGrowsByFactor(c: Card, rating: Rating, now: real)
    ensures var exact := Max(if rating == Again then 0.5 else 1.0, c.stability * Growth(rating));
            var c' := Schedule(c, rating, now);
            && Distance(c'.stability, exact) <= 0.00005
            && (rating == Hard ==> c'.dueAt == now + Max(1.0, exact * 0.8))
            && (rating == Good ==> c'.dueAt == now + exact)
            && (rating == Easy ==> c'.dueAt == now + Max(2.0, exact * 1.3))
            && c'.lastReviewAt == Some(now)
  {
    var exact := Max(if rating == Again then 0.5 else 1.0, c.stability * Growth(rating));
    RoundIsClose(exact);
    hide Round4;
  }

  lemma RoundIsClose(x: real)
    ensures Distance(Round4(x), x) <= 0.00005
  {
  }

  /** A wrong, revealed or hinted answer is AGAIN whatever else is said of it; otherwise effort decides. */
  lemma OutcomeRatings(correct: bool, revealed: bool, hint: bool, scaffold: bool, effortless: bool)
    ensures var rating := MapOutcomeToRating(correct, revealed, hint, scaffold, effortless);
      && (rating == Again <==> !correct || revealed || hint)
      && (rating == Hard <==> correct && !revealed && !hint && scaffold)
      && (rating == Easy <==> correct && !revealed && !hint && !scaffold && effortless)
  {
  }

  /** The four due times of a card, worst answer first; only HARD and GOOD can tie. */
  lemma DueTimesAreOrdered(created: real, reviews: seq<Review>, now: real)
    ensures var c := Replay(created, reviews);
            var due := (r: Rating) => Schedule(c, r, now).dueAt;
            && now < due(Again) < due(Hard) <= due(Good) < due(Easy)
            && (due(Hard) == due(Good) <==> c.stability <= 5.0 / 9.0)
  {
    ReplayStaysInRange(created, reviews);
  }

  /** A pass never lowers stability and a better pass never yields less; AGAIN never raises it. */
  lemma StabilityFollowsRating(created: real, reviews: seq<Review>, now: real)
    ensures var c := Replay(created, reviews);
            var s := (r: Rating) => Schedule(c, r, now).stability;
            s(Again) <= c.stability <= s(Hard) <= s(Good) <= s(Easy)
  {
    hide Round4;
    ReplayStaysInRange(created, reviews);
    var c := Replay(created, reviews);
    var n: int :| c.stability == TenThousandths(n);
    RoundExact(n);
    RoundMonotone(Max(0.5, c.stability * 0.5), c.stability);
    RoundMonotone(c.stability, Max(1.0, c.stability * 1.2));
    RoundMonotone(Max(1.0, c.stability * 1.2), Max(1.0, c.stability * 1.8));
    RoundMonotone(Max(1.0, c.stability * 1.8), Max(1.0, c.stability * 2.4));
  }
}
