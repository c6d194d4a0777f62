/** The in-memory fixed-window rate limiter, and what it admits over any trace. */
module RateLimiter {

  /** Times are seconds of a monotonic clock. */
  datatype Bucket = Bucket(count: int, windowStart: real)

  /**
   * One request: its key, the clock read on entry, and the second clock read a missing bucket takes
   * as its window start.
   */
  datatype Request = Request(key: string, now: real, born: real)

  datatype Config = Config(limit: int, window: real)

  // ---- one key at a time ----

  /** The bucket after the roll-over test. */
  function Rolled(cfg: Config, b: Bucket, now: real): Bucket {
    if now - b.windowStart >= cfg.window then Bucket(0, now) else b
  }

  function Opened(b: map<string, Bucket>, r: Request): Bucket {
    if r.key in b then b[r.key] else Bucket(0, r.born)
  }

  function Admits(cfg: Config, buckets: map<string, Bucket>, r: Request): bool {
    Rolled(cfg, Opened(buckets, r), r.now).count < cfg.limit
  }

  function After(cfg: Config, buckets: map<string, Bucket>, r: Request): map<string, Bucket> {
    var b := Rolled(cfg, Opened(buckets, r), r.now);
    buckets[r.key := if b.count < cfg.limit then b.(count := b.count + 1) else b]
  }

  /** The buckets after a whole trace. */
  function Buckets(cfg: Config, trace: seq<Request>): map<string, Bucket> {
    if trace == [] then map[]
    else After(cfg, Buckets(cfg, trace[..|trace| - 1]), trace[|trace| - 1])
  }

  /** Is request `i` of the trace admitted? */
  predicate Admitted(cfg: Config, trace: seq<Request>, i: nat)
    requires i < |trace|
  {
    Admits(cfg, Buckets(cfg, trace[..i]), trace[i])
  }

  /** Admitted requests of one key in a closed time interval. */
  function Admissions(cfg: Config, trace: seq<Request>, key: string, from: real, to: real): set<nat> {
    set i: nat | i < |trace| && trace[i].key == key && from <= trace[i].now <= to && Admitted(cfg, trace, i)
  }

  /** A monotonic clock: reads never go back, and the second read of a request follows its first. */
  ghost predicate Monotonic(trace: seq<Request>) {
    && (forall i :: 0 <= i < |trace| ==> trace[i].now <= trace[i].born)
    && (forall i, j :: 0 <= i < j < |trace| ==> trace[i].born <= trace[j].now)
  }

  // ---- windows ----

  /** Where the current window of a key began, as a position in the trace, and where the one before it did. */
  datatype Marks = Marks(previous: nat, current: nat)

  function WindowMarks(cfg: Config, trace: seq<Request>, key: string): Marks {
    if trace == [] then Marks(0, 0)
    else
      var n := |trace| - 1;
      var m, b, r := WindowMarks(cfg, trace[..n], key), Buckets(cfg, trace[..n]), trace[n];
      if r.key != key then m
      else if key !in b then Marks(n, n)
      else if r.now - b[key].windowStart >= cfg.window then Marks(m.current, n)
      else m
  }

  /** Admitted requests of a key at positions `[a, b)`. */
  function AdmittedBetween(cfg: Config, trace: seq<Request>, key: string, a: nat, b: nat): set<nat>
    requires b <= |trace|
  {
    set i: nat | a <= i < b && trace[i].key == key && Admitted(cfg, trace, i)
  }

  function AtLeastZero(n: int): nat { if n < 0 then 0 else n }

  lemma PrefixAdmits(cfg: Config, trace: seq<Request>, n: nat)
    requires n <= |trace|
    ensures forall i: nat :: i < n ==> Admitted(cfg, trace[..n], i) == Admitted(cfg, trace, i)
  {
    forall i: nat | i < n ensures Admitted(cfg, trace[..n], i) == Admitted(cfg, trace, i) {
      assert trace[..n][..i] == trace[..i];
    }
  }

  /** Each of the two latest windows admitted at most `limit`, and the bucket counts the current one. */
  ghost predicate CountFacts(cfg: Config, trace: seq<Request>, key: string, count: int, m: Marks) {
    && m.previous <= m.current < |trace| && trace[m.current].key == key
    && count == |AdmittedBetween(cfg, trace, key, m.current, |trace|)| <= AtLeastZero(cfg.limit)
    && |AdmittedBetween(cfg, trace, key, m.previous, m.current)| <= AtLeastZero(cfg.limit)
  }

  /** When the key's requests happened, relative to the window start. */
  ghost predicate TimeFacts(cfg: Config, trace: seq<Request>, key: string, start: real, m: Marks) {
    && (forall i :: 0 <= i < |trace| && trace[i].key == key ==> trace[i].now < start + cfg.window)
    && (forall i :: 0 <= i < |trace| && trace[i].key == key && i < m.current ==> trace[i].now < start)
    && (forall i :: 0 <= i < |trace| && trace[i].key == key && i < m.previous ==> trace[i].now < start - cfg.window)
    && (forall i :: 0 <= i < |trace| && trace[i].key == key && m.current <= i ==> start <= trace[i].born)
    && (FirstWindow(trace, key, m)
        || (forall i :: 0 <= i < |trace| && trace[i].key == key && m.current <= i ==> start <= trace[i].now))
  }

  ghost predicate FirstWindow(trace: seq<Request>, key: string, m: Marks) {
    forall i :: 0 <= i < |trace| && trace[i].key == key ==> m.current <= i
  }

  ghost predicate WindowFacts(cfg: Config, trace: seq<Request>, key: string) {
    key in Buckets(cfg, trace) ==>
      var b, m := Buckets(cfg, trace)[key], WindowMarks(cfg, trace, key);
      CountFacts(cfg, trace, key, b.count, m) && TimeFacts(cfg, trace, key, b.windowStart, m)
  }

  lemma {:induction false} BucketsHoldSeenKeys(cfg: Config, trace: seq<Request>, key: string)
    ensures key in Buckets(cfg, trace) <==> exists i :: 0 <= i < |trace| && trace[i].key == key
  {
    if trace != [] {
      var n := |trace| - 1;
      BucketsHoldSeenKeys(cfg, trace[..n], key);
      if i :| 0 <= i < |trace| && trace[i].key == key {
        assert i < n ==> trace[..n][i].key == key;
      }
      if i :| 0 <= i < n && trace[..n][i].key == key { assert trace[i].key == key; }
      assert trace[n].key == key ==> exists i :: 0 <= i < |trace| && trace[i].key == key;
    }
  }

  lemma OtherKeyCounts(cfg: Config, trace: seq<Request>, key: string, count: int, m: Marks)
    requires trace != [] && trace[|trace| - 1].key != key
    requires CountFacts(cfg, trace[..|trace| - 1], key, count, m)
    ensures CountFacts(cfg, trace, key, count, m)
  {
    hide Admitted;
    hide AdmittedBetween;
    assert trace[..|trace| - 1][m.current] == trace[m.current];
    SameBetween(cfg, trace, key, m.previous, m.current);
    SameBetween(cfg, trace, key, m.current, |trace| - 1);
    NextBetween(cfg, trace, key, m.current);
  }

  /** A window that opens with the latest request. */
  lemma NewWindowCounts(cfg: Config, trace: seq<Request>, key: string, previous: nat)
    requires trace != [] && trace[|trace| - 1].key == key && previous <= |trace| - 1
    requires |AdmittedBetween(cfg, trace[..|trace| - 1], key, previous, |trace| - 1)| <= AtLeastZero(cfg.limit)
    requires Admitted(cfg, trace, |trace| - 1) <==> 0 < cfg.limit
    ensures CountFacts(cfg, trace, key, if 0 < cfg.limit then 1 else 0, Marks(previous, |trace| - 1))
  {
    var n := |trace| - 1;
    hide Admitted;
    SameBetween(cfg, trace, key, previous, n);
    NextBetween(cfg, trace, key, n);
    assert AdmittedBetween(cfg, trace, key, n, n) == {};
    hide AdmittedBetween;
  }

  lemma SameWindowCounts(cfg: Config, trace: seq<Request>, key: string, count: int, m: Marks)
    requires trace != [] && trace[|trace| - 1].key == key
    requires CountFacts(cfg, trace[..|trace| - 1], key, count, m)
    requires Admitted(cfg, trace, |trace| - 1) <==> count < cfg.limit
    ensures CountFacts(cfg, trace, key, if count < cfg.limit then count + 1 else count, m)
  {
    hide Admitted;
    SameBetween(cfg, trace, key, m.previous, m.current);
    SameBetween(cfg, trace, key, m.current, |trace| - 1);
    NextBetween(cfg, trace, key, m.current);
    hide AdmittedBetween;
  }

  /** One more request of the key: another key's, a first window, a roll-over, or the same window. */
  lemma CountsStep(cfg: Config, trace: seq<Request>, key: string)
    requires trace != [] && WindowFacts(cfg, trace[..|trace| - 1], key) && key in Buckets(cfg, trace)
    ensures CountFacts(cfg, trace, key, Buckets(cfg, trace)[key].count, WindowMarks(cfg, trace, key))
  {
    var n := |trace| - 1;
    var init, r := trace[..n], trace[n];
    var buckets, m := Buckets(cfg, init), WindowMarks(cfg, init, key);
    assert Admitted(cfg, trace, n) == Admits(cfg, buckets, r);
    assert key in buckets ==> CountFacts(cfg, init, key, buckets[key].count, m);
    hide TimeFacts;
    hide Admitted;
    if r.key != key {
      hide CountFacts;
      OtherKeyCounts(cfg, trace, key, buckets[key].count, m);
    } else if key !in buckets {
      NothingBetween(cfg, init, key, n);
      hide CountFacts;
      hide AdmittedBetween;
      NewWindowCounts(cfg, trace, key, n);
    } else if r.now - buckets[key].windowStart >= cfg.window {
      assert m.current < n;
      assert |AdmittedBetween(cfg, init, key, m.current, n)| <= AtLeastZero(cfg.limit);
      hide CountFacts;
      hide AdmittedBetween;
      NewWindowCounts(cfg, trace, key, m.current);
    } else {
      hide CountFacts;
      SameWindowCounts(cfg, trace, key, buckets[key].count, m);
    }
  }

  lemma NothingBetween(cfg: Config, trace: seq<Request>, key: string, n: nat)
    requires n <= |trace|
    ensures AdmittedBetween(cfg, trace, key, n, n) == {}
  {
  }

  /** One more request of the key: a first window, a roll-over, or the same window. */
  lemma TimesStep(cfg: Config, trace: seq<Request>, key: string)
    requires cfg.window > 0.0 && Monotonic(trace)
    requires trace != [] && WindowFacts(cfg, trace[..|trace| - 1], key) && key in Buckets(cfg, trace)
    ensures TimeFacts(cfg, trace, key, Buckets(cfg, trace)[key].windowStart, WindowMarks(cfg, trace, key))
  {
    var n := |trace| - 1;
    var init, r := trace[..n], trace[n];
    var buckets, m := Buckets(cfg, init), WindowMarks(cfg, init, key);
    var start, m' := Buckets(cfg, trace)[key].windowStart, WindowMarks(cfg, trace, key);
    assert key in buckets ==> m.previous <= m.current < n && trace[m.current].key == key;
    assert key !in buckets ==> start == r.born && m' == Marks(n, n);
    hide AdmittedBetween;
    hide CountFacts;
    hide TimeFacts;
    if r.key != key {
      OtherKeyTimes(cfg, trace, key, buckets[key].windowStart, m);
    } else if key !in buckets {
      BucketsHoldSeenKeys(cfg, init, key);
      forall i | 0 <= i < n ensures trace[i].key != key { assert init[i].key != key; }
      FirstTimes(cfg, trace, key);
    } else if r.now - buckets[key].windowStart >= cfg.window {
      RolledTimes(cfg, trace, key, buckets[key].windowStart, m);
    } else {
      SameWindowTimes(cfg, trace, key, buckets[key].windowStart, m);
    }
  }

  lemma FirstTimes(cfg: Config, trace: seq<Request>, key: string)
    requires trace != [] && Monotonic(trace) && cfg.window > 0.0
    requires forall i :: 0 <= i < |trace| - 1 ==> trace[i].key != key
    ensures TimeFacts(cfg, trace, key, trace[|trace| - 1].born, Marks(|trace| - 1, |trace| - 1))
  {
  }

  lemma OtherKeyTimes(cfg: Config, trace: seq<Request>, key: string, start: real, m: Marks)
    requires trace != [] && trace[|trace| - 1].key != key
    requires TimeFacts(cfg, trace[..|trace| - 1], key, start, m)
    ensures TimeFacts(cfg, trace, key, start, m)
  {
    forall i | 0 <= i < |trace| - 1 ensures trace[i] == trace[..|trace| - 1][i] {}
  }

  lemma RolledTimes(cfg: Config, trace: seq<Request>, key: string, start: real, m: Marks)
    requires trace != [] && Monotonic(trace) && cfg.window > 0.0
    requires TimeFacts(cfg, trace[..|trace| - 1], key, start, m) && trace[|trace| - 1].now - start >= cfg.window
    requires m.current < |trace| - 1
    ensures TimeFacts(cfg, trace, key, trace[|trace| - 1].now, Marks(m.current, |trace| - 1))
  {
    forall i | 0 <= i < |trace| - 1 ensures trace[i] == trace[..|trace| - 1][i] {}
  }

  lemma SameWindowTimes(cfg: Config, trace: seq<Request>, key: string, start: real, m: Marks)
    requires trace != [] && Monotonic(trace)
    requires TimeFacts(cfg, trace[..|trace| - 1], key, start, m) && trace[|trace| - 1].now - start < cfg.window
    requires m.previous <= m.current < |trace| - 1 && trace[m.current].key == key
    ensures TimeFacts(cfg, trace, key, start, m)
  {
    forall i | 0 <= i < |trace| - 1 ensures trace[i] == trace[..|trace| - 1][i] {}
    assert trace[m.current].born <= trace[|trace| - 1].now;
  }

  lemma {:induction false} WindowInvariant(cfg: Config, trace: seq<Request>, key: string)
    requires cfg.window > 0.0 && Monotonic(trace)
    ensures WindowFacts(cfg, trace, key)
  {
    if trace != [] {
      WindowInvariant(cfg, trace[..|trace| - 1], key);
      if key in Buckets(cfg, trace) {
        CountsStep(cfg, trace, key);
        TimesStep(cfg, trace, key);
      }
    }
  }

  /** Is this the key's first request? */
  ghost predicate FirstOfKey(trace: seq<Request>, key: string, i: nat) {
    i < |trace| && trace[i].key == key && forall j :: 0 <= j < i ==> trace[j].key != key
  }

  /** A window starts at the second clock read of a key's first request, or at the one read of a later one. */
  lemma {:induction false} WindowStarts(cfg: Config, trace: seq<Request>, key: string)
    requires cfg.window > 0.0 && Monotonic(trace) && key in Buckets(cfg, trace)
    ensures var start, m := Buckets(cfg, trace)[key].windowStart, WindowMarks(cfg, trace, key).current;
            && m < |trace| && trace[m].key == key
            && start == if FirstOfKey(trace, key, m) then trace[m].born else trace[m].now
  {
    var n := |trace| - 1;
    var init := trace[..n];
    assert forall j :: 0 <= j < n ==> trace[j] == init[j];
    if key in Buckets(cfg, init) {
      WindowStarts(cfg, init, key);
      var m := WindowMarks(cfg, init, key).current;
      assert FirstOfKey(init, key, m) <==> FirstOfKey(trace, key, m);
      assert !FirstOfKey(trace, key, n);
    } else {
      BucketsHoldSeenKeys(cfg, init, key);
      forall j | 0 <= j < n ensures trace[j].key != key { assert init[j].key != key; }
      assert FirstOfKey(trace, key, n);
    }
    hide FirstOfKey;
  }

  /** What the last request of a trace is answered, from the bucket it finds. */
  lemma LastAnswer(cfg: Config, trace: seq<Request>)
    requires cfg.window > 0.0 && Monotonic(trace) && trace != []
    ensures var n, r := |trace| - 1, trace[|trace| - 1];
            var b := Buckets(cfg, trace[..n]);
            Admitted(cfg, trace, n) <==>
              if r.key !in b || r.now - b[r.key].windowStart >= cfg.window then cfg.limit > 0
              else b[r.key].count < cfg.limit
  {
    hide Buckets;
  }

  /** The admissions since the current window's start are what the bucket counts. */
  lemma CountedSinceStart(cfg: Config, trace: seq<Request>, key: string)
    requires cfg.window > 0.0 && Monotonic(trace) && trace != [] && key in Buckets(cfg, trace[..|trace| - 1])
    ensures var n := |trace| - 1;
            var m, count := WindowMarks(cfg, trace[..n], key).current, Buckets(cfg, trace[..n])[key].count;
            m < n && count == |AdmittedBetween(cfg, trace, key, m, n)|
  {
    var n := |trace| - 1;
    WindowInvariant(cfg, trace[..n], key);
    hide AdmittedBetween;
    hide TimeFacts;
    hide WindowMarks;
    hide Buckets;
    var m := WindowMarks(cfg, trace[..n], key);
    assert CountFacts(cfg, trace[..n], key, Buckets(cfg, trace[..n])[key].count, m);
    SameBetween(cfg, trace, key, m.current, n);
  }

  /**
   * A request is admitted exactly when the limit is positive and it opens a window, being its key's first or
   * a whole window after the current one's start, or finds fewer than `limit` admissions since that start.
   */
  lemma AdmittedIffRoom(cfg: Config, trace: seq<Request>)
    requires cfg.window > 0.0 && Monotonic(trace) && trace != []
    ensures var n, key := |trace| - 1, trace[|trace| - 1].key;
            var m := WindowMarks(cfg, trace[..n], key).current;
            Admitted(cfg, trace, n) <==>
              && cfg.limit > 0
              && (|| FirstOfKey(trace, key, n)
                  || (&& m < n
                      && var start := if FirstOfKey(trace[..n], key, m) then trace[m].born else trace[m].now;
                      || trace[n].now - start >= cfg.window
                      || |AdmittedBetween(cfg, trace, key, m, n)| < cfg.limit))
  {
    var n, key := |trace| - 1, trace[|trace| - 1].key;
    var init := trace[..n];
    assert Monotonic(init);
    hide *;
    KeySeenIff(cfg, trace, n, key);
    LastAnswer(cfg, trace);
    if key in Buckets(cfg, init) {
      WindowStarts(cfg, init, key);
      CountedSinceStart(cfg, trace, key);
    }
  }

  lemma KeySeenIff(cfg: Config, trace: seq<Request>, n: nat, key: string)
    requires n < |trace| && trace[n].key == key
    ensures key !in Buckets(cfg, trace[..n]) <==> FirstOfKey(trace, key, n)
  {
    var init := trace[..n];
    BucketsHoldSeenKeys(cfg, init, key);
    assert forall j :: 0 <= j < n ==> init[j] == trace[j];
    hide Buckets;
  }

  lemma SameBetween(cfg: Config, trace: seq<Request>, key: string, a: nat, b: nat)
    requires trace != [] && b <= |trace| - 1
    ensures AdmittedBetween(cfg, trace, key, a, b) == AdmittedBetween(cfg, trace[..|trace| - 1], key, a, b)
  {
    PrefixAdmits(cfg, trace, |trace| - 1);
  }

  lemma NextBetween(cfg: Config, trace: seq<Request>, key: string, a: nat)
    requires trace != [] && a <= |trace| - 1
    ensures var n := |trace| - 1;
            var here := trace[n].key == key && Admitted(cfg, trace, n);
            && AdmittedBetween(cfg, trace, key, a, |trace|)
                 == AdmittedBetween(cfg, trace, key, a, n) + (if here then {n} else {})
            && |AdmittedBetween(cfg, trace, key, a, |trace|)|
                 == |AdmittedBetween(cfg, trace, key, a, n)| + (if here then 1 else 0)
  {
    var n := |trace| - 1;
    var here := trace[n].key == key && Admitted(cfg, trace, n);
    assert AdmittedBetween(cfg, trace, key, a, |trace|)
        == AdmittedBetween(cfg, trace, key, a, n) + (if here then {n} else {});
  }

  // ---- what the limiter admits ----

  ghost predicate SlidingBound(cfg: Config, trace: seq<Request>, key: string, from: real) {
    |Admissions(cfg, trace, key, from, from + cfg.window)| <= 2 * AtLeastZero(cfg.limit)
  }

  lemma SubsetIsSmaller(a: set<nat>, b: set<nat>)
    requires a <= b
    ensures |a| <= |b|
  {
    assert b == a + (b - a);
  }

  /** A request of the key within one window length of the latest one is in one of the two latest windows. */
  lemma NotTooOld(cfg: Config, trace: seq<Request>, key: string, start: real, m: Marks, i: nat)
    requires TimeFacts(cfg, trace, key, start, m) && m.previous <= m.current < |trace|
    requires i < |trace| && trace[i].key == key && trace[|trace| - 1].key == key
    requires trace[|trace| - 1].now <= trace[i].now + cfg.window
    ensures m.previous <= i
  {
  }

  /** The interval's admissions all fall in the two latest windows when the last request is one of them. */
  lemma LastAdmissionBounds(cfg: Config, trace: seq<Request>, key: string, from: real)
    requires cfg.window > 0.0 && Monotonic(trace) && trace != []
    requires |trace| - 1 in Admissions(cfg, trace, key, from, from + cfg.window)
    ensures SlidingBound(cfg, trace, key, from)
  {
    WindowInvariant(cfg, trace, key);
    BucketsHoldSeenKeys(cfg, trace, key);
    var n := |trace| - 1;
    assert trace[n].key == key;
    var start, m := Buckets(cfg, trace)[key].windowStart, WindowMarks(cfg, trace, key);
    var all := Admissions(cfg, trace, key, from, from + cfg.window);
    var older := AdmittedBetween(cfg, trace, key, m.previous, m.current);
    var newer := AdmittedBetween(cfg, trace, key, m.current, |trace|);
    assert TimeFacts(cfg, trace, key, start, m) && CountFacts(cfg, trace, key, Buckets(cfg, trace)[key].count, m);
    assert |older| <= AtLeastZero(cfg.limit) && |newer| <= AtLeastZero(cfg.limit);
    assert m.previous <= m.current < |trace|;
    hide Buckets;
    hide WindowMarks;
    hide Admitted;
    hide CountFacts;
    AllInLatestWindows(cfg, trace, key, from, start, m);
    SubsetIsSmaller(all, older + newer);
    assert |older + newer| <= |older| + |newer|;
  }

  lemma AllInLatestWindows(cfg: Config, trace: seq<Request>, key: string, from: real, start: real, m: Marks)
    requires TimeFacts(cfg, trace, key, start, m) && m.previous <= m.current < |trace|
    requires |trace| - 1 in Admissions(cfg, trace, key, from, from + cfg.window)
    ensures Admissions(cfg, trace, key, from, from + cfg.window)
         <= AdmittedBetween(cfg, trace, key, m.previous, m.current)
             + AdmittedBetween(cfg, trace, key, m.current, |trace|)
  {
    hide Admitted;
    var all := Admissions(cfg, trace, key, from, from + cfg.window);
    forall i | i in all ensures m.previous <= i {
      NotTooOld(cfg, trace, key, start, m, i);
    }
  }

  /** Any closed interval as long as the window admits at most twice the limit, for every key and trace. */
  lemma {:induction false} SlidingBoundHolds(cfg: Config, trace: seq<Request>, key: string, from: real)
    requires cfg.window > 0.0 && Monotonic(trace)
    ensures SlidingBound(cfg, trace, key, from)
  {
    var all := Admissions(cfg, trace, key, from, from + cfg.window);
    if trace == [] {
      assert all == {};
    } else {
      var n := |trace| - 1;
      if n in all {
        LastAdmissionBounds(cfg, trace, key, from);
      } else {
        SlidingBoundHolds(cfg, trace[..n], key, from);
        PrefixAdmits(cfg, trace, n);
        assert all == Admissions(cfg, trace[..n], key, from, from + cfg.window);
      }
    }
  }

  /** With a zero-length window every request of a positive limit rolls the window over and is admitted. */
  lemma {:induction false} ZeroWindowAdmitsAll(limit: int, n: nat)
    requires limit > 0
    ensures var cfg, trace := Config(limit, 0.0), Burst(n);
            && (n > 0 ==> "k" in Buckets(cfg, trace) && Buckets(cfg, trace)["k"] == Bucket(1, 0.0))
            && (forall i: nat :: i < n ==> Admitted(cfg, trace, i))
  {
    if n > 0 {
      ZeroWindowAdmitsAll(limit, n - 1);
      assert Burst(n)[..n - 1] == Burst(n - 1);
      PrefixAdmits(Config(limit, 0.0), Burst(n), n - 1);
    }
  }

  /** `n` requests at the same instant. */
  function Burst(n: nat): (r: seq<Request>)
    ensures |r| == n
  {
    seq(n, _ => Request("k", 0.0, 0.0))
  }

  function Range(n: nat): set<nat> {
    if n == 0 then {} else Range(n - 1) + {n - 1}
  }

  lemma {:induction false} RangeSize(n: nat)
    ensures |Range(n)| == n && forall i: nat :: i in Range(n) <==> i < n
  {
    if n > 0 { RangeSize(n - 1); }
  }

  /** The sliding bound holds for all traces exactly when the window is not of length zero or nothing is admitted. */
  lemma SlidingBoundIff(cfg: Config)
    ensures (forall trace, key, from :: Monotonic(trace) ==> SlidingBound(cfg, trace, key, from))
       <==> cfg.window != 0.0 || cfg.limit <= 0
  {
    if cfg.window == 0.0 && cfg.limit > 0 {
      var n := 2 * cfg.limit + 1;
      ZeroWindowAdmitsAll(cfg.limit, n);
      assert Monotonic(Burst(n));
      RangeSize(n);
      assert Admissions(cfg, Burst(n), "k", 0.0, 0.0) == Range(n);
      assert !SlidingBound(cfg, Burst(n), "k", 0.0);
    } else {
      forall trace, key, from | Monotonic(trace) ensures SlidingBound(cfg, trace, key, from) {
        if cfg.window > 0.0 {
          SlidingBoundHolds(cfg, trace, key, from);
        } else if cfg.window < 0.0 {
          assert Admissions(cfg, trace, key, from, from + cfg.window) == {};
        } else {
          NothingAdmitted(cfg, trace);
          assert Admissions(cfg, trace, key, from, from + cfg.window) == {};
        }
      }
    }
  }

  lemma {:induction false} NothingAdmitted(cfg: Config, trace: seq<Request>)
    requires cfg.limit <= 0
    ensures forall k :: k in Buckets(cfg, trace) ==> Buckets(cfg, trace)[k].count >= 0
    ensures forall i: nat :: i < |trace| ==> !Admitted(cfg, trace, i)
  {
    if trace != [] {
      var n := |trace| - 1;
      NothingAdmitted(cfg, trace[..n]);
      PrefixAdmits(cfg, trace, n);
    }
  }

  /** A request is denied only if `limit` requests of its key were admitted since the window opened. */
  lemma DeniedOnlyWhenFull(cfg: Config, trace: seq<Request>, i: nat)
    requires cfg.window > 0.0 && cfg.limit > 0 && Monotonic(trace) && i < |trace| && !Admitted(cfg, trace, i)
    ensures var key := trace[i].key;
            var full := AdmittedBetween(cfg, trace, key, WindowMarks(cfg, trace[..i], key).current, i);
            && |full| == cfg.limit
            && (forall j :: j in full ==> trace[i].now - cfg.window < trace[j].born)
  {
    var init, key := trace[..i], trace[i].key;
    WindowInvariant(cfg, init, key);
    BucketsHoldSeenKeys(cfg, init, key);
    var m := WindowMarks(cfg, init, key);
    PrefixAdmits(cfg, trace, i);
    assert AdmittedBetween(cfg, trace, key, m.current, i) == AdmittedBetween(cfg, init, key, m.current, i);
    forall j | j in AdmittedBetween(cfg, trace, key, m.current, i) ensures trace[i].now - cfg.window < trace[j].born {
      assert init[j] == trace[j];
    }
  }

  /** The requests of one key. */
  function Only(trace: seq<Request>, key: string): seq<Request> {
    if trace == [] then []
    else
      var n := |trace| - 1;
      if trace[n].key == key then Only(trace[..n], key) + [trace[n]] else Only(trace[..n], key)
  }

  /** Keys do not affect each other: a key's bucket, hence every answer, depends on its own requests alone. */
  lemma {:induction false} KeysAreIndependent(cfg: Config, trace: seq<Request>, r: Request)
    ensures var whole, own := Buckets(cfg, trace), Buckets(cfg, Only(trace, r.key));
            && (r.key in whole <==> r.key in own)
            && (r.key in whole ==> whole[r.key] == own[r.key])
            && Admits(cfg, whole, r) == Admits(cfg, own, r)
  {
    if trace != [] {
      var n := |trace| - 1;
      KeysAreIndependent(cfg, trace[..n], r);
      var own := Only(trace[..n], r.key);
      OneMoreRequest(cfg, own, trace[n]);
      AfterReadsOwn(cfg, Buckets(cfg, trace[..n]), Buckets(cfg, own), trace[n], r.key);
      hide After;
    }
    AdmitsReadsOwn(cfg, Buckets(cfg, trace), Buckets(cfg, Only(trace, r.key)), r);
    hide Admits;
  }

  ghost predicate SameBucket(b: map<string, Bucket>, b': map<string, Bucket>, key: string) {
    (key in b <==> key in b') && (key in b ==> b[key] == b'[key])
  }

  /** A request changes its own key's bucket as that bucket says, and no other. */
  lemma AfterReadsOwn(cfg: Config, b: map<string, Bucket>, b': map<string, Bucket>, q: Request, key: string)
    requires SameBucket(b, b', key)
    ensures SameBucket(After(cfg, b, q), if q.key == key then After(cfg, b', q) else b', key)
  {
  }

  lemma AdmitsReadsOwn(cfg: Config, b: map<string, Bucket>, b': map<string, Bucket>, q: Request)
    ensures SameBucket(b, b', q.key) ==> Admits(cfg, b, q) == Admits(cfg, b', q)
  {
  }

  lemma OneMoreRequest(cfg: Config, trace: seq<Request>, q: Request)
    ensures Buckets(cfg, trace + [q]) == After(cfg, Buckets(cfg, trace), q)
  {
    hide After;
    assert (trace + [q])[..|trace|] == trace;
  }

  // ---- the limiter itself ----

  class RateBucket {
    var count: int
    var windowStart: real

    constructor (count: int, windowStart: real)
      ensures this.count == count && this.windowStart == windowStart
    {
      this.count, this.windowStart := count, windowStart;
    }

    ghost function View(): Bucket
      reads this
    {
      Bucket(count, windowStart)
    }

    /** Roll the window over if it is due, then count the request if the window has room. */
    method Take(cfg: Config, now: real) returns (allowed: bool)
      modifies this
      ensures var b := Rolled(cfg, old(View()), now);
              allowed == (b.count < cfg.limit) && View() == if allowed then b.(count := b.count + 1) else b
    {
      if now - windowStart >= cfg.window {
        count := 0;
        windowStart := now;
      }
      if count >= cfg.limit {
        return false;
      }
      count := count + 1;
      return true;
    }
  }

  class InMemoryRateLimiter {
    const cfg: Config
    var buckets: map<string, RateBucket>

    /** One bucket object per key, never shared. */
    ghost predicate Valid()
      reads this, buckets.Values
    {
      forall k, l :: k in buckets && l in buckets && k != l ==> buckets[k] != buckets[l]
    }

    ghost function View(): map<string, Bucket>
      reads this, buckets.Values
    {
      map k | k in buckets :: buckets[k].View()
    }

    constructor (limit: int, window: real)
      ensures Valid() && View() == map[] && cfg == Config(limit, window) && buckets == map[]
    {
      cfg := Config(limit, window);
      buckets := map[];
    }

    method Allow(r: Request) returns (allowed: bool)
      requires Valid()
      modifies this, buckets.Values
      ensures Valid() && forall k :: k in buckets ==>
                (k in old(buckets) && buckets[k] == old(buckets)[k]) || fresh(buckets[k])
      ensures allowed == Admits(cfg, old(View()), r)
      ensures View() == After(cfg, old(View()), r)
    {
      ghost var before := View();
      if r.key !in buckets {
        var created := new RateBucket(0, r.born);
        buckets := buckets[r.key := created];
      }
      allowed := buckets[r.key].Take(cfg, r.now);
      assert forall k :: k in buckets && k != r.key ==> k in before && buckets[k].View() == before[k];
      assert View() == before[r.key := buckets[r.key].View()];
    }
  }
}
