/** Durable jobs, their attempts, and the transactional outbox. */
module Jobs {
  import opened Wrappers

  type Uuid = nat

  datatype JobStatus = Queued | Running | Succeeded | Failed | Cancelled | DeadLetter

  /** A JSON value of a payload, as far as the code looks at it; a derived id is uuid5 of an id and a name. */
  datatype Value = Id(id: Uuid) | DerivedId(from: Uuid, name: string) | Text(text: string) | Flag(flag: bool) | Null

  type Payload = map<string, Value>

  /** SHA-256 of the canonical JSON text, taken as injective. */
  datatype Digest = Sha256(canonical: Payload)

  const JOB_ID := "durable_job_id"

  /** `snapshot` says whether the row carries an auth snapshot at all; `deadLettered` whether `dead_letter_at` is
      set. */
  datatype Job = Job(
    jobType: string, status: JobStatus, space: Uuid, key: Option<string>, payload: Payload, snapshot: bool,
    deadLettered: bool, errorCode: Option<string>)

  datatype Attempt = Attempt(id: Uuid, job: Uuid, number: nat, status: JobStatus, errorCode: Option<string>)

  datatype EventType =
    | UploadCompleted | RetryRequested | ReprocessRequested
    | DeletionTombstoned | DeletionAdvanced
    | ActiveParseChanged | OtherEvent(name: string)

  datatype Event = Event(
    eventType: EventType, digest: Digest, payload: Payload, job: Option<Uuid>,
    published: bool, claim: Option<Uuid>, claimExpires: real)

  /** `attempts` lists rows in insertion order. */
  datatype Tables = Tables(jobs: map<Uuid, Job>, attempts: seq<Attempt>, outbox: map<Uuid, Event>)

  const EMPTY := Tables(map[], [], map[])

  datatype Error = NoResult | MultipleResults | UniqueViolation | IdempotencyConflict

  // ---- attempts ----

  /** The highest attempt number of a job, 0 if it has none. */
  function LatestNumber(attempts: seq<Attempt>, job: Uuid): nat {
    if attempts == [] then 0
    else
      var n := |attempts| - 1;
      var rest := LatestNumber(attempts[..n], job);
      if attempts[n].job == job && attempts[n].number > rest then attempts[n].number else rest
  }

  function NumbersOf(attempts: seq<Attempt>, job: Uuid): seq<nat> {
    if attempts == [] then []
    else
      var n := |attempts| - 1;
      NumbersOf(attempts[..n], job) + if attempts[n].job == job then [attempts[n].number] else []
  }

  function HasAttempt(attempts: seq<Attempt>, id: Uuid): bool {
    exists i :: 0 <= i < |attempts| && attempts[i].id == id
  }

  function Closed(a: Attempt, succeeded: bool, errorCode: Option<string>): Attempt {
    a.(status := if succeeded then Succeeded else Failed, errorCode := errorCode)
  }

  /** `update ... where id`: rewrite the row with this id. */
  function CloseAttempt(attempts: seq<Attempt>, id: Uuid, succeeded: bool, errorCode: Option<string>): (r: seq<Attempt>)
    ensures |r| == |attempts|
    ensures forall i :: 0 <= i < |r| ==>
              r[i] == if attempts[i].id == id then Closed(attempts[i], succeeded, errorCode) else attempts[i]
  {
    seq(|attempts|, i requires 0 <= i < |attempts| =>
      if attempts[i].id == id then Closed(attempts[i], succeeded, errorCode) else attempts[i])
  }

  function StartAttempt(t: Tables, job: Uuid, attemptId: Uuid): Result<Tables, Error> {
    if job !in t.jobs then Failure(NoResult)
    else if HasAttempt(t.attempts, attemptId) then Failure(UniqueViolation)
    else
      var row := Attempt(attemptId, job, LatestNumber(t.attempts, job) + 1, Running, None);
      Success(t.(attempts := t.attempts + [row], jobs := t.jobs[job := t.jobs[job].(status := Running)]))
  }

  function CompleteJob(t: Tables, job: Uuid, attemptId: Uuid, succeeded: bool,
                       errorCode: Option<string>)
    : Result<Tables, Error>
  {
    if job !in t.jobs || !HasAttempt(t.attempts, attemptId) then Failure(NoResult)
    else
      Success(t.(attempts := CloseAttempt(t.attempts, attemptId, succeeded, errorCode),
                 jobs := t.jobs[job := t.jobs[job].(status := if succeeded then Succeeded else Failed,
                                                    errorCode := errorCode)]))
  }

  function MarkDeadLetter(t: Tables, job: Uuid, errorCode: Option<string>): Result<Tables, Error> {
    if job !in t.jobs then Failure(NoResult)
    else
      Success(t.(jobs := t.jobs[job := t.jobs[job].(status := DeadLetter, deadLettered := true,
                                                    errorCode := errorCode)]))
  }

  function CancelJob(t: Tables, job: Uuid): Result<Tables, Error> {
    if job !in t.jobs then Failure(NoResult)
    else Success(t.(jobs := t.jobs[job := t.jobs[job].(status := Cancelled)]))
  }

  // ---- what the tables keep ----

  function UpTo(n: nat): seq<nat> {
    if n == 0 then [] else UpTo(n - 1) + [n]
  }

  /** Attempt numbers of every job run 1, 2, ..., n in insertion order; attempt ids are unique. */
  ghost predicate Numbered(t: Tables) {
    && (forall job :: NumbersOf(t.attempts, job) == UpTo(|NumbersOf(t.attempts, job)|))
    && (forall i, j :: 0 <= i < j < |t.attempts| ==> t.attempts[i].id != t.attempts[j].id)
    && (forall i :: 0 <= i < |t.attempts| ==> t.attempts[i].job in t.jobs)
  }

  /** No attempt and no job is left running. */
  ghost predicate Quiescent(t: Tables) {
    && (forall i :: 0 <= i < |t.attempts| ==> t.attempts[i].status == Succeeded || t.attempts[i].status == Failed)
    && (forall j :: j in t.jobs ==> t.jobs[j].status != Running)
  }

  ghost predicate HasClosedAttempt(t: Tables, job: Uuid) {
    exists i :: 0 <= i < |t.attempts| && t.attempts[i].job == job && t.attempts[i].status != Running
  }

  predicate IsIngestion(e: EventType) {
    e == UploadCompleted || e == RetryRequested || e == ReprocessRequested
  }

  /** Every event carries the digest of its payload. */
  ghost predicate DigestsMatch(t: Tables) {
    forall e :: e in t.outbox ==> t.outbox[e].digest == Sha256(t.outbox[e].payload)
  }

  lemma {:induction false} LatestIsLast(attempts: seq<Attempt>, job: Uuid, n: nat)
    requires NumbersOf(attempts, job) == UpTo(n)
    ensures LatestNumber(attempts, job) == n
  {
    if attempts == [] {
      assert |UpTo(n)| == 0;
    } else {
      var m := |attempts| - 1;
      if attempts[m].job == job {
        assert n > 0;
        assert UpTo(n)[..n - 1] == UpTo(n - 1) by { UpToLength(n - 1); }
        assert NumbersOf(attempts[..m], job) == NumbersOf(attempts, job)[..|NumbersOf(attempts, job)| - 1];
        UpToLength(n);
        LatestIsLast(attempts[..m], job, n - 1);
      } else {
        LatestIsLast(attempts[..m], job, n);
      }
    }
  }

  lemma {:induction false} UpToLength(n: nat)
    ensures |UpTo(n)| == n
  {
    if n > 0 { UpToLength(n - 1); }
  }

  lemma {:induction false} ClosingKeepsNumbers(attempts: seq<Attempt>, id: Uuid, succeeded: bool,
                                               errorCode: Option<string>, job: Uuid)
    ensures NumbersOf(CloseAttempt(attempts, id, succeeded, errorCode), job) == NumbersOf(attempts, job)
  {
    if attempts != [] {
      var n := |attempts| - 1;
      ClosingKeepsNumbers(attempts[..n], id, succeeded, errorCode, job);
      assert CloseAttempt(attempts, id, succeeded, errorCode)[..n]
          == CloseAttempt(attempts[..n], id, succeeded, errorCode);
    }
  }

  lemma StartKeepsNumbered(t: Tables, job: Uuid, attemptId: Uuid)
    requires Numbered(t) && StartAttempt(t, job, attemptId).Success?
    ensures Numbered(StartAttempt(t, job, attemptId).value)
  {
    var t' := StartAttempt(t, job, attemptId).value;
    forall j ensures NumbersOf(t'.attempts, j) == UpTo(|NumbersOf(t'.attempts, j)|) {
      assert t'.attempts[..|t.attempts|] == t.attempts;
      var n := |NumbersOf(t.attempts, j)|;
      assert NumbersOf(t.attempts, j) == UpTo(n);
      if j == job {
        LatestIsLast(t.attempts, job, n);
        assert NumbersOf(t'.attempts, j) == UpTo(n + 1);
        UpToLength(n + 1);
      }
    }
  }

  lemma CompleteKeepsNumbered(t: Tables, job: Uuid, attemptId: Uuid, succeeded: bool, errorCode: Option<string>)
    requires Numbered(t) && CompleteJob(t, job, attemptId, succeeded, errorCode).Success?
    ensures Numbered(CompleteJob(t, job, attemptId, succeeded, errorCode).value)
  {
    forall j { ClosingKeepsNumbers(t.attempts, attemptId, succeeded, errorCode, j); }
  }

  /**
   * Starting and then completing one attempt, with whatever outbox events in between, leaves nothing
   * running and one more closed attempt.
   */
  lemma AttemptCycle(t: Tables, job: Uuid, attemptId: Uuid, outbox: map<Uuid, Event>, succeeded: bool,
                     errorCode: Option<string>)
    requires Numbered(t) && Quiescent(t) && StartAttempt(t, job, attemptId).Success?
    ensures var open := StartAttempt(t, job, attemptId).value.(outbox := outbox);
            && CompleteJob(open, job, attemptId, succeeded, errorCode).Success?
            && var t' := CompleteJob(open, job, attemptId, succeeded, errorCode).value;
            && Numbered(t') && Quiescent(t') && HasClosedAttempt(t', job)
            && t'.outbox == outbox
            && t'.jobs[job].status == (if succeeded then Succeeded else Failed)
            && |NumbersOf(t'.attempts, job)| == |NumbersOf(t.attempts, job)| + 1
  {
    var open := StartAttempt(t, job, attemptId).value.(outbox := outbox);
    var last := |t.attempts|;
    assert open.attempts[last].id == attemptId;
    assert Numbered(open) by { StartKeepsNumbered(t, job, attemptId); }
    var t' := CompleteJob(open, job, attemptId, succeeded, errorCode).value;
    CompleteKeepsNumbered(open, job, attemptId, succeeded, errorCode);
    ClosingKeepsNumbers(open.attempts, attemptId, succeeded, errorCode, job);
    OneMoreNumber(t.attempts, open.attempts[last]);
    CycleClosesAttempt(t, job, attemptId, outbox, succeeded, errorCode);
  }

  lemma OneMoreNumber(attempts: seq<Attempt>, row: Attempt)
    ensures NumbersOf(attempts + [row], row.job) == NumbersOf(attempts, row.job) + [row.number]
  {
    assert (attempts + [row])[..|attempts|] == attempts;
  }

  lemma CycleClosesAttempt(t: Tables, job: Uuid, attemptId: Uuid, outbox: map<Uuid, Event>, succeeded: bool,
                           errorCode: Option<string>)
    requires Quiescent(t) && StartAttempt(t, job, attemptId).Success?
    requires var open := StartAttempt(t, job, attemptId).value.(outbox := outbox);
             CompleteJob(open, job, attemptId, succeeded, errorCode).Success?
    ensures var open := StartAttempt(t, job, attemptId).value.(outbox := outbox);
            var t' := CompleteJob(open, job, attemptId, succeeded, errorCode).value;
            Quiescent(t') && HasClosedAttempt(t', job)
  {
    hide LatestNumber;
    var open := StartAttempt(t, job, attemptId).value.(outbox := outbox);
    var t' := CompleteJob(open, job, attemptId, succeeded, errorCode).value;
    var last := |t.attempts|;
    assert t'.attempts[last].job == job && t'.attempts[last].status != Running;
  }

  // ---- enqueue ----

  function WithoutJobId(p: Payload): Payload {
    p - {JOB_ID}
  }

  function JobsWithKey(t: Tables, key: string): set<Uuid> {
    set j | j in t.jobs && t.jobs[j].key == Some(key)
  }

  function EventsOfJob(t: Tables, job: Uuid, eventType: EventType): set<Uuid> {
    set e | e in t.outbox && t.outbox[e].job == Some(job) && t.outbox[e].eventType == eventType
  }

  datatype EnqueueRequest = EnqueueRequest(
    jobType: string, space: Uuid, payload: Payload, eventType: EventType, key: Option<string>,
    jobId: Uuid, eventId: Uuid)

  datatype Enqueued = Enqueued(job: Uuid, event: Uuid)

  function InsertJob(t: Tables, r: EnqueueRequest): (Tables, Result<Enqueued, Error>) {
    if r.jobId in t.jobs || r.eventId in t.outbox then (t, Failure(UniqueViolation))
    else
      var bound := r.payload[JOB_ID := Id(r.jobId)];
      (t.(jobs := t.jobs[r.jobId := Job(r.jobType, Queued, r.space, r.key, bound, true, false, None)],
          outbox := t.outbox[r.eventId := Event(r.eventType, Sha256(bound), bound, Some(r.jobId), false, None, 0.0)]),
       Success(Enqueued(r.jobId, r.eventId)))
  }

  predicate SameRequest(j: Job, r: EnqueueRequest) {
    j.jobType == r.jobType && j.space == r.space && Sha256(WithoutJobId(j.payload)) == Sha256(r.payload)
  }

  /** The only element of a one-element set. */
  ghost function Only(s: set<Uuid>): (x: Uuid)
    requires |s| == 1
    ensures s == {x}
  {
    var x :| x in s;
    assert |s - {x}| == 0;
    assert s == {x};
    x
  }

  /** `enqueue_job_with_outbox`; the two queries raise when they find more than one row. */
  ghost function Enqueue(t: Tables, r: EnqueueRequest): (Tables, Result<Enqueued, Error>) {
    if r.key == None || r.key.value == "" || JobsWithKey(t, r.key.value) == {} then InsertJob(t, r)
    else if |JobsWithKey(t, r.key.value)| > 1 then (t, Failure(MultipleResults))
    else
      var existing := Only(JobsWithKey(t, r.key.value));
      if !SameRequest(t.jobs[existing], r) then (t, Failure(IdempotencyConflict))
      else
        var events := EventsOfJob(t, existing, r.eventType);
        if events == {} then InsertJob(t, r)
        else if |events| > 1 then (t, Failure(MultipleResults))
        else (t, Success(Enqueued(existing, Only(events))))
  }

  /** The foreign key from an event to its job. */
  ghost predicate EventJobsExist(t: Tables) {
    forall e :: e in t.outbox && t.outbox[e].job.Some? ==> t.outbox[e].job.value in t.jobs
  }

  function JobOf(r: EnqueueRequest): Job {
    Job(r.jobType, Queued, r.space, r.key, r.payload[JOB_ID := Id(r.jobId)], true, false, None)
  }

  /** The columns by which a repeated request is recognised, and that nothing rewrites. */
  predicate SameFacts(a: Job, b: Job) {
    a.jobType == b.jobType && a.space == b.space && a.key == b.key && a.payload == b.payload
  }

  /** The rows a request inserted are still there, and no other event names its job. */
  ghost predicate HoldsRequest(t: Tables, r: EnqueueRequest) {
    && r.jobId in t.jobs && SameFacts(t.jobs[r.jobId], JobOf(r))
    && r.eventId in t.outbox && t.outbox[r.eventId].job == Some(r.jobId) && t.outbox[r.eventId].eventType == r.eventType
    && (forall e :: e in t.outbox && t.outbox[e].job == Some(r.jobId) ==> e == r.eventId)
  }

  /** What every step but an enqueue leaves alone: the jobs' facts, the events' jobs; new events name no job. */
  ghost predicate KeepsRequests(t: Tables, t': Tables) {
    && t'.jobs.Keys == t.jobs.Keys
    && (forall j :: j in t.jobs ==> SameFacts(t'.jobs[j], t.jobs[j]))
    && (forall e :: e in t.outbox ==>
          e in t'.outbox && t'.outbox[e].job == t.outbox[e].job && t'.outbox[e].eventType == t.outbox[e].eventType)
    && (forall e :: e in t'.outbox && e !in t.outbox ==> t'.outbox[e].job == None)
  }

  lemma SameRequests(t: Tables)
    ensures KeepsRequests(t, t)
  {
  }

  lemma RewrittenEventKeepsRequests(t: Tables, id: Uuid, e: Event)
    requires id in t.outbox && e.job == t.outbox[id].job && e.eventType == t.outbox[id].eventType
    ensures KeepsRequests(t, t.(outbox := t.outbox[id := e]))
  {
  }

  lemma KeepsTransitive(a: Tables, b: Tables, c: Tables)
    requires KeepsRequests(a, b) && KeepsRequests(b, c)
    ensures KeepsRequests(a, c)
  {
  }

  lemma KeptRequest(t: Tables, t': Tables, r: EnqueueRequest)
    requires KeepsRequests(t, t') && HoldsRequest(t, r)
    ensures HoldsRequest(t', r)
  {
  }

  lemma KeptKey(t: Tables, t': Tables, key: string)
    requires KeepsRequests(t, t')
    ensures JobsWithKey(t', key) == JobsWithKey(t, key)
  {
  }

  lemma KeptEventJobs(t: Tables, t': Tables)
    requires KeepsRequests(t, t') && EventJobsExist(t)
    ensures EventJobsExist(t')
  {
  }

  /** Starting and completing an attempt around some new events that name no job. */
  lemma AttemptsKeepRequests(t: Tables, job: Uuid, attemptId: Uuid, outbox: map<Uuid, Event>, succeeded: bool,
                             errorCode: Option<string>)
    requires StartAttempt(t, job, attemptId).Success? && KeepsRequests(t, t.(outbox := outbox))
    requires var open := StartAttempt(t, job, attemptId).value.(outbox := outbox);
             CompleteJob(open, job, attemptId, succeeded, errorCode).Success?
    ensures var open := StartAttempt(t, job, attemptId).value.(outbox := outbox);
            KeepsRequests(t, CompleteJob(open, job, attemptId, succeeded, errorCode).value)
  {
    hide LatestNumber;
    hide HasAttempt;
  }

  lemma InsertHolds(t: Tables, r: EnqueueRequest)
    requires EventJobsExist(t) && InsertJob(t, r).1.Success?
    ensures HoldsRequest(InsertJob(t, r).0, r)
  {
  }

  /** A call that answers with ids it drew for a new job has inserted that job. */
  lemma NewJobWasInserted(t: Tables, r: EnqueueRequest)
    requires Enqueue(t, r).1 == Success(Enqueued(r.jobId, r.eventId)) && r.jobId !in t.jobs
    ensures Enqueue(t, r) == InsertJob(t, r)
  {
    if r.key.Some? && |JobsWithKey(t, r.key.value)| == 1 {
      assert Only(JobsWithKey(t, r.key.value)) in t.jobs;
    }
  }

  lemma EnqueueHolds(t: Tables, r: EnqueueRequest, q: EnqueueRequest)
    requires HoldsRequest(t, r)
    ensures HoldsRequest(Enqueue(t, q).0, r)
  {
    var t' := Enqueue(t, q).0;
    assert t' == t || t' == InsertJob(t, q).0;
    hide Enqueue;
  }

  lemma EnqueueKeepsEventJobs(t: Tables, q: EnqueueRequest)
    requires EventJobsExist(t)
    ensures EventJobsExist(Enqueue(t, q).0)
  {
    var t' := Enqueue(t, q).0;
    assert t' == t || t' == InsertJob(t, q).0;
    hide Enqueue;
  }

  lemma MoreThanOne(s: set<Uuid>, x: Uuid)
    requires x in s
    ensures s != {x} <==> |s| > 1
  {
    assert s == {x} + (s - {x});
  }

  /** `q` repeats `r`'s job under its key for another type of event, with unused ids. */
  ghost predicate SecondJob(t: Tables, r: EnqueueRequest, q: EnqueueRequest) {
    && q.key == r.key && SameRequest(JobOf(r), q) && q.eventType != r.eventType
    && q.jobId !in t.jobs && q.eventId !in t.outbox
  }

  /** While a key has one job, the next call gives it a second one exactly when it is such a repeat. */
  lemma SecondJobIff(t: Tables, r: EnqueueRequest, q: EnqueueRequest)
    requires r.key.Some? && r.key.value != "" && HoldsRequest(t, r) && JobsWithKey(t, r.key.value) == {r.jobId}
    ensures JobsWithKey(Enqueue(t, q).0, r.key.value) != {r.jobId} <==> SecondJob(t, r, q)
  {
    var key := r.key.value;
    var t' := Enqueue(t, q).0;
    assert q.eventType == r.eventType ==> EventsOfJob(t, r.jobId, q.eventType) == {r.eventId};
    assert q.eventType != r.eventType ==> EventsOfJob(t, r.jobId, q.eventType) == {};
    if t' != t {
      assert t' == InsertJob(t, q).0 && q.jobId in t'.jobs && t'.jobs[q.jobId].key == q.key;
      assert q.key == r.key ==> q.jobId in JobsWithKey(t', key);
      assert q.key != r.key ==> JobsWithKey(t', key) == {r.jobId};
    }
  }

  /** A key never loses a job. */
  lemma KeysGrow(t: Tables, q: EnqueueRequest, key: string)
    ensures JobsWithKey(t, key) <= JobsWithKey(Enqueue(t, q).0, key)
  {
    var t' := Enqueue(t, q).0;
    assert t' == t || t' == InsertJob(t, q).0;
  }

  lemma HeldJobHasKey(t: Tables, r: EnqueueRequest)
    requires HoldsRequest(t, r) && r.key.Some?
    ensures r.jobId in JobsWithKey(t, r.key.value)
  {
  }

  lemma SamePayloadIff(r: EnqueueRequest)
    ensures WithoutJobId(r.payload[JOB_ID := Id(r.jobId)]) == r.payload <==> JOB_ID !in r.payload
  {
    var bound := r.payload[JOB_ID := Id(r.jobId)];
    assert JOB_ID !in WithoutJobId(bound);
    assert WithoutJobId(bound) == WithoutJobId(r.payload);
    assert JOB_ID !in r.payload ==> WithoutJobId(r.payload) == r.payload;
  }

  /** A repeat finds its first answer exactly when its job is the key's only one and its payload names no job. */
  lemma RepeatAnswersIff(t: Tables, r: EnqueueRequest, again: EnqueueRequest)
    requires r.key.Some? && r.key.value != "" && HoldsRequest(t, r)
    requires again == r.(jobId := again.jobId, eventId := again.eventId)
    ensures Enqueue(t, again) == (t, Success(Enqueued(r.jobId, r.eventId)))
       <==> JOB_ID !in r.payload && JobsWithKey(t, r.key.value) == {r.jobId}
  {
    HeldJobHasKey(t, r);
    MoreThanOne(JobsWithKey(t, r.key.value), r.jobId);
    SamePayloadIff(r);
    assert EventsOfJob(t, r.jobId, r.eventType) == {r.eventId};
  }

  lemma FirstEnqueue(t: Tables, r: EnqueueRequest)
    requires r.key.Some? && r.key.value != "" && JobsWithKey(t, r.key.value) == {} && EventJobsExist(t)
    requires Enqueue(t, r).1.Success?
    ensures var (t', first) := Enqueue(t, r);
      && HoldsRequest(t', r) && JobsWithKey(t', r.key.value) == {r.jobId}
      && first == Success(Enqueued(r.jobId, r.eventId))
      && t'.jobs.Keys == t.jobs.Keys + {r.jobId} && t'.outbox.Keys == t.outbox.Keys + {r.eventId}
  {
    InsertHolds(t, r);
  }

  /** The same request for another type of event gives the key a second job, and every repeat then raises. */
  lemma RepeatAfterOtherEventRaises(t: Tables, r: EnqueueRequest, other: EnqueueRequest, again: EnqueueRequest)
    requires r.key.Some? && r.key.value != "" && JobsWithKey(t, r.key.value) == {} && EventJobsExist(t)
    requires JOB_ID !in r.payload && Enqueue(t, r).1.Success?
    requires other == r.(eventType := other.eventType, jobId := other.jobId, eventId := other.eventId)
    requires other.eventType != r.eventType
    requires other.jobId !in t.jobs && other.jobId != r.jobId && other.eventId !in t.outbox
             && other.eventId != r.eventId
    requires again == r.(jobId := again.jobId, eventId := again.eventId)
    ensures var later := Enqueue(Enqueue(t, r).0, other).0;
            Enqueue(later, again) == (later, Failure(MultipleResults))
  {
    var t' := Enqueue(t, r).0;
    FirstEnqueue(t, r);
    assert SecondJob(t', r, other) by {
      SamePayloadIff(r);
    }
    hide *;
    SecondJobIff(t', r, other);
    EnqueueHolds(t', r, other);
    RepeatRaises(Enqueue(t', other).0, r, again);
  }

  lemma RepeatRaises(t: Tables, r: EnqueueRequest, again: EnqueueRequest)
    requires r.key.Some? && r.key.value != "" && HoldsRequest(t, r) && JobsWithKey(t, r.key.value) != {r.jobId}
    requires again.key == r.key
    ensures Enqueue(t, again) == (t, Failure(MultipleResults))
  {
    HeldJobHasKey(t, r);
    MoreThanOne(JobsWithKey(t, r.key.value), r.jobId);
  }

  /** Some job carries the request's key. */
  ghost predicate KeyUsed(t: Tables, r: EnqueueRequest) {
    r.key.Some? && r.key.value != "" && exists j :: j in t.jobs && t.jobs[j].key == r.key
  }

  /** The key's only job differs from the request in type, space or payload, its own id aside. */
  ghost predicate Differs(t: Tables, j: Uuid, r: EnqueueRequest) {
    && j in t.jobs && t.jobs[j].key == r.key
    && (t.jobs[j].jobType != r.jobType || t.jobs[j].space != r.space
        || t.jobs[j].payload - {"durable_job_id"} != r.payload)
  }

  /**
   * What a request is answered. Under an unused key, or none, it becomes a queued job with its snapshot and
   * one unpublished event, unless an id is taken. Under a key with one job it is a conflict exactly when
   * that job has another type, space or payload; two jobs or two events make the lookup raise.
   */
  lemma EnqueueAnswers(t: Tables, r: EnqueueRequest)
    ensures var (t', res) := Enqueue(t, r);
            var used := KeyUsed(t, r);
            var single := used && |JobsWithKey(t, r.key.value)| == 1;
            var free := r.jobId !in t.jobs && r.eventId !in t.outbox;
            && (!used ==> res == if free then Success(Enqueued(r.jobId, r.eventId)) else Failure(UniqueViolation))
            && (res == Failure(IdempotencyConflict) <==> single && exists j :: Differs(t, j, r))
            && (used && !single ==> res == Failure(MultipleResults))
            && (res.Failure? ==> t' == t)
            && (t' != t ==> res == Success(Enqueued(r.jobId, r.eventId)) && free && Inserted(t, t', r))
            && (res.Success? && t' == t ==>
                  && single && res.value.job in t.jobs && t.jobs[res.value.job].key == r.key
                  && res.value.event in t.outbox && t.outbox[res.value.event].job == Some(res.value.job)
                  && t.outbox[res.value.event].eventType == r.eventType)
  {
    if KeyUsed(t, r) {
      var keyed := JobsWithKey(t, r.key.value);
      var k :| k in t.jobs && t.jobs[k].key == r.key;
      assert k in keyed;
      if |keyed| == 1 {
        var j := Only(keyed);
        assert forall k :: Differs(t, k, r) ==> k in keyed;
        assert j in keyed;
        assert Differs(t, j, r) <==> !SameRequest(t.jobs[j], r);
        if SameRequest(t.jobs[j], r) { KeyAnswers(t, r, j); }
      }
      hide Inserted;
    } else {
      assert r.key.Some? && r.key.value != "" ==> JobsWithKey(t, r.key.value) == {};
    }
    InsertsJob(t, r);
    hide InsertJob;
  }

  lemma KeyAnswers(t: Tables, r: EnqueueRequest, j: Uuid)
    requires r.key.Some? && r.key.value != "" && JobsWithKey(t, r.key.value) == {j} && j in t.jobs
    requires SameRequest(t.jobs[j], r)
    ensures var (t', res) := Enqueue(t, r);
            if EventsOfJob(t, j, r.eventType) == {} then (t', res) == InsertJob(t, r)
            else if |EventsOfJob(t, j, r.eventType)| > 1 then t' == t && res == Failure(MultipleResults)
            else t' == t && res.Success? && res.value.job == j && res.value.event in EventsOfJob(t, j, r.eventType)
  {
  }

  /** Exactly one queued job and its unpublished event were added. */
  ghost predicate Inserted(t: Tables, t': Tables, r: EnqueueRequest) {
    && r.jobId in t'.jobs && r.eventId in t'.outbox
    && t' == t.(jobs := t.jobs[r.jobId := t'.jobs[r.jobId]], outbox := t.outbox[r.eventId := t'.outbox[r.eventId]])
    && var job, event := t'.jobs[r.jobId], t'.outbox[r.eventId];
    && job.jobType == r.jobType && job.space == r.space && job.key == r.key && job.status == Queued
    && job.snapshot && !job.deadLettered && job.errorCode == None
    && job.payload == r.payload["durable_job_id" := Id(r.jobId)]
    && event.eventType == r.eventType && event.payload == job.payload && event.digest == Sha256(job.payload)
    && event.job == Some(r.jobId) && !event.published && event.claim == None
  }

  lemma InsertsJob(t: Tables, r: EnqueueRequest)
    ensures var (t', res) := InsertJob(t, r);
            if r.jobId !in t.jobs && r.eventId !in t.outbox
            then res == Success(Enqueued(r.jobId, r.eventId)) && Inserted(t, t', r)
            else t' == t && res == Failure(UniqueViolation)
  {
  }

  /** A started attempt takes the number after the job's last one, and only it and its job's status are new. */
  lemma StartOpensNext(t: Tables, job: Uuid, attemptId: Uuid)
    requires Numbered(t)
    ensures var r := StartAttempt(t, job, attemptId);
            var used := exists i :: 0 <= i < |t.attempts| && t.attempts[i].id == attemptId;
            && (r.Success? <==> job in t.jobs && !used)
            && (r.Failure? ==> r.error == if job in t.jobs then UniqueViolation else NoResult)
            && (r.Success? ==>
                  var number := |NumbersOf(t.attempts, job)| + 1;
                  r.value == t.(attempts := t.attempts + [Attempt(attemptId, job, number, Running, None)],
                                jobs := t.jobs[job := t.jobs[job].(status := Running)]))
  {
    LatestIsLast(t.attempts, job, |NumbersOf(t.attempts, job)|);
  }

  /** Completing closes the one attempt of this id and its job, both with the same outcome and error. */
  lemma CompleteClosesOne(t: Tables, job: Uuid, attemptId: Uuid, succeeded: bool, errorCode: Option<string>, i: nat)
    requires Numbered(t) && i < |t.attempts| && t.attempts[i].id == attemptId && job in t.jobs
    ensures var r := CompleteJob(t, job, attemptId, succeeded, errorCode);
            var status := if succeeded then Succeeded else Failed;
            && r.Success?
            && r.value == t.(attempts := t.attempts[i := t.attempts[i].(status := status, errorCode := errorCode)],
                             jobs := t.jobs[job := t.jobs[job].(status := status, errorCode := errorCode)])
  {
    var r := CompleteJob(t, job, attemptId, succeeded, errorCode);
    assert HasAttempt(t.attempts, attemptId);
    assert r.value.attempts == t.attempts[i := Closed(t.attempts[i], succeeded, errorCode)];
  }

  /** Enqueueing keeps every event's digest valid, numbers no attempt, and starts nothing. */
  lemma EnqueueKeepsTables(t: Tables, r: EnqueueRequest)
    requires Numbered(t) && Quiescent(t) && DigestsMatch(t)
    ensures var t' := Enqueue(t, r).0;
            Numbered(t') && Quiescent(t') && DigestsMatch(t')
            && t'.attempts == t.attempts
            && (forall j :: j in t.jobs ==> j in t'.jobs && t'.jobs[j] == t.jobs[j])
            && (forall e :: e in t.outbox ==> e in t'.outbox && t'.outbox[e] == t.outbox[e])
            && (forall e :: e in t'.outbox && e !in t.outbox ==> !t'.outbox[e].published)
  {
    var t' := Enqueue(t, r).0;
    assert t' == t || t' == InsertJob(t, r).0;
  }

  // ---- the tables, updated in place ----

  class JobTables {
    var jobs: map<Uuid, Job>
    var attempts: seq<Attempt>
    var outbox: map<Uuid, Event>

    function View(): Tables
      reads this
    {
      Tables(jobs, attempts, outbox)
    }

    constructor ()
      ensures View() == EMPTY
    {
      jobs, attempts, outbox := map[], [], map[];
    }

    /** Put back an earlier state: what the session's rollback does. */
    method Rollback(jobs: map<Uuid, Job>, attempts: seq<Attempt>, outbox: map<Uuid, Event>)
      modifies this
      ensures View() == Tables(jobs, attempts, outbox)
    {
      this.jobs, this.attempts, this.outbox := jobs, attempts, outbox;
    }

    method StartJobAttempt(job: Uuid, attemptId: Uuid) returns (error: Option<Error>)
      modifies this
      ensures match StartAttempt(old(View()), job, attemptId)
              case Success(t) => error == None && View() == t
              case Failure(e) => error == Some(e) && View() == old(View())
    {
      if job !in jobs {
        return Some(NoResult);
      }
      var latest := 0;
      for i := 0 to |attempts|
        invariant latest == LatestNumber(attempts[..i], job)
      {
        assert attempts[..i + 1][..i] == attempts[..i];
        if attempts[i].job == job && attempts[i].number > latest {
          latest := attempts[i].number;
        }
      }
      assert attempts[..|attempts|] == attempts;
      if HasAttempt(attempts, attemptId) {
        return Some(UniqueViolation);
      }
      attempts := attempts + [Attempt(attemptId, job, latest + 1, Running, None)];
      jobs := jobs[job := jobs[job].(status := Running)];
      return None;
    }

    method CompleteJobAttempt(job: Uuid, attemptId: Uuid, succeeded: bool, errorCode: Option<string>)
      returns (error: Option<Error>)
      modifies this
      ensures match CompleteJob(old(View()), job, attemptId, succeeded, errorCode)
              case Success(t) => error == None && View() == t
              case Failure(e) => error == Some(e) && View() == old(View())
    {
      if job !in jobs || !HasAttempt(attempts, attemptId) {
        return Some(NoResult);
      }
      attempts := CloseAttempt(attempts, attemptId, succeeded, errorCode);
      jobs := jobs[job := jobs[job].(status := if succeeded then Succeeded else Failed, errorCode := errorCode)];
      return None;
    }

    method DeadLetterJob(job: Uuid, errorCode: Option<string>) returns (error: Option<Error>)
      modifies this
      ensures match MarkDeadLetter(old(View()), job, errorCode)
              case Success(t) => error == None && View() == t
              case Failure(e) => error == Some(e) && View() == old(View())
    {
      if job !in jobs {
        return Some(NoResult);
      }
      jobs := jobs[job := jobs[job].(status := DeadLetter, deadLettered := true, errorCode := errorCode)];
      return None;
    }

    method EnqueueJob(r: EnqueueRequest) returns (result: Result<Enqueued, Error>)
      modifies this
      ensures (View(), result) == Enqueue(old(View()), r)
    {
      if r.key.Some? && r.key.value != "" {
        var found := set j | j in jobs && jobs[j].key == r.key;
        assert found == JobsWithKey(View(), r.key.value);
        if |found| > 1 {
          return Failure(MultipleResults);
        }
        if found != {} {
          var existing :| existing in found;
          assert existing == Only(found);
          if !SameRequest(jobs[existing], r) {
            return Failure(IdempotencyConflict);
          }
          var events := set e | e in outbox && outbox[e].job == Some(existing) && outbox[e].eventType == r.eventType;
          assert events == EventsOfJob(View(), existing, r.eventType);
          if |events| > 1 {
            return Failure(MultipleResults);
          }
          if events != {} {
            var event :| event in events;
            assert event == Only(events);
            return Success(Enqueued(existing, event));
          }
        }
      }
      if r.jobId in jobs || r.eventId in outbox {
        return Failure(UniqueViolation);
      }
      var bound := r.payload[JOB_ID := Id(r.jobId)];
      jobs := jobs[r.jobId := Job(r.jobType, Queued, r.space, r.key, bound, true, false, None)];
      outbox := outbox[r.eventId := Event(r.eventType, Sha256(bound), bound, Some(r.jobId), false, None, 0.0)];
      return Success(Enqueued(r.jobId, r.eventId));
    }
  }
}
