/** The worker: claim a batch of outbox events, run each one's effect, acknowledge it. */
module Processor {
  import opened Wrappers
  import J = Jobs
  import I = Ingestion
  import opened Ordering

  type Uuid = nat

  datatype DeletionState = Tombstoned | RevokingGrants | PurgingProjections | Completed

  datatype State = State(db: I.Db, workflows: map<Uuid, DeletionState>)

  datatype DispatchResult = DispatchResult(event: Uuid, acknowledged: bool, job: Option<Uuid>)

  /** What the outside answers while one event is processed: the snapshot's verdict and the ingestion world. */
  datatype Inputs = Inputs(snapshotValid: bool, world: I.World)

  // ---- claim and acknowledge, as the SQL functions do ----

  predicate Claimable(e: J.Event, now: real) {
    !e.published && (e.claim == None || e.claimExpires < now)
  }

  function Claimed(t: J.Tables, picked: seq<Uuid>, token: Uuid, now: real, expires: real): J.Tables {
    t.(outbox := map e | e in t.outbox :: if e in picked && Claimable(t.outbox[e], now)
                                          then t.outbox[e].(claim := Some(token), claimExpires := expires)
                                          else t.outbox[e])
  }

  /** Publish the event if the token still holds its claim. */
  function Ack(t: J.Tables, event: Uuid, token: Uuid): (J.Tables, bool) {
    if event in t.outbox && t.outbox[event].claim == Some(token) && !t.outbox[event].published
    then (t.(outbox := t.outbox[event := t.outbox[event].(published := true, claim := None)]), true)
    else (t, false)
  }

  /** `_ack`: a row without a token is not acknowledged. */
  function AckRow(st: State, id: Uuid, row: J.Event, job: Option<Uuid>): (State, DispatchResult) {
    if row.claim == None then (st, DispatchResult(id, false, job))
    else
      var (t, acked) := Ack(st.db.jobs, id, row.claim.value);
      (st.(db := st.db.(jobs := t)), DispatchResult(id, acked, job))
  }

  // ---- one event ----

  function NextDeletion(s: DeletionState): DeletionState {
    match s
    case Tombstoned => RevokingGrants
    case RevokingGrants => PurgingProjections
    case PurgingProjections => Completed
    case Completed => Completed
  }

  function ProcessDeletion(st: State, id: Uuid, row: J.Event): (State, DispatchResult) {
    if "workflow_id" !in row.payload || row.payload["workflow_id"] == J.Null then AckRow(st, id, row, None)
    else if !row.payload["workflow_id"].Id? then (st, DispatchResult(id, false, None))
    else
      var workflow := row.payload["workflow_id"].id;
      if workflow !in st.workflows then AckRow(st, id, row, None)
      else AckRow(st.(workflows := st.workflows[workflow := NextDeletion(st.workflows[workflow])]), id, row, None)
  }

  /** Python truth of a payload value. */
  predicate Truthy(v: J.Value) {
    match v
    case Id(_) => true
    case DerivedId(_, _) => true
    case Text(text) => text != ""
    case Flag(flag) => flag
    case Null => false
  }

  function FieldId(p: J.Payload, key: string): Option<Uuid> {
    if key in p && p[key].Id? then Some(p[key].id) else None
  }

  function ShadowOf(p: J.Payload): bool {
    "shadow" in p && Truthy(p["shadow"])
  }

  datatype Raised = Raised

  /** `process_claimed_event`, from the row as it was claimed. */
  function Process(st: State, id: Uuid, row: J.Event, inp: Inputs): Result<(State, DispatchResult), Raised> {
    if row.eventType == J.DeletionTombstoned || row.eventType == J.DeletionAdvanced
        then Success(ProcessDeletion(st, id, row))
    else if !J.IsIngestion(row.eventType) then Success((st, DispatchResult(id, false, None)))
    else if FieldId(row.payload, "source_id") == None || FieldId(row.payload, "revision_id") == None
        then Failure(Raised)
    else if FieldId(row.payload, J.JOB_ID) == None then Success((st, DispatchResult(id, false, None)))
    else
      var job := FieldId(row.payload, J.JOB_ID).value;
      var t := st.db.jobs;
      if job !in t.jobs || !t.jobs[job].snapshot then Success((st, DispatchResult(id, false, Some(job))))
      else if !inp.snapshotValid then
        var marked := J.MarkDeadLetter(t, job, Some("auth_snapshot_invalid")).value;
        Success(AckRow(st.(db := st.db.(jobs := marked)), id, row, Some(job)))
      else
        match I.Ingest(st.db, RequestOf(row, job), inp.world)
        case Failure(_) => Failure(Raised)
        case Success(v) => Success(AckRow(st.(db := v.0), id, row, Some(job)))
  }

  function RequestOf(row: J.Event, job: Uuid): I.Request {
    I.Request(FieldId(row.payload, "source_id").GetOr(0), FieldId(row.payload, "revision_id").GetOr(0), Some(job),
        ShadowOf(row.payload))
  }

  // ---- a batch ----

  datatype Job = Job(id: Uuid, row: J.Event, inputs: Inputs)

  /** Process claimed rows in order; a row whose digest does not match is skipped; one exception fails the batch. */
  function ProcessAll(st: State, rows: seq<Job>): Result<(State, seq<DispatchResult>), Raised> {
    if rows == [] then Success((st, []))
    else
      var n := |rows| - 1;
      match ProcessAll(st, rows[..n])
      case Failure(_) => Failure(Raised)
      case Success(done) =>
        if rows[n].row.digest != J.Sha256(rows[n].row.payload) then Success(done)
        else
          match Process(done.0, rows[n].id, rows[n].row, rows[n].inputs)
          case Failure(_) => Failure(Raised)
          case Success(v) => Success((v.0, done.1 + [v.1]))
  }

  datatype Batch = Batch(picked: seq<Uuid>, inputs: seq<Inputs>, token: Uuid, now: real, expires: real)

  /** The claimed rows, as returned by the claim. */
  function ClaimedRows(before: J.Tables, b: Batch): seq<Job> {
    var after := Claimed(before, b.picked, b.token, b.now, b.expires);
    RowsFrom(before, after, b, |b.picked|)
  }

  function RowsFrom(before: J.Tables, after: J.Tables, b: Batch, n: nat): seq<Job>
    requires n <= |b.picked|
  {
    if n == 0 then []
    else
      var e := b.picked[n - 1];
      if e in before.outbox && e in after.outbox && Claimable(before.outbox[e], b.now) && n - 1 < |b.inputs|
      then RowsFrom(before, after, b, n - 1) + [Job(e, after.outbox[e], b.inputs[n - 1])]
      else RowsFrom(before, after, b, n - 1)
  }

  /** `dispatch_outbox_batch`: one transaction; a raised call leaves everything, claims included, as before. */
  function Dispatch(st: State, b: Batch): (State, seq<DispatchResult>) {
    var claimed := st.(db := st.db.(jobs := Claimed(st.db.jobs, b.picked, b.token, b.now, b.expires)));
    match ProcessAll(claimed, ClaimedRows(st.db.jobs, b))
    case Failure(_) => (st, [])
    case Success(v) => v
  }

  // ---- what every step keeps ----

  /** A published ingestion event's job has a closed attempt or was dead-lettered. */
  ghost predicate SafelyAcked(t: J.Tables, e: J.Event) {
    e.published && J.IsIngestion(e.eventType) ==>
      && FieldId(e.payload, J.JOB_ID).Some?
      && var job := FieldId(e.payload, J.JOB_ID).value;
      job in t.jobs && (t.jobs[job].deadLettered || J.HasClosedAttempt(t, job))
  }

  ghost predicate AcksSafe(t: J.Tables) {
    forall e :: e in t.outbox ==> SafelyAcked(t, t.outbox[e])
  }

  ghost predicate Sound(st: State) {
    && J.Numbered(st.db.jobs) && J.Quiescent(st.db.jobs) && J.DigestsMatch(st.db.jobs)
    && AcksSafe(st.db.jobs)
    && I.ActiveSound(st.db)
  }

  /** Jobs only move forward between two tables. */
  ghost predicate JobsForward(t: J.Tables, t': J.Tables) {
    forall j :: j in t.jobs ==>
      && j in t'.jobs
      && (t.jobs[j].deadLettered ==> t'.jobs[j].deadLettered)
      && (J.HasClosedAttempt(t, j) ==> J.HasClosedAttempt(t', j))
  }

  lemma AcksStaySafe(t: J.Tables, t': J.Tables)
    requires AcksSafe(t) && JobsForward(t, t')
    requires forall e :: e in t'.outbox ==>
               !t'.outbox[e].published
               || (e in t.outbox && t.outbox[e].published && t'.outbox[e].eventType == t.outbox[e].eventType
                   && t'.outbox[e].payload == t.outbox[e].payload)
    ensures AcksSafe(t')
  {
    hide J.HasClosedAttempt;
    forall e | e in t'.outbox ensures SafelyAcked(t', t'.outbox[e]) {
      if t'.outbox[e].published { assert SafelyAcked(t, t.outbox[e]); }
    }
  }

  /** Event types, payloads and digests never change, and no event disappears. */
  ghost predicate FactsStay(t: J.Tables, t': J.Tables) {
    forall e :: e in t.outbox ==>
      && e in t'.outbox
      && t'.outbox[e].eventType == t.outbox[e].eventType && t'.outbox[e].payload == t.outbox[e].payload
      && t'.outbox[e].digest == t.outbox[e].digest
      && (t.outbox[e].published ==> t'.outbox[e].published)
  }

  ghost predicate RowMatches(t: J.Tables, id: Uuid, row: J.Event) {
    id in t.outbox && t.outbox[id].eventType == row.eventType && t.outbox[id].payload == row.payload
  }

  /** What each piece of a step may assume of its start and must deliver. */
  ghost predicate Follows(st: State, st': State) {
    Sound(st') && FactsStay(st.db.jobs, st'.db.jobs) && JobsForward(st.db.jobs, st'.db.jobs)
  }

  lemma FollowsTransitive(a: State, b: State, c: State)
    requires Follows(a, b) && Follows(b, c)
    ensures Follows(a, c)
  {
    hide Sound;
    hide J.HasClosedAttempt;
  }

  lemma FollowsReflexive(st: State)
    requires Sound(st)
    ensures Follows(st, st)
  {
  }

  /** Steps that rewrite only claim and publication columns. */
  lemma OutboxStep(st: State, outbox: map<Uuid, J.Event>)
    requires Sound(st) && outbox.Keys == st.db.jobs.outbox.Keys
    requires FactsStay(st.db.jobs, st.db.jobs.(outbox := outbox))
    requires forall e :: e in outbox && outbox[e].published && !st.db.jobs.outbox[e].published ==>
               SafelyAcked(st.db.jobs, outbox[e])
    ensures Follows(st, st.(db := st.db.(jobs := st.db.jobs.(outbox := outbox))))
  {
    var t := st.db.jobs;
    var t' := t.(outbox := outbox);
    var st' := st.(db := st.db.(jobs := t'));
    I.SameRowsSamePointers(st.db, st'.db);
    I.OutboxOnlyConserves(t, outbox);
    assert JobsForward(t, t') by { hide J.Numbered; hide J.Quiescent; hide J.HasClosedAttempt; }
    hide J.Numbered;
    hide J.Quiescent;
    hide I.ActiveSound;
    forall e | e in outbox ensures SafelyAcked(t', outbox[e]) {
      if outbox[e].published && t.outbox[e].published {
        assert SafelyAcked(t, t.outbox[e]);
      }
      SameJobsSameSafety(t, t', outbox[e]);
    }
  }

  lemma SameJobsSameSafety(t: J.Tables, t': J.Tables, e: J.Event)
    requires t'.jobs == t.jobs && t'.attempts == t.attempts
    ensures SafelyAcked(t, e) <==> SafelyAcked(t', e)
  {
  }

  lemma ClaimFollows(st: State, b: Batch)
    requires Sound(st)
    ensures Follows(st, st.(db := st.db.(jobs := Claimed(st.db.jobs, b.picked, b.token, b.now, b.expires))))
  {
    hide Sound;
    hide JobsForward;
    OutboxStep(st, Claimed(st.db.jobs, b.picked, b.token, b.now, b.expires).outbox);
  }

  /** Acknowledging keeps everything, provided the event's job is already settled. */
  lemma AckFollows(st: State, id: Uuid, row: J.Event, job: Option<Uuid>)
    requires Sound(st) && RowMatches(st.db.jobs, id, row)
    requires SafelyAcked(st.db.jobs, row.(published := true))
    ensures Follows(st, AckRow(st, id, row, job).0)
  {
    var t := st.db.jobs;
    if AckRow(st, id, row, job).0 == st {
      FollowsReflexive(st);
    } else {
      assert SafelyAcked(t, t.outbox[id].(published := true));
      hide Sound;
      OutboxStep(st, t.outbox[id := t.outbox[id].(published := true, claim := None)]);
    }
  }

  lemma DeadLetterFollows(st: State, job: Uuid, errorCode: Option<string>)
    requires Sound(st) && job in st.db.jobs.jobs
    ensures Follows(st, st.(db := st.db.(jobs := J.MarkDeadLetter(st.db.jobs, job, errorCode).value)))
  {
    var t := st.db.jobs;
    var t' := J.MarkDeadLetter(t, job, errorCode).value;
    var db' := st.db.(jobs := t');
    I.SameRowsSamePointers(st.db, db');
    hide I.ActiveSound;
    DeadLetterKeepsTables(t, job, errorCode);
    AcksStaySafe(t, t');
  }

  /** Dead-lettering raises for a missing job, and otherwise marks that job, for good, and nothing else. */
  lemma DeadLetterKeepsTables(t: J.Tables, job: Uuid, errorCode: Option<string>)
    requires J.Numbered(t) && J.Quiescent(t)
    ensures job in t.jobs <==> J.MarkDeadLetter(t, job, errorCode).Success?
    ensures job in t.jobs ==>
              var t' := J.MarkDeadLetter(t, job, errorCode).value;
              && J.Numbered(t') && J.Quiescent(t') && JobsForward(t, t') && t'.outbox == t.outbox
                   && t'.attempts == t.attempts
              && t'.jobs[job].deadLettered && t'.jobs[job].status == J.DeadLetter
              && forall j :: j in t.jobs && j != job ==> t'.jobs[j] == t.jobs[j]
  {
    if job in t.jobs {
      var t' := J.MarkDeadLetter(t, job, errorCode).value;
      forall j | j in t.jobs && J.HasClosedAttempt(t, j) ensures J.HasClosedAttempt(t', j) {
        var i :| 0 <= i < |t.attempts| && t.attempts[i].job == j && t.attempts[i].status != J.Running;
        assert t'.attempts[i] == t.attempts[i];
      }
    }
  }

  lemma IngestFollows(st: State, r: I.Request, w: I.World)
    requires Sound(st) && I.Ingest(st.db, r, w).Success?
    ensures Follows(st, st.(db := I.Ingest(st.db, r, w).value.0))
    ensures r.job.Some? ==>
              var t' := I.Ingest(st.db, r, w).value.0.jobs;
              && r.job.value in t'.jobs && J.HasClosedAttempt(t', r.job.value)
              && (t'.jobs[r.job.value].status == J.Succeeded || t'.jobs[r.job.value].status == J.Failed)
  {
    I.IngestConservesJobs(st.db, r, w);
    I.IngestKeepsPointers(st.db, r, w);
    var t, t' := st.db.jobs, I.Ingest(st.db, r, w).value.0.jobs;
    hide I.Ingest;
    hide I.ActiveSound;
    hide J.Numbered;
    hide J.Quiescent;
    hide J.HasClosedAttempt;
    assert JobsForward(t, t');
    assert FactsStay(t, t');
    AcksStaySafe(t, t');
  }

  /** An acknowledged ingestion event's job is settled, and the event is published. */
  ghost predicate AckIsSettled(st': State, id: Uuid, row: J.Event, res: DispatchResult) {
    res.acknowledged && J.IsIngestion(row.eventType) ==>
      && res.job.Some? && res.job.value in st'.db.jobs.jobs
      && id in st'.db.jobs.outbox && st'.db.jobs.outbox[id].published
      && var status := st'.db.jobs.jobs[res.job.value].status;
      status == J.Succeeded || status == J.Failed || status == J.DeadLetter
  }

  /** One event, whatever its type: the tables stay sound, and an ingestion ack means its job is settled. */
  lemma ProcessFollows(st: State, id: Uuid, row: J.Event, inp: Inputs)
    requires Sound(st) && RowMatches(st.db.jobs, id, row)
    requires Process(st, id, row, inp).Success?
    ensures var (st', res) := Process(st, id, row, inp).value;
            Follows(st, st') && AckIsSettled(st', id, row, res)
  {
    FollowsReflexive(st);
    hide Follows;
    hide Sound;
    hide I.Ingest;
    hide AckRow;
    hide RowMatches;
    if row.eventType == J.DeletionTombstoned || row.eventType == J.DeletionAdvanced {
      DeletionFollows(st, id, row);
      hide ProcessDeletion;
    } else if J.IsIngestion(row.eventType) && FieldId(row.payload, J.JOB_ID).Some? {
      var job := FieldId(row.payload, J.JOB_ID).value;
      if job in st.db.jobs.jobs && st.db.jobs.jobs[job].snapshot {
        if !inp.snapshotValid {
          DeadLetteredThenAcked(st, id, row, job);
        } else {
          IngestedThenAcked(st, id, row, job, inp.world);
        }
        hide AckIsSettled;
      }
    }
  }

  lemma FactsKeepRow(t: J.Tables, t': J.Tables, id: Uuid, row: J.Event)
    requires RowMatches(t, id, row) && FactsStay(t, t')
    ensures RowMatches(t', id, row)
  {
  }

  lemma DeletionFollows(st: State, id: Uuid, row: J.Event)
    requires Sound(st) && RowMatches(st.db.jobs, id, row)
    requires row.eventType == J.DeletionTombstoned || row.eventType == J.DeletionAdvanced
    ensures Follows(st, ProcessDeletion(st, id, row).0)
  {
    FollowsReflexive(st);
    AckFollows(st, id, row, None);
    hide FactsStay;
    hide JobsForward;
    if "workflow_id" in row.payload && row.payload["workflow_id"].Id? && row.payload["workflow_id"].id in st.workflows {
      var workflow := row.payload["workflow_id"].id;
      var next := st.(workflows := st.workflows[workflow := NextDeletion(st.workflows[workflow])]);
      assert Sound(next);
      hide Sound;
      AckFollows(next, id, row, None);
    }
  }

  lemma AckTouchesOutboxOnly(st: State, id: Uuid, row: J.Event, job: Option<Uuid>)
    ensures var (st', res) := AckRow(st, id, row, job);
            && st'.db.jobs.jobs == st.db.jobs.jobs && res.job == job
            && (res.acknowledged ==> id in st'.db.jobs.outbox && st'.db.jobs.outbox[id].published)
  {
  }

  /** The job of this ingestion row is settled, so publishing the row is safe. */
  lemma SettledRowIsSafe(t: J.Tables, row: J.Event, job: Uuid)
    requires FieldId(row.payload, J.JOB_ID) == Some(job) && job in t.jobs
    requires t.jobs[job].deadLettered || J.HasClosedAttempt(t, job)
    ensures SafelyAcked(t, row.(published := true))
  {
  }

  lemma DeadLetteredThenAcked(st: State, id: Uuid, row: J.Event, job: Uuid)
    requires Sound(st) && RowMatches(st.db.jobs, id, row)
    requires J.IsIngestion(row.eventType) && FieldId(row.payload, J.JOB_ID) == Some(job) && job in st.db.jobs.jobs
    ensures var marked := J.MarkDeadLetter(st.db.jobs, job, Some("auth_snapshot_invalid")).value;
            var dead := st.(db := st.db.(jobs := marked));
            var (st', res) := AckRow(dead, id, row, Some(job));
            Follows(st, st') && AckIsSettled(st', id, row, res)
            && res.job == Some(job) && job in st'.db.jobs.jobs && st'.db.jobs.jobs[job].status == J.DeadLetter
  {
    var dead := st.(db := st.db.(jobs := J.MarkDeadLetter(st.db.jobs, job, Some("auth_snapshot_invalid")).value));
    hide Sound;
    hide FactsStay;
    hide JobsForward;
    hide SafelyAcked;
    hide AckRow;
    hide RowMatches;
    DeadLetterFollows(st, job, Some("auth_snapshot_invalid"));
    FactsKeepRow(st.db.jobs, dead.db.jobs, id, row);
    SettledRowIsSafe(dead.db.jobs, row, job);
    AckTouchesOutboxOnly(dead, id, row, Some(job));
    AckFollows(dead, id, row, Some(job));
    FollowsTransitive(st, dead, AckRow(dead, id, row, Some(job)).0);
  }

  lemma IngestedThenAcked(st: State, id: Uuid, row: J.Event, job: Uuid, w: I.World)
    requires Sound(st) && RowMatches(st.db.jobs, id, row)
    requires J.IsIngestion(row.eventType) && FieldId(row.payload, J.JOB_ID) == Some(job)
    requires I.Ingest(st.db, RequestOf(row, job), w).Success?
    ensures var done := st.(db := I.Ingest(st.db, RequestOf(row, job), w).value.0);
            var (st', res) := AckRow(done, id, row, Some(job));
            Follows(st, st') && AckIsSettled(st', id, row, res)
            && res.job == Some(job) && job in st'.db.jobs.jobs
            && (st'.db.jobs.jobs[job].status == J.Succeeded || st'.db.jobs.jobs[job].status == J.Failed)
  {
    hide I.Ingest;
    hide Sound;
    hide FactsStay;
    hide JobsForward;
    hide SafelyAcked;
    hide AckRow;
    hide RowMatches;
    hide J.HasClosedAttempt;
    IngestFollows(st, RequestOf(row, job), w);
    var done := st.(db := I.Ingest(st.db, RequestOf(row, job), w).value.0);
    FactsKeepRow(st.db.jobs, done.db.jobs, id, row);
    SettledRowIsSafe(done.db.jobs, row, job);
    AckTouchesOutboxOnly(done, id, row, Some(job));
    AckFollows(done, id, row, Some(job));
    FollowsTransitive(st, done, AckRow(done, id, row, Some(job)).0);
  }

  ghost predicate RowsMatch(t: J.Tables, rows: seq<Job>) {
    forall i :: 0 <= i < |rows| ==> RowMatches(t, rows[i].id, rows[i].row)
  }

  lemma {:induction false} ProcessAllFollows(st: State, rows: seq<Job>)
    requires Sound(st) && RowsMatch(st.db.jobs, rows)
    requires ProcessAll(st, rows).Success?
    ensures Follows(st, ProcessAll(st, rows).value.0)
  {
    FollowsReflexive(st);
    if rows != [] {
      var n := |rows| - 1;
      assert RowsMatch(st.db.jobs, rows[..n]);
      ProcessAllFollows(st, rows[..n]);
      var mid := ProcessAll(st, rows[..n]).value.0;
      FactsKeepRow(st.db.jobs, mid.db.jobs, rows[n].id, rows[n].row);
      hide Sound;
      hide FactsStay;
      hide JobsForward;
      hide Process;
      hide RowMatches;
      if rows[n].row.digest == J.Sha256(rows[n].row.payload) {
        ProcessFollows(mid, rows[n].id, rows[n].row, rows[n].inputs);
        FollowsTransitive(st, mid, ProcessAll(st, rows).value.0);
      }
    }
  }

  lemma {:induction false} ClaimedRowsMatch(before: J.Tables, after: J.Tables, b: Batch, n: nat)
    requires n <= |b.picked|
    ensures RowsMatch(after, RowsFrom(before, after, b, n))
  {
    if n > 0 { ClaimedRowsMatch(before, after, b, n - 1); }
  }

  /** A whole batch, committed or rolled back, keeps every invariant. */
  lemma DispatchFollows(st: State, b: Batch)
    requires Sound(st)
    ensures Follows(st, Dispatch(st, b).0)
  {
    var claimed := st.(db := st.db.(jobs := Claimed(st.db.jobs, b.picked, b.token, b.now, b.expires)));
    FollowsReflexive(st);
    ClaimFollows(st, b);
    ClaimedRowsMatch(st.db.jobs, claimed.db.jobs, b, |b.picked|);
    hide Sound;
    hide FactsStay;
    hide JobsForward;
    hide RowsMatch;
    hide ProcessAll;
    var rows := ClaimedRows(st.db.jobs, b);
    if ProcessAll(claimed, rows).Success? {
      ProcessAllFollows(claimed, rows);
      FollowsTransitive(st, claimed, ProcessAll(claimed, rows).value.0);
    }
  }

  /** An enqueued event is never skipped by the dispatcher's digest test. */
  lemma EnqueuedEventPassesDigestCheck(st: State, b: Batch)
    requires Sound(st)
    ensures forall i :: 0 <= i < |ClaimedRows(st.db.jobs, b)| ==>
              ClaimedRows(st.db.jobs, b)[i].row.digest == J.Sha256(ClaimedRows(st.db.jobs, b)[i].row.payload)
  {
    RowsHaveDigests(st.db.jobs, Claimed(st.db.jobs, b.picked, b.token, b.now, b.expires), b, |b.picked|);
  }

  lemma {:induction false} RowsHaveDigests(before: J.Tables, after: J.Tables, b: Batch, n: nat)
    requires n <= |b.picked| && J.DigestsMatch(after)
    ensures forall i :: 0 <= i < |RowsFrom(before, after, b, n)| ==>
              RowsFrom(before, after, b, n)[i].row.digest == J.Sha256(RowsFrom(before, after, b, n)[i].row.payload)
  {
    if n > 0 { RowsHaveDigests(before, after, b, n - 1); }
  }

  // ---- runs ----

  datatype Call =
    | EnqueueCall(request: J.EnqueueRequest)
    | DispatchCall(batch: Batch)
    | CancelCall(job: Uuid)
    | UploadCall(source: Uuid, revision: Uuid)

  /** An upload registers a source and one of its revisions. */
  ghost function Step(st: State, c: Call): State {
    match c
    case EnqueueCall(r) => st.(db := st.db.(jobs := J.Enqueue(st.db.jobs, r).0))
    case DispatchCall(b) => Dispatch(st, b).0
    case CancelCall(job) =>
      (match J.CancelJob(st.db.jobs, job) case Success(t) => st.(db := st.db.(jobs := t)) case Failure(_) => st)
    case UploadCall(source, revision) =>
      if revision in st.db.revisions then st
      else st.(db := st.db.(sources := if source in st.db.sources then st.db.sources
          else st.db.sources[source := I.Draft],
                            revisions := st.db.revisions[revision := source]))
  }

  const EMPTY := State(I.Db(map[], map[], map[], map[], map[], J.EMPTY), map[])

  ghost function Run(st: State, calls: seq<Call>): State {
    if calls == [] then st else Step(Run(st, calls[..|calls| - 1]), calls[|calls| - 1])
  }

  lemma EnqueueFollows(st: State, r: J.EnqueueRequest)
    requires Sound(st)
    ensures Sound(Step(st, EnqueueCall(r)))
  {
    var t, t' := st.db.jobs, J.Enqueue(st.db.jobs, r).0;
    J.EnqueueKeepsTables(t, r);
    hide J.Enqueue;
    I.SameRowsSamePointers(st.db, st.db.(jobs := t'));
    assert JobsForward(t, t') by {
      forall j | j in t.jobs && J.HasClosedAttempt(t, j) ensures J.HasClosedAttempt(t', j) {
        var i :| 0 <= i < |t.attempts| && t.attempts[i].job == j && t.attempts[i].status != J.Running;
        assert t'.attempts[i] == t.attempts[i];
      }
    }
    hide I.ActiveSound;
    hide J.Numbered;
    hide J.Quiescent;
    AcksStaySafe(t, t');
  }

  lemma CancelFollows(st: State, job: Uuid)
    requires Sound(st)
    ensures Sound(Step(st, CancelCall(job)))
  {
    var st' := Step(st, CancelCall(job));
    var t, t' := st.db.jobs, st'.db.jobs;
    CancelKeepsTables(t, job);
    assert J.CancelJob(t, job).Failure? || t' == J.CancelJob(t, job).value;
    hide J.CancelJob;
    I.SameRowsSamePointers(st.db, st'.db);
    hide I.ActiveSound;
    hide J.Numbered;
    hide J.Quiescent;
    if J.CancelJob(t, job).Success? {
      AcksStaySafe(t, t');
    }
  }

  lemma CancelKeepsTables(t: J.Tables, job: Uuid)
    requires J.Numbered(t) && J.Quiescent(t)
    ensures J.CancelJob(t, job).Success? ==>
              var t' := J.CancelJob(t, job).value;
              && J.Numbered(t') && J.Quiescent(t') && JobsForward(t, t') && t'.outbox == t.outbox
              && t'.attempts == t.attempts && t'.jobs.Keys == t.jobs.Keys && t'.jobs[job].status == J.Cancelled
              && t'.jobs[job] == t.jobs[job].(status := J.Cancelled)
              && forall j :: j in t.jobs && j != job ==> t'.jobs[j] == t.jobs[j]
  {
    if J.CancelJob(t, job).Success? {
      var t' := J.CancelJob(t, job).value;
      forall j | j in t.jobs && J.HasClosedAttempt(t, j) ensures J.HasClosedAttempt(t', j) {
        var i :| 0 <= i < |t.attempts| && t.attempts[i].job == j && t.attempts[i].status != J.Running;
        assert t'.attempts[i] == t.attempts[i];
      }
    }
  }

  /**
   * In every reachable state: attempt numbers are gapless and no attempt is open, event digests match
   * their payloads, every acknowledged ingestion event's job ran or was dead-lettered, and every active
   * parse pointer names a sound run.
   */
  lemma {:induction false} RunIsSound(calls: seq<Call>)
    ensures Sound(Run(EMPTY, calls))
  {
    if calls == [] {
      forall job ensures J.NumbersOf([], job) == J.UpTo(0) {}
    } else {
      var st, c := Run(EMPTY, calls[..|calls| - 1]), calls[|calls| - 1];
      RunIsSound(calls[..|calls| - 1]);
      match c {
        case EnqueueCall(r) => EnqueueFollows(st, r);
        case DispatchCall(b) => DispatchFollows(st, b);
        case CancelCall(job) => CancelFollows(st, job);
        case UploadCall(source, revision) => I.SameRowsSamePointers(st.db, Step(st, c).db);
      }
    }
  }

  // ---- what an event asks for, and what it gets ----

  /** An ingestion event whose payload names these ids. */
  ghost predicate Names(row: J.Event, source: Uuid, revision: Uuid, job: Uuid) {
    && row.eventType in {J.UploadCompleted, J.RetryRequested, J.ReprocessRequested}
    && "source_id" in row.payload && row.payload["source_id"] == J.Id(source)
    && "revision_id" in row.payload && row.payload["revision_id"] == J.Id(revision)
    && "durable_job_id" in row.payload && row.payload["durable_job_id"] == J.Id(job)
  }

  /** The payload asks for a shadow run: it has a shadow key, and its value is not falsy. */
  ghost predicate AsksForShadow(row: J.Event) {
    "shadow" in row.payload && row.payload["shadow"] !in {J.Null, J.Flag(false), J.Text("")}
  }

  ghost predicate HasSnapshot(st: State, job: Uuid) {
    job in st.db.jobs.jobs && st.db.jobs.jobs[job].snapshot
  }

  /** The row was claimed under a token that still holds the event. */
  ghost predicate HoldsClaim(st: State, id: Uuid, row: J.Event) {
    && row.claim.Some? && id in st.db.jobs.outbox
    && st.db.jobs.outbox[id].claim == row.claim && !st.db.jobs.outbox[id].published
  }

  /** The event is published if the claim held, and is otherwise untouched; nothing else happens. */
  ghost predicate AckedFrom(st: State, st': State, id: Uuid, row: J.Event) {
    && st' == st.(db := st.db.(jobs := st.db.jobs.(outbox := st'.db.jobs.outbox)))
    && st'.db.jobs.outbox == (if HoldsClaim(st, id, row)
                              then st.db.jobs.outbox[id := st.db.jobs.outbox[id].(published := true, claim := None)]
                              else st.db.jobs.outbox)
  }

  lemma AckRowDoes(st: State, id: Uuid, row: J.Event, job: Option<Uuid>)
    ensures var (st', res) := AckRow(st, id, row, job);
            AckedFrom(st, st', id, row) && res == DispatchResult(id, HoldsClaim(st, id, row), job)
  {
  }

  /**
   * An ingestion event with a valid snapshot is the ingestion call its payload spells out: that source,
   * revision and job, as a shadow exactly when the payload says so; it raises exactly when the call does.
   */
  lemma EventRunsItsIngestion(st: State, id: Uuid, row: J.Event, inp: Inputs, source: Uuid, revision: Uuid, job: Uuid)
    requires Names(row, source, revision, job) && HasSnapshot(st, job) && inp.snapshotValid
    ensures var ingested := I.Ingest(st.db, I.Request(source, revision, Some(job), AsksForShadow(row)), inp.world);
            var done := Process(st, id, row, inp);
            && (done.Success? <==> ingested.Success?)
            && (done.Success? ==>
                  var settled, (st', res) := st.(db := ingested.value.0), done.value;
                  && AckedFrom(settled, st', id, row)
                  && res == DispatchResult(id, HoldsClaim(settled, id, row), Some(job)))
  {
    assert RequestOf(row, job) == I.Request(source, revision, Some(job), AsksForShadow(row));
    hide I.Ingest;
    if Process(st, id, row, inp).Success? {
      var done := I.Ingest(st.db, RequestOf(row, job), inp.world);
      AckRowDoes(st.(db := done.value.0), id, row, Some(job));
    }
    hide AckRow;
    hide AckedFrom;
    hide HoldsClaim;
  }

  /** With an invalid snapshot the job is dead-lettered instead, and nothing is ingested. */
  lemma InvalidSnapshotDeadLetters(st: State, id: Uuid, row: J.Event, inp: Inputs, source: Uuid, revision: Uuid,
                                   job: Uuid)
    requires Names(row, source, revision, job) && HasSnapshot(st, job) && !inp.snapshotValid
    ensures var before := st.db.jobs.jobs[job];
            var dead := before.(status := J.DeadLetter, deadLettered := true,
                                errorCode := Some("auth_snapshot_invalid"));
            var marked := st.(db := st.db.(jobs := st.db.jobs.(jobs := st.db.jobs.jobs[job := dead])));
            var done := Process(st, id, row, inp);
            && done.Success? && AckedFrom(marked, done.value.0, id, row)
            && done.value.1 == DispatchResult(id, HoldsClaim(marked, id, row), Some(job))
  {
    var marked := J.MarkDeadLetter(st.db.jobs, job, Some("auth_snapshot_invalid")).value;
    AckRowDoes(st.(db := st.db.(jobs := marked)), id, row, Some(job));
    hide AckRow;
    hide AckedFrom;
    hide HoldsClaim;
  }

  predicate HasId(p: J.Payload, key: string) {
    key in p && p[key].Id?
  }

  /** Every other event that is no deletion leaves everything as it was, unacknowledged, or lacks its ids and raises. */
  lemma OtherEventsWait(st: State, id: Uuid, row: J.Event, inp: Inputs)
    requires row.eventType !in {J.DeletionTombstoned, J.DeletionAdvanced}
    requires forall source, revision, job :: Names(row, source, revision, job) ==> !HasSnapshot(st, job)
    ensures var done := Process(st, id, row, inp);
            var ingestion := row.eventType in {J.UploadCompleted, J.RetryRequested, J.ReprocessRequested};
            if ingestion && !(HasId(row.payload, "source_id") && HasId(row.payload, "revision_id")) then
              done == Failure(Raised)
            else
              && done.Success? && done.value.0 == st && done.value.1.event == id && !done.value.1.acknowledged
              && done.value.1.job == (if ingestion && HasId(row.payload, "durable_job_id")
                                      then Some(row.payload["durable_job_id"].id) else None)
  {
    if HasId(row.payload, "source_id") && HasId(row.payload, "revision_id") && HasId(row.payload, "durable_job_id")
       && J.IsIngestion(row.eventType)
    {
      assert Names(row, row.payload["source_id"].id, row.payload["revision_id"].id, row.payload["durable_job_id"].id);
    }
  }

  /** How far a deletion has come. */
  function Stage(s: DeletionState): nat {
    match s case Tombstoned => 0 case RevokingGrants => 1 case PurgingProjections => 2 case Completed => 3
  }

  /** A deletion event takes its workflow one stage further, up to completion, and no other workflow anywhere. */
  lemma DeletionAdvancesOneStage(st: State, id: Uuid, row: J.Event, inp: Inputs, workflow: Uuid)
    requires row.eventType in {J.DeletionTombstoned, J.DeletionAdvanced}
    requires workflow in st.workflows
    ensures var done := Process(st, id, row, inp);
            var mine := "workflow_id" in row.payload && row.payload["workflow_id"] == J.Id(workflow);
            && done.Success? && workflow in done.value.0.workflows
            && Stage(done.value.0.workflows[workflow])
                 == (if mine && st.workflows[workflow] != Completed then Stage(st.workflows[workflow]) + 1
                     else Stage(st.workflows[workflow]))
            && done.value.0.workflows.Keys == st.workflows.Keys
  {
  }

  /** A deletion event is acknowledged under its claim unless its workflow id is there but is no id. */
  lemma DeletionIsAcknowledged(st: State, id: Uuid, row: J.Event, inp: Inputs)
    requires row.eventType in {J.DeletionTombstoned, J.DeletionAdvanced}
    ensures var done := Process(st, id, row, inp);
            var malformed := "workflow_id" in row.payload && !row.payload["workflow_id"].Id?
                             && row.payload["workflow_id"] != J.Null;
            && done.Success?
            && (malformed ==> done.value == (st, DispatchResult(id, false, None)))
            && (!malformed ==>
                  && AckedFrom(st.(workflows := done.value.0.workflows), done.value.0, id, row)
                  && done.value.1 == DispatchResult(id, HoldsClaim(st, id, row), None))
  {
  }

  /**
   * A clean primary result at the threshold: without a shadow flag the named source and job succeed and the
   * named revision's pointer moves to the new run; with one the pointer stays.
   */
  lemma GoodParseIsPromoted(st: State, id: Uuid, row: J.Event, inp: Inputs, source: Uuid, revision: Uuid, job: Uuid)
    requires Names(row, source, revision, job) && HasSnapshot(st, job) && inp.snapshotValid
    requires Process(st, id, row, inp).Success?
    requires inp.world.contentLength.Some? && inp.world.contentLength.value <= 50 * 1024 * 1024
    requires I.PrimaryParsed(inp.world)
    requires I.Clean(inp.world.primary.result) && inp.world.primary.result.quality >= 0.45
    requires var run := I.Derived(revision, inp.world.primaryProfile);
             run !in st.db.runs || st.db.runs[run].status != I.RunSucceeded
    ensures var st', run := Process(st, id, row, inp).value.0, I.Derived(revision, inp.world.primaryProfile);
            && source in st'.db.sources && job in st'.db.jobs.jobs
            && (if AsksForShadow(row) then
                  && st'.db.active == st.db.active && st'.db.sources[source] == I.Running
                  && st'.db.jobs.jobs[job].status == J.Failed
                else
                  && st'.db.active == st.db.active[(source, revision) := run]
                  && st'.db.sources[source] == I.Succeeded && st'.db.jobs.jobs[job].status == J.Succeeded)
  {
    var q := I.Request(source, revision, Some(job), AsksForShadow(row));
    EventRunsItsIngestion(st, id, row, inp, source, revision, job);
    hide Process;
    I.BetterResultIsKept(st.db, q, inp.world);
    hide I.Ingest;
    hide I.StoresElements;
    hide I.TellsOf;
    hide I.Clean;
  }

  // ---- claims are exclusive, and an event is acknowledged once ----

  /** A claim takes exactly the picked events that are unpublished and not under a live claim, as they then read. */
  lemma ClaimedRowsAre(t: J.Tables, b: Batch, job: Job)
    requires |b.inputs| == |b.picked|
    ensures job in ClaimedRows(t, b) <==>
              exists i :: 0 <= i < |b.picked| && Takes(t, b, i) && job == TakenRow(t, b, i)
  {
    RowsFromAre(t, b, |b.picked|, job);
  }

  ghost predicate Takes(t: J.Tables, b: Batch, i: nat)
    requires i < |b.picked|
  {
    var e := b.picked[i];
    e in t.outbox && !t.outbox[e].published && (t.outbox[e].claim.Some? ==> t.outbox[e].claimExpires < b.now)
  }

  ghost function TakenRow(t: J.Tables, b: Batch, i: nat): Job
    requires i < |b.picked| == |b.inputs| && Takes(t, b, i)
  {
    var e := b.picked[i];
    Job(e, t.outbox[e].(claim := Some(b.token), claimExpires := b.expires), b.inputs[i])
  }

  lemma {:induction false} RowsFromAre(t: J.Tables, b: Batch, n: nat, job: Job)
    requires n <= |b.picked| == |b.inputs|
    ensures job in RowsFrom(t, Claimed(t, b.picked, b.token, b.now, b.expires), b, n) <==>
              exists i :: 0 <= i < n && Takes(t, b, i) && job == TakenRow(t, b, i)
  {
    if n > 0 {
      RowsFromAre(t, b, n - 1, job);
      var e := b.picked[n - 1];
      assert e in b.picked;
      assert Takes(t, b, n - 1) <==> e in t.outbox && Claimable(t.outbox[e], b.now);
    }
  }

  /** What the second of two claims leaves. */
  ghost function ClaimedTwice(t: J.Tables, a: Batch, b: Batch): J.Tables {
    Claimed(Claimed(t, a.picked, a.token, a.now, a.expires), b.picked, b.token, b.now, b.expires)
  }

  /**
   * Until a claim expires nobody else gets the event: its holder can acknowledge it and another claimer
   * cannot. Once it has expired another claim takes it over, and the first token is worth nothing.
   */
  lemma ClaimIsExclusive(t: J.Tables, a: Batch, b: Batch, e: Uuid)
    requires e in t.outbox && !t.outbox[e].published && t.outbox[e].claim == None
    requires e in a.picked && e in b.picked && a.token != b.token
    ensures var t', late := ClaimedTwice(t, a, b), a.expires < b.now;
            && (Ack(t', e, a.token).1 <==> !late) && (Ack(t', e, b.token).1 <==> late)
  {
  }

  /** The row's stored digest is that of its payload. */
  predicate DigestHolds(job: Job) {
    job.row.digest == J.Sha256(job.row.payload)
  }

  ghost function EventsAnswered(results: seq<DispatchResult>): (r: seq<Uuid>)
    ensures |r| == |results|
  {
    seq(|results|, i requires 0 <= i < |results| => results[i].event)
  }

  ghost function IdsOf(rows: seq<Job>): (r: seq<Uuid>)
    ensures |r| == |rows|
  {
    seq(|rows|, i requires 0 <= i < |rows| => rows[i].id)
  }

  /** A batch answers its rows one by one, in order, all but those whose digest does not hold. */
  lemma {:induction false} BatchAnswersInOrder(st: State, rows: seq<Job>)
    requires ProcessAll(st, rows).Success?
    ensures EventsAnswered(ProcessAll(st, rows).value.1) == IdsOf(Filter(rows, DigestHolds))
  {
    if rows == [] {
      assert ProcessAll(st, rows).value == (st, []);
    } else {
      var n := |rows| - 1;
      BatchAnswersInOrder(st, rows[..n]);
      assert rows == rows[..n] + [rows[n]];
      FilterSnoc(rows[..n], rows[n], DigestHolds);
      var (mid, results) := ProcessAll(st, rows[..n]).value;
      if DigestHolds(rows[n]) {
        EventIsItsRow(mid, rows[n]);
        var res := Process(mid, rows[n].id, rows[n].row, rows[n].inputs).value.1;
        assert EventsAnswered(results + [res]) == EventsAnswered(results) + [res.event];
        var front := Filter(rows[..n], DigestHolds);
        assert IdsOf(front + [rows[n]]) == IdsOf(front) + [rows[n].id];
      }
      hide Process;
      hide Filter;
    }
  }

  lemma EventIsItsRow(st: State, job: Job)
    ensures var done := Process(st, job.id, job.row, job.inputs);
            done.Success? ==> done.value.1.event == job.id
  {
    hide I.Ingest;
  }

  /** What one more row makes of a batch so far. */
  ghost function Continued(sofar: Result<(State, seq<DispatchResult>), Raised>, job: Job)
    : Result<(State, seq<DispatchResult>), Raised>
  {
    if sofar.Failure? || !DigestHolds(job) then sofar
    else
      match Process(sofar.value.0, job.id, job.row, job.inputs)
      case Failure(_) => Failure(Raised)
      case Success(v) => Success((v.0, sofar.value.1 + [v.1]))
  }

  lemma ProcessAllSnoc(st: State, rows: seq<Job>, job: Job)
    ensures ProcessAll(st, rows + [job]) == Continued(ProcessAll(st, rows), job)
  {
    hide Process;
    assert (rows + [job])[..|rows|] == rows;
  }

  /** Rows whose digest does not hold might as well not have been claimed. */
  lemma {:induction false} MismatchedRowsAreSkipped(st: State, rows: seq<Job>)
    ensures ProcessAll(st, rows) == ProcessAll(st, Filter(rows, DigestHolds))
  {
    if rows == [] {
      assert Filter(rows, DigestHolds) == rows;
    } else {
      var front, last := rows[..|rows| - 1], rows[|rows| - 1];
      MismatchedRowsAreSkipped(st, front);
      assert !DigestHolds(last) ==> Continued(ProcessAll(st, front), last) == ProcessAll(st, front);
      hide *;
      assert rows == front + [last];
      FilterSnoc(front, last, DigestHolds);
      ProcessAllSnoc(st, front, last);
      ProcessAllSnoc(st, Filter(front, DigestHolds), last);
    }
  }

  // ---- an event is published by one acknowledgement ----

  /** Some result of the batch says that this event was acknowledged. */
  ghost predicate Acks(results: seq<DispatchResult>, e: Uuid) {
    exists i :: 0 <= i < |results| && results[i].event == e && results[i].acknowledged
  }

  /** Between two tables exactly these events were published, and no new event is. */
  ghost predicate Publishes(t: J.Tables, t': J.Tables, e: Uuid, acked: bool) {
    && (e in t.outbox ==> e in t'.outbox && (t'.outbox[e].published <==> t.outbox[e].published || acked)
                          && !(t.outbox[e].published && acked))
    && (e !in t.outbox && e in t'.outbox ==> !t'.outbox[e].published)
    && (acked ==> e in t.outbox)
  }

  lemma IngestPublishesNothing(db: I.Db, r: I.Request, w: I.World, e: Uuid)
    requires I.Ingest(db, r, w).Success?
    ensures Publishes(db.jobs, I.Ingest(db, r, w).value.0.jobs, e, false)
  {
    if I.TooLarge(w) {
      I.TooLargeRecordsOnly(db, r, w);
    } else if I.AlreadySucceeded(db, r, w) {
      I.SucceededPrimaryIsLeftAlone(db, r, w);
    } else if I.PrimaryParsed(w) {
      I.BetterResultIsKept(db, r, w);
    } else {
      I.FailedParseIsRecorded(db, r, w);
    }
    hide I.Ingest;
    hide I.StoresElements;
    hide I.JobEnds;
    hide I.Clean;
    hide I.Kept;
  }

  lemma AckPublishes(st: State, id: Uuid, row: J.Event, job: Option<Uuid>, e: Uuid)
    ensures var (st', res) := AckRow(st, id, row, job);
            Publishes(st.db.jobs, st'.db.jobs, e, e == id && res.acknowledged) && res.event == id
  {
  }

  lemma ProcessPublishes(st: State, id: Uuid, row: J.Event, inp: Inputs, e: Uuid)
    requires id in st.db.jobs.outbox && Process(st, id, row, inp).Success?
    ensures var (st', res) := Process(st, id, row, inp).value;
            res.event == id && Publishes(st.db.jobs, st'.db.jobs, e, e == id && res.acknowledged)
  {
    hide AckRow;
    hide I.Ingest;
    if row.eventType == J.DeletionTombstoned || row.eventType == J.DeletionAdvanced {
      DeletionPublishes(st, id, row, e);
      hide ProcessDeletion;
    } else if J.IsIngestion(row.eventType) && FieldId(row.payload, J.JOB_ID).Some? {
      var job := FieldId(row.payload, J.JOB_ID).value;
      if job in st.db.jobs.jobs && st.db.jobs.jobs[job].snapshot {
        if !inp.snapshotValid {
          var marked := J.MarkDeadLetter(st.db.jobs, job, Some("auth_snapshot_invalid")).value;
          AckPublishes(st.(db := st.db.(jobs := marked)), id, row, Some(job), e);
        } else {
          IngestPublishesNothing(st.db, RequestOf(row, job), inp.world, e);
          AckPublishes(st.(db := I.Ingest(st.db, RequestOf(row, job), inp.world).value.0), id, row, Some(job), e);
        }
      }
    }
  }

  lemma DeletionPublishes(st: State, id: Uuid, row: J.Event, e: Uuid)
    ensures var (st', res) := ProcessDeletion(st, id, row);
            res.event == id && Publishes(st.db.jobs, st'.db.jobs, e, e == id && res.acknowledged)
  {
    AckPublishes(st, id, row, None, e);
    if "workflow_id" in row.payload && row.payload["workflow_id"].Id? && row.payload["workflow_id"].id in st.workflows {
      var workflow := row.payload["workflow_id"].id;
      AckPublishes(st.(workflows := st.workflows[workflow := NextDeletion(st.workflows[workflow])]), id, row, None, e);
    }
    hide AckRow;
  }

  lemma PublishesThenPublishes(a: J.Tables, b: J.Tables, c: J.Tables, e: Uuid, first: bool, second: bool)
    requires Publishes(a, b, e, first) && Publishes(b, c, e, second)
    requires second ==> e in a.outbox
    requires e in b.outbox ==> e in c.outbox
    ensures Publishes(a, c, e, first || second) && !(first && second)
  {
  }

  lemma AcksSnoc(results: seq<DispatchResult>, r: DispatchResult, e: Uuid)
    ensures Acks(results + [r], e) <==> Acks(results, e) || (r.event == e && r.acknowledged)
  {
    var all := results + [r];
    assert all[|results|] == r;
    if i :| 0 <= i < |results| && results[i].event == e && results[i].acknowledged {
      assert all[i] == results[i];
    }
  }

  /** Rows whose events are all in the outbox. */
  ghost predicate RowsAreThere(t: J.Tables, rows: seq<Job>) {
    forall i :: 0 <= i < |rows| ==> rows[i].id in t.outbox
  }

  lemma {:induction false} ProcessAllPublishes(st: State, rows: seq<Job>, e: Uuid)
    requires RowsAreThere(st.db.jobs, rows) && ProcessAll(st, rows).Success?
    ensures var (st', results) := ProcessAll(st, rows).value;
            && Publishes(st.db.jobs, st'.db.jobs, e, Acks(results, e))
            && st.db.jobs.outbox.Keys <= st'.db.jobs.outbox.Keys
  {
    if rows == [] {
      assert ProcessAll(st, rows).value == (st, []);
    } else {
      var n := |rows| - 1;
      ProcessAllPublishes(st, rows[..n], e);
      var (mid, results) := ProcessAll(st, rows[..n]).value;
      if rows[n].row.digest == J.Sha256(rows[n].row.payload) {
        var (last, res) := Process(mid, rows[n].id, rows[n].row, rows[n].inputs).value;
        assert rows[n].id in mid.db.jobs.outbox;
        hide Process;
        ProcessPublishes(mid, rows[n].id, rows[n].row, rows[n].inputs, e);
        forall k | k in mid.db.jobs.outbox ensures k in last.db.jobs.outbox {
          ProcessPublishes(mid, rows[n].id, rows[n].row, rows[n].inputs, k);
        }
        AcksSnoc(results, res, e);
        hide Acks;
        PublishesThenPublishes(st.db.jobs, mid.db.jobs, last.db.jobs, e, Acks(results, e),
                               e == rows[n].id && res.acknowledged);
      }
    }
  }

  lemma {:induction false} ClaimedRowsAreThere(before: J.Tables, after: J.Tables, b: Batch, n: nat)
    requires n <= |b.picked|
    ensures RowsAreThere(after, RowsFrom(before, after, b, n))
  {
    if n > 0 { ClaimedRowsAreThere(before, after, b, n - 1); }
  }

  /** A batch publishes exactly the events it reports as acknowledged. */
  lemma DispatchPublishes(st: State, b: Batch, e: Uuid)
    ensures var (st', results) := Dispatch(st, b);
            Publishes(st.db.jobs, st'.db.jobs, e, Acks(results, e))
  {
    var claimed := st.(db := st.db.(jobs := Claimed(st.db.jobs, b.picked, b.token, b.now, b.expires)));
    var rows := ClaimedRows(st.db.jobs, b);
    ClaimedRowsAreThere(st.db.jobs, claimed.db.jobs, b, |b.picked|);
    assert Publishes(st.db.jobs, claimed.db.jobs, e, false);
    hide RowsFrom;
    hide ProcessAll;
    if ProcessAll(claimed, rows).Success? {
      ProcessAllPublishes(claimed, rows, e);
    }
    hide Claimed;
    hide RowsAreThere;
  }

  /** Did call `i` of the run acknowledge this event? */
  ghost predicate AckedBy(calls: seq<Call>, i: nat, e: Uuid)
    requires i < |calls|
  {
    calls[i].DispatchCall? && Acks(Dispatch(Run(EMPTY, calls[..i]), calls[i].batch).1, e)
  }

  lemma StepPublishes(st: State, c: Call, e: Uuid)
    ensures Publishes(st.db.jobs, Step(st, c).db.jobs, e, c.DispatchCall? && Acks(Dispatch(st, c.batch).1, e))
  {
    if c.DispatchCall? {
      DispatchPublishes(st, c.batch, e);
    }
    hide Dispatch;
  }

  lemma RunStep(calls: seq<Call>, i: nat)
    requires i < |calls|
    ensures Run(EMPTY, calls[..i + 1]) == Step(Run(EMPTY, calls[..i]), calls[i])
  {
    assert calls[..i + 1][..i] == calls[..i];
    hide Step;
  }

  lemma AckedInFront(calls: seq<Call>, n: nat, i: nat, e: Uuid)
    requires i < n <= |calls|
    ensures AckedBy(calls[..n], i, e) <==> AckedBy(calls, i, e)
  {
    assert calls[..n][..i] == calls[..i];
    hide Acks;
    hide Dispatch;
    hide Run;
  }

  ghost predicate EverAcked(calls: seq<Call>, e: Uuid) {
    exists i: nat :: i < |calls| && AckedBy(calls, i, e)
  }

  lemma EverAckedSnoc(calls: seq<Call>, e: Uuid)
    requires calls != []
    ensures EverAcked(calls, e) <==> EverAcked(calls[..|calls| - 1], e) || AckedBy(calls, |calls| - 1, e)
  {
    hide AckedBy;
    var n := |calls| - 1;
    if EverAcked(calls, e) {
      var i: nat :| i < |calls| && AckedBy(calls, i, e);
      if i < n { AckedInFront(calls, n, i, e); }
    }
    if EverAcked(calls[..n], e) {
      var i: nat :| i < n && AckedBy(calls[..n], i, e);
      AckedInFront(calls, n, i, e);
    }
  }

  ghost predicate IsPublished(t: J.Tables, e: Uuid) {
    e in t.outbox && t.outbox[e].published
  }

  /** In every run an event is published exactly if some batch acknowledged it. */
  lemma {:induction false} PublishedIffAcknowledged(calls: seq<Call>, e: Uuid)
    ensures IsPublished(Run(EMPTY, calls).db.jobs, e) <==> EverAcked(calls, e)
  {
    if calls != [] {
      var n := |calls| - 1;
      assert calls[..n + 1] == calls;
      PublishedIffAcknowledged(calls[..n], e);
      StepPublishes(Run(EMPTY, calls[..n]), calls[n], e);
      RunStep(calls, n);
      EverAckedSnoc(calls, e);
      hide EverAcked;
      hide Acks;
      hide Dispatch;
      hide Step;
      hide Run;
    }
  }

  /** No two batches of a run acknowledge the same event. */
  lemma AcknowledgedOnce(calls: seq<Call>, i: nat, j: nat, e: Uuid)
    requires i < j < |calls| && AckedBy(calls, i, e)
    ensures !AckedBy(calls, j, e)
  {
    AckedInFront(calls, j, i, e);
    PublishedIffAcknowledged(calls[..j], e);
    StepPublishes(Run(EMPTY, calls[..j]), calls[j], e);
    hide Acks;
    hide Dispatch;
    hide Step;
    hide Run;
  }

  // ---- from an upload to an active parse ----

  /** A good parse of a revision that nothing was recorded for, under unused ids. */
  ghost predicate GoodWorld(db: I.Db, revision: Uuid, w: I.World) {
    && w.contentLength.Some? && w.contentLength.value <= 50 * 1024 * 1024
    && I.PrimaryParsed(w) && I.Clean(w.primary.result) && w.primary.result.quality >= 0.45
    && I.Derived(revision, w.primaryProfile) !in db.runs
    && (forall x :: x in w.primary.result.elements ==> x.id !in db.elements)
    && w.eventId !in db.jobs.outbox
    && forall i :: 0 <= i < |db.jobs.attempts| ==> db.jobs.attempts[i].id != w.attemptId
  }

  /** An upload's job and event: the payload names source and revision and asks for no shadow run. */
  ghost predicate UploadRequest(r: J.EnqueueRequest, source: Uuid, revision: Uuid) {
    && r.eventType == J.UploadCompleted && "durable_job_id" !in r.payload && "shadow" !in r.payload
    && "source_id" in r.payload && r.payload["source_id"] == J.Id(source)
    && "revision_id" in r.payload && r.payload["revision_id"] == J.Id(revision)
  }

  /** The job and the event a request inserted are there as inserted, and nobody has claimed the event. */
  ghost predicate Waiting(st: State, r: J.EnqueueRequest) {
    && HasSnapshot(st, r.jobId) && r.eventId in st.db.jobs.outbox
    && var e := st.db.jobs.outbox[r.eventId];
    && e.eventType == r.eventType && e.payload == r.payload["durable_job_id" := J.Id(r.jobId)]
    && e.digest == J.Sha256(e.payload) && !e.published && e.claim == None
  }

  lemma EnqueuedWaits(st: State, r: J.EnqueueRequest)
    requires J.Enqueue(st.db.jobs, r).1 == Success(J.Enqueued(r.jobId, r.eventId)) && r.jobId !in st.db.jobs.jobs
    ensures Waiting(Step(st, EnqueueCall(r)), r)
    ensures var t' := Step(st, EnqueueCall(r)).db.jobs;
            t'.attempts == st.db.jobs.attempts && t'.outbox.Keys == st.db.jobs.outbox.Keys + {r.eventId}
    ensures Step(st, EnqueueCall(r)) == st.(db := st.db.(jobs := Step(st, EnqueueCall(r)).db.jobs))
  {
    assert J.Enqueue(st.db.jobs, r) == J.InsertJob(st.db.jobs, r) by { J.NewJobWasInserted(st.db.jobs, r); }
  }

  /** The one row a batch claims when it picks one waiting event. */
  lemma OneRowClaimed(st: State, b: Batch, e: Uuid)
    requires b.picked == [e] && |b.inputs| == 1
    requires e in st.db.jobs.outbox && !st.db.jobs.outbox[e].published && st.db.jobs.outbox[e].claim == None
    ensures var row := st.db.jobs.outbox[e].(claim := Some(b.token), claimExpires := b.expires);
            && ClaimedRows(st.db.jobs, b) == [Job(e, row, b.inputs[0])]
            && Claimed(st.db.jobs, b.picked, b.token, b.now, b.expires)
                 == st.db.jobs.(outbox := st.db.jobs.outbox[e := row])
  {
    var after := Claimed(st.db.jobs, b.picked, b.token, b.now, b.expires);
    assert RowsFrom(st.db.jobs, after, b, 0) == [];
    assert e in b.picked;
  }

  lemma OneRowProcessed(st: State, job: Job)
    requires job.row.digest == J.Sha256(job.row.payload)
    ensures ProcessAll(st, [job]) ==
              match Process(st, job.id, job.row, job.inputs)
              case Failure(_) => Failure(Raised)
              case Success(v) => Success((v.0, [v.1]))
  {
    assert [job][..0] == [];
    assert ProcessAll(st, [job][..0]) == Success((st, []));
    hide Process;
    var one := Process(st, job.id, job.row, job.inputs);
    if one.Success? {
      var none: seq<DispatchResult> := [];
      assert none + [one.value.1] == [one.value.1];
    }
  }

  /** The waiting event of a good upload is processed, promoted and acknowledged by the batch that claims it. */
  lemma WaitingUploadIsPromoted(st: State, source: Uuid, revision: Uuid, r: J.EnqueueRequest, b: Batch)
    requires UploadRequest(r, source, revision) && Waiting(st, r)
    requires revision in st.db.revisions && st.db.revisions[revision] == source && source in st.db.sources
    requires |b.inputs| == 1 && b.picked == [r.eventId] && b.inputs[0].snapshotValid
    requires GoodWorld(st.db, revision, b.inputs[0].world)
    ensures var (st', results) := Dispatch(st, b);
            && results == [DispatchResult(r.eventId, true, Some(r.jobId))]
            && Promoted(st, st', source, revision, r, b.inputs[0].world.primaryProfile)
  {
    OneRowClaimed(st, b, r.eventId);
    var row := st.db.jobs.outbox[r.eventId].(claim := Some(b.token), claimExpires := b.expires);
    var claimed := st.(db := st.db.(jobs := st.db.jobs.(outbox := st.db.jobs.outbox[r.eventId := row])));
    OneRowProcessed(claimed, Job(r.eventId, row, b.inputs[0]));
    assert !AsksForShadow(row);
    assert Names(row, source, revision, r.jobId);
    assert Dispatch(st, b) == match ProcessAll(claimed, [Job(r.eventId, row, b.inputs[0])])
                              case Failure(_) => (st, []) case Success(v) => v;
    hide Dispatch;
    hide ProcessAll;
    hide ClaimedRows;
    hide Claimed;
    ClaimedUploadIsPromoted(claimed, row, source, revision, r, b.inputs[0]);
  }

  /** What a promoted upload leaves: its pointer, its source, its job and its event. */
  ghost predicate Promoted(st: State, st': State, source: Uuid, revision: Uuid, r: J.EnqueueRequest, profile: string) {
    && st'.db.active == st.db.active[(source, revision) := I.Derived(revision, profile)]
    && source in st'.db.sources && st'.db.sources[source] == I.Succeeded
    && r.jobId in st'.db.jobs.jobs && st'.db.jobs.jobs[r.jobId].status == J.Succeeded
    && r.eventId in st'.db.jobs.outbox && st'.db.jobs.outbox[r.eventId].published
  }

  lemma ClaimedUploadIsPromoted(st: State, row: J.Event, source: Uuid, revision: Uuid, r: J.EnqueueRequest, inp: Inputs)
    requires Names(row, source, revision, r.jobId) && !AsksForShadow(row) && HasSnapshot(st, r.jobId)
    requires r.eventId in st.db.jobs.outbox && st.db.jobs.outbox[r.eventId] == row && row.claim.Some? && !row.published
    requires revision in st.db.revisions && st.db.revisions[revision] == source && source in st.db.sources
    requires inp.snapshotValid && GoodWorld(st.db, revision, inp.world)
    ensures var done := Process(st, r.eventId, row, inp);
            && done.Success? && done.value.1 == DispatchResult(r.eventId, true, Some(r.jobId))
            && Promoted(st, done.value.0, source, revision, r, inp.world.primaryProfile)
  {
    var w, q := inp.world, I.Request(source, revision, Some(r.jobId), false);
    hide Process;
    hide I.Ingest;
    I.IngestReturnsIff(st.db, q, w);
    EventRunsItsIngestion(st, r.eventId, row, inp, source, revision, r.jobId);
    assert I.Kept(w) == (w.primary.result, w.primaryProfile);
    GoodParseIsPromoted(st, r.eventId, row, inp, source, revision, r.jobId);
    I.BetterResultIsKept(st.db, q, w);
    EventStays(st.db, I.Ingest(st.db, q, w).value.0, q, w, r.eventId);
    hide I.SettledAs;
    hide I.Clean;
  }

  /** Settling leaves an event that was there as it was. */
  lemma EventStays(db: I.Db, db': I.Db, q: I.Request, w: I.World, e: Uuid)
    requires I.PrimaryParsed(w) && I.SettledAs(db, db', q, w, I.Kept(w).0, I.Kept(w).1) && e in db.jobs.outbox
    ensures e in db'.jobs.outbox && db'.jobs.outbox[e] == db.jobs.outbox[e]
  {
    hide I.StoresElements;
    hide I.Clean;
    hide I.JobEnds;
    hide I.TellsOf;
  }

  /**
   * Upload a revision, enqueue its ingestion, dispatch its event with a good parse: the revision's pointer
   * names the new run, source and job have succeeded, and the event is published.
   */
  lemma UploadIsPromoted(st: State, source: Uuid, revision: Uuid, r: J.EnqueueRequest, b: Batch)
    requires revision !in st.db.revisions && UploadRequest(r, source, revision)
    requires J.Enqueue(st.db.jobs, r).1 == Success(J.Enqueued(r.jobId, r.eventId)) && r.jobId !in st.db.jobs.jobs
    requires |b.inputs| == 1 && b.picked == [r.eventId] && b.inputs[0].snapshotValid
    requires GoodWorld(st.db, revision, b.inputs[0].world) && b.inputs[0].world.eventId != r.eventId
    ensures var st' := Run(st, [UploadCall(source, revision), EnqueueCall(r), DispatchCall(b)]);
            Promoted(st, st', source, revision, r, b.inputs[0].world.primaryProfile)
  {
    var upload, enqueue, dispatch := UploadCall(source, revision), EnqueueCall(r), DispatchCall(b);
    var st1 := Step(st, upload);
    assert st1.db.jobs == st.db.jobs && st1.db.active == st.db.active;
    assert revision in st1.db.revisions && st1.db.revisions[revision] == source && source in st1.db.sources;
    assert st1.db.runs == st.db.runs && st1.db.elements == st.db.elements;
    EnqueuedWaits(st1, r);
    var st2 := Step(st1, enqueue);
    assert GoodWorld(st2.db, revision, b.inputs[0].world) by { hide Step; }
    assert Step(st2, dispatch) == Dispatch(st2, b).0;
    hide Step;
    hide GoodWorld;
    hide Waiting;
    WaitingUploadIsPromoted(st2, source, revision, r, b);
    RunOfThree(st, upload, enqueue, dispatch);
    hide Dispatch;
  }

  lemma RunOfThree(st: State, a: Call, b: Call, c: Call)
    ensures Run(st, [a, b, c]) == Step(Step(Step(st, a), b), c)
  {
    hide Step;
    assert [a, b, c][..2] == [a, b] && [a, b][..1] == [a] && [a][..0] == [];
    assert Run(st, [a][..0]) == st && Run(st, [a]) == Step(st, a);
    assert Run(st, [a, b]) == Step(Run(st, [a, b][..1]), b);
  }

  // ---- repeated requests ----

  lemma AckKeepsRequests(st: State, id: Uuid, row: J.Event, job: Option<Uuid>)
    ensures J.KeepsRequests(st.db.jobs, AckRow(st, id, row, job).0.db.jobs)
  {
    hide J.KeepsRequests;
    J.SameRequests(st.db.jobs);
    if row.claim.Some? && id in st.db.jobs.outbox {
      var e := st.db.jobs.outbox[id];
      J.RewrittenEventKeepsRequests(st.db.jobs, id, e.(published := true, claim := None));
    }
  }

  lemma ClaimKeepsRequests(t: J.Tables, b: Batch)
    ensures J.KeepsRequests(t, Claimed(t, b.picked, b.token, b.now, b.expires))
  {
  }

  lemma DeletionKeepsRequests(st: State, id: Uuid, row: J.Event)
    ensures J.KeepsRequests(st.db.jobs, ProcessDeletion(st, id, row).0.db.jobs)
  {
    AckKeepsRequests(st, id, row, None);
    if "workflow_id" in row.payload && row.payload["workflow_id"].Id? && row.payload["workflow_id"].id in st.workflows {
      var workflow := row.payload["workflow_id"].id;
      AckKeepsRequests(st.(workflows := st.workflows[workflow := NextDeletion(st.workflows[workflow])]), id, row, None);
    }
    hide AckRow;
  }

  lemma DeadLetterKeepsRequests(t: J.Tables, job: Uuid, errorCode: Option<string>)
    requires job in t.jobs
    ensures J.KeepsRequests(t, J.MarkDeadLetter(t, job, errorCode).value)
  {
  }

  lemma ProcessKeepsRequests(st: State, id: Uuid, row: J.Event, inp: Inputs)
    requires Process(st, id, row, inp).Success?
    ensures J.KeepsRequests(st.db.jobs, Process(st, id, row, inp).value.0.db.jobs)
  {
    assert J.KeepsRequests(st.db.jobs, st.db.jobs);
    hide J.KeepsRequests;
    hide AckRow;
    hide I.Ingest;
    if row.eventType == J.DeletionTombstoned || row.eventType == J.DeletionAdvanced {
      DeletionKeepsRequests(st, id, row);
      hide ProcessDeletion;
    } else if J.IsIngestion(row.eventType) && FieldId(row.payload, J.JOB_ID).Some? {
      var job := FieldId(row.payload, J.JOB_ID).value;
      if job in st.db.jobs.jobs && st.db.jobs.jobs[job].snapshot {
        var before := st.db.jobs;
        if !inp.snapshotValid {
          DeadLetterKeepsRequests(before, job, Some("auth_snapshot_invalid"));
          var dead := st.(db := st.db.(jobs := J.MarkDeadLetter(before, job, Some("auth_snapshot_invalid")).value));
          AckKeepsRequests(dead, id, row, Some(job));
          J.KeepsTransitive(before, dead.db.jobs, AckRow(dead, id, row, Some(job)).0.db.jobs);
        } else {
          I.IngestKeepsRequests(st.db, RequestOf(row, job), inp.world);
          var done := st.(db := I.Ingest(st.db, RequestOf(row, job), inp.world).value.0);
          AckKeepsRequests(done, id, row, Some(job));
          J.KeepsTransitive(before, done.db.jobs, AckRow(done, id, row, Some(job)).0.db.jobs);
        }
      }
    }
  }

  lemma {:induction false} ProcessAllKeepsRequests(st: State, rows: seq<Job>)
    requires ProcessAll(st, rows).Success?
    ensures J.KeepsRequests(st.db.jobs, ProcessAll(st, rows).value.0.db.jobs)
  {
    if rows == [] {
      assert ProcessAll(st, rows).value.0 == st;
    } else {
      hide J.KeepsRequests;
      hide Process;
      var n := |rows| - 1;
      ProcessAllKeepsRequests(st, rows[..n]);
      var mid := ProcessAll(st, rows[..n]).value.0;
      if rows[n].row.digest == J.Sha256(rows[n].row.payload) {
        ProcessKeepsRequests(mid, rows[n].id, rows[n].row, rows[n].inputs);
        J.KeepsTransitive(st.db.jobs, mid.db.jobs, ProcessAll(st, rows).value.0.db.jobs);
      }
    }
  }

  lemma DispatchKeepsRequests(st: State, b: Batch)
    ensures J.KeepsRequests(st.db.jobs, Dispatch(st, b).0.db.jobs)
  {
    var claimed := st.(db := st.db.(jobs := Claimed(st.db.jobs, b.picked, b.token, b.now, b.expires)));
    var rows := ClaimedRows(st.db.jobs, b);
    assert J.KeepsRequests(st.db.jobs, st.db.jobs);
    ClaimKeepsRequests(st.db.jobs, b);
    hide J.KeepsRequests;
    hide ProcessAll;
    hide ClaimedRows;
    if ProcessAll(claimed, rows).Success? {
      ProcessAllKeepsRequests(claimed, rows);
      J.KeepsTransitive(st.db.jobs, claimed.db.jobs, ProcessAll(claimed, rows).value.0.db.jobs);
    }
  }

  /** Every call but an enqueue keeps requests recognisable. */
  lemma StepKeepsRequests(st: State, c: Call)
    requires !c.EnqueueCall?
    ensures J.KeepsRequests(st.db.jobs, Step(st, c).db.jobs)
  {
    J.SameRequests(st.db.jobs);
    if c.DispatchCall? {
      DispatchKeepsRequests(st, c.batch);
    } else if c.CancelCall? {
      CancelKeepsRequests(st.db.jobs, c.job);
    }
    hide Dispatch;
    hide J.KeepsRequests;
    hide J.CancelJob;
  }

  lemma CancelKeepsRequests(t: J.Tables, job: Uuid)
    ensures J.CancelJob(t, job).Success? ==> J.KeepsRequests(t, J.CancelJob(t, job).value)
  {
  }

  lemma StepHolds(st: State, c: Call, r: J.EnqueueRequest)
    requires J.HoldsRequest(st.db.jobs, r)
    ensures J.HoldsRequest(Step(st, c).db.jobs, r)
  {
    hide J.HoldsRequest;
    hide J.Enqueue;
    if c.EnqueueCall? {
      J.EnqueueHolds(st.db.jobs, r, c.request);
    } else {
      StepKeepsRequests(st, c);
      J.KeptRequest(st.db.jobs, Step(st, c).db.jobs, r);
    }
  }

  lemma {:induction false} RunHolds(st: State, calls: seq<Call>, r: J.EnqueueRequest)
    requires J.HoldsRequest(st.db.jobs, r)
    ensures J.HoldsRequest(Run(st, calls).db.jobs, r)
  {
    hide J.HoldsRequest;
    hide Step;
    if calls != [] {
      RunHolds(st, calls[..|calls| - 1], r);
      StepHolds(Run(st, calls[..|calls| - 1]), calls[|calls| - 1], r);
    }
  }

  /** Over every run each event's job exists. */
  lemma {:induction false} RunKeepsEventJobs(calls: seq<Call>)
    ensures J.EventJobsExist(Run(EMPTY, calls).db.jobs)
  {
    if calls != [] {
      var st, c := Run(EMPTY, calls[..|calls| - 1]), calls[|calls| - 1];
      RunKeepsEventJobs(calls[..|calls| - 1]);
      hide J.EventJobsExist;
      if c.EnqueueCall? {
        J.EnqueueKeepsEventJobs(st.db.jobs, c.request);
        hide J.Enqueue;
      } else {
        StepKeepsRequests(st, c);
        hide Step;
        J.KeptEventJobs(st.db.jobs, Step(st, c).db.jobs);
      }
    }
  }

  ghost predicate Repeats(st: State, r: J.EnqueueRequest, c: Call) {
    c.EnqueueCall? && J.SecondJob(st.db.jobs, r, c.request)
  }

  /** Some call repeated `r` for another type of event and found the ids it drew unused. */
  ghost predicate SecondJobIn(st: State, r: J.EnqueueRequest, calls: seq<Call>) {
    exists i :: 0 <= i < |calls| && Repeats(Run(st, calls[..i]), r, calls[i])
  }

  lemma SecondJobSnoc(st: State, r: J.EnqueueRequest, calls: seq<Call>)
    requires calls != []
    ensures var n := |calls| - 1;
            SecondJobIn(st, r, calls) <==> SecondJobIn(st, r, calls[..n]) || Repeats(Run(st, calls[..n]), r, calls[n])
  {
    hide Repeats;
    hide Run;
    var n := |calls| - 1;
    assert forall i :: 0 <= i <= n ==> calls[..n][..i] == calls[..i];
    if SecondJobIn(st, r, calls[..n]) {
      var i :| 0 <= i < n && Repeats(Run(st, calls[..n][..i]), r, calls[..n][i]);
      assert Repeats(Run(st, calls[..i]), r, calls[i]);
    }
    if SecondJobIn(st, r, calls) {
      var i :| 0 <= i < |calls| && Repeats(Run(st, calls[..i]), r, calls[i]);
      assert i < n ==> Repeats(Run(st, calls[..n][..i]), r, calls[..n][i]);
    }
  }

  /** One call gives a request's key a second job exactly when it is such a repeat. */
  lemma StepAddsSecondIff(st: State, r: J.EnqueueRequest, c: Call)
    requires r.key.Some? && r.key.value != "" && J.HoldsRequest(st.db.jobs, r)
    requires J.JobsWithKey(st.db.jobs, r.key.value) == {r.jobId}
    ensures J.JobsWithKey(Step(st, c).db.jobs, r.key.value) != {r.jobId} <==> Repeats(st, r, c)
  {
    hide J.HoldsRequest;
    hide J.JobsWithKey;
    hide J.Enqueue;
    if c.EnqueueCall? {
      J.SecondJobIff(st.db.jobs, r, c.request);
    } else {
      StepKeepsRequests(st, c);
      hide Step;
      J.KeptKey(st.db.jobs, Step(st, c).db.jobs, r.key.value);
    }
  }

  lemma StepKeysGrow(st: State, c: Call, key: string)
    ensures J.JobsWithKey(st.db.jobs, key) <= J.JobsWithKey(Step(st, c).db.jobs, key)
  {
    hide J.JobsWithKey;
    hide J.Enqueue;
    if c.EnqueueCall? {
      J.KeysGrow(st.db.jobs, c.request, key);
    } else {
      StepKeepsRequests(st, c);
      hide Step;
      J.KeptKey(st.db.jobs, Step(st, c).db.jobs, key);
    }
  }

  lemma {:induction false} KeyStaysSingleIff(st: State, r: J.EnqueueRequest, calls: seq<Call>)
    requires r.key.Some? && r.key.value != "" && J.HoldsRequest(st.db.jobs, r)
    requires J.JobsWithKey(st.db.jobs, r.key.value) == {r.jobId}
    ensures J.JobsWithKey(Run(st, calls).db.jobs, r.key.value) == {r.jobId} <==> !SecondJobIn(st, r, calls)
  {
    if calls != [] {
      var front, c := calls[..|calls| - 1], calls[|calls| - 1];
      var before := Run(st, front);
      assert Run(st, calls) == Step(before, c);
      hide *;
      KeyStaysSingleIff(st, r, front);
      RunHolds(st, front, r);
      SecondJobSnoc(st, r, calls);
      StepKeysGrow(before, c, r.key.value);
      J.HeldJobHasKey(before.db.jobs, r);
      if J.JobsWithKey(before.db.jobs, r.key.value) == {r.jobId} {
        StepAddsSecondIff(before, r, c);
      }
    }
  }

  /**
   * In any run, after a first request under a key and any further calls, batches and cancels included,
   * repeating the request returns the first ids and inserts nothing exactly when its payload did not already
   * carry a job id and no call in between repeated it for another type of event.
   */
  lemma EnqueueIsIdempotentIff(before: seq<Call>, r: J.EnqueueRequest, between: seq<Call>, again: J.EnqueueRequest)
    requires r.key.Some? && r.key.value != ""
    requires J.JobsWithKey(Run(EMPTY, before).db.jobs, r.key.value) == {}
    requires J.Enqueue(Run(EMPTY, before).db.jobs, r).1.Success?
    requires again == r.(jobId := again.jobId, eventId := again.eventId)
    ensures var st := Run(EMPTY, before);
            var first := J.Enqueue(st.db.jobs, r).1;
            var enqueued := Step(st, EnqueueCall(r));
            var later := Run(enqueued, between).db.jobs;
            J.Enqueue(later, again) == (later, first) <==> J.JOB_ID !in r.payload && !SecondJobIn(enqueued, r, between)
  {
    var st := Run(EMPTY, before);
    RunKeepsEventJobs(before);
    J.FirstEnqueue(st.db.jobs, r);
    var after := Step(st, EnqueueCall(r));
    assert after.db.jobs == J.Enqueue(st.db.jobs, r).0;
    hide *;
    KeyStaysSingleIff(after, r, between);
    RunHolds(after, between, r);
    J.RepeatAnswersIff(Run(after, between).db.jobs, r, again);
  }

  // ---- the worker, on rows updated in place ----

  class Worker {
    const rows: I.Orchestrator
    var workflows: map<Uuid, DeletionState>

    function View(): State
      reads this, rows, rows.tables
    {
      State(rows.View(), workflows)
    }

    constructor ()
      ensures View() == EMPTY && Sound(View()) && fresh(rows) && fresh(rows.tables)
    {
      rows := new I.Orchestrator();
      workflows := map[];
      new;
      RunIsSound([]);
    }

    method Acknowledge(id: Uuid, row: J.Event, job: Option<Uuid>) returns (res: DispatchResult)
      modifies rows.tables
      ensures (View(), res) == AckRow(old(View()), id, row, job)
    {
      if row.claim == None {
        return DispatchResult(id, false, job);
      }
      var t := rows.tables;
      if id in t.outbox && t.outbox[id].claim == row.claim && !t.outbox[id].published {
        t.outbox := t.outbox[id := t.outbox[id].(published := true, claim := None)];
        return DispatchResult(id, true, job);
      }
      return DispatchResult(id, false, job);
    }

    method ProcessDeletionEvent(id: Uuid, row: J.Event) returns (res: DispatchResult)
      modifies this, rows.tables
      ensures (View(), res) == ProcessDeletion(old(View()), id, row)
    {
      hide AckRow;
      if "workflow_id" !in row.payload || row.payload["workflow_id"] == J.Null {
        res := Acknowledge(id, row, None);
        return;
      }
      if !row.payload["workflow_id"].Id? {
        return DispatchResult(id, false, None);
      }
      var workflow := row.payload["workflow_id"].id;
      if workflow in workflows {
        workflows := workflows[workflow := NextDeletion(workflows[workflow])];
      }
      res := Acknowledge(id, row, None);
    }

    /** `process_claimed_event`; when it raises, the batch's transaction restores the rows. */
    method ProcessClaimedEvent(id: Uuid, row: J.Event, inp: Inputs) returns (res: Result<DispatchResult, Raised>)
      modifies this, rows, rows.tables
      ensures match Process(old(View()), id, row, inp)
              case Success(v) => res == Success(v.1) && View() == v.0
              case Failure(_) => res.Failure?
    {
      hide AckRow;
      hide ProcessDeletion;
      hide I.Ingest;
      if row.eventType == J.DeletionTombstoned || row.eventType == J.DeletionAdvanced {
        var done := ProcessDeletionEvent(id, row);
        return Success(done);
      }
      if !J.IsIngestion(row.eventType) {
        return Success(DispatchResult(id, false, None));
      }
      if FieldId(row.payload, "source_id") == None || FieldId(row.payload, "revision_id") == None {
        return Failure(Raised);
      }
      if FieldId(row.payload, J.JOB_ID) == None {
        return Success(DispatchResult(id, false, None));
      }
      var job := FieldId(row.payload, J.JOB_ID).value;
      if job !in rows.tables.jobs || !rows.tables.jobs[job].snapshot {
        return Success(DispatchResult(id, false, Some(job)));
      }
      if !inp.snapshotValid {
        var missing := rows.tables.DeadLetterJob(job, Some("auth_snapshot_invalid"));
        var done := Acknowledge(id, row, Some(job));
        return Success(done);
      }
      var outcome := rows.RunIngestion(RequestOf(row, job), inp.world);
      if outcome.Failure? {
        return Failure(Raised);
      }
      var done := Acknowledge(id, row, Some(job));
      return Success(done);
    }

    /** The loop over claimed rows; it stops at the first exception. */
    method ProcessBatch(batch: seq<Job>) returns (res: Result<seq<DispatchResult>, Raised>)
      modifies this, rows, rows.tables
      ensures match ProcessAll(old(View()), batch)
              case Success(v) => res == Success(v.1) && View() == v.0
              case Failure(_) => res.Failure?
    {
      hide Process;
      var results: seq<DispatchResult> := [];
      for i := 0 to |batch|
        invariant ProcessAll(old(View()), batch[..i]) == Success((View(), results))
      {
        assert batch[..i + 1][..i] == batch[..i];
        if batch[i].row.digest != J.Sha256(batch[i].row.payload) {
          continue;
        }
        var one := ProcessClaimedEvent(batch[i].id, batch[i].row, batch[i].inputs);
        if one.Failure? {
          OneFailureFailsAll(old(View()), batch, i + 1);
          return Failure(Raised);
        }
        results := results + [one.value];
      }
      assert batch[..|batch|] == batch;
      return Success(results);
    }

    /** `dispatch_outbox_batch`: claim and process in one transaction. */
    method DispatchOutboxBatch(b: Batch) returns (results: seq<DispatchResult>)
      requires Sound(View())
      modifies this, rows, rows.tables
      ensures (View(), results) == Dispatch(old(View()), b)
      ensures Sound(View())
    {
      DispatchFollows(View(), b);
      hide Sound;
      hide ProcessAll;
      hide ClaimedRows;
      hide Claimed;
      var start := View();
      rows.tables.outbox := Claimed(start.db.jobs, b.picked, b.token, b.now, b.expires).outbox;
      assert View() == start.(db := start.db.(jobs := Claimed(start.db.jobs, b.picked, b.token, b.now, b.expires))) by {
        ClaimTouchesOutboxOnly(start.db.jobs, b);
      }
      var done := ProcessBatch(ClaimedRows(start.db.jobs, b));
      if done.Failure? {
        rows.Restore(start.db);
        workflows := start.workflows;
        return [];
      }
      return done.value;
    }
  }

  lemma ClaimTouchesOutboxOnly(t: J.Tables, b: Batch)
    ensures var t' := Claimed(t, b.picked, b.token, b.now, b.expires);
            t' == t.(outbox := t'.outbox)
  {
  }

  lemma {:induction false} OneFailureFailsAll(st: State, rows: seq<Job>, n: nat)
    requires n <= |rows| && ProcessAll(st, rows[..n]).Failure?
    ensures ProcessAll(st, rows).Failure?
    decreases |rows| - n
  {
    if n == |rows| {
      assert rows[..n] == rows;
    } else {
      assert rows[..n + 1][..n] == rows[..n];
      OneFailureFailsAll(st, rows, n + 1);
    }
  }
}
