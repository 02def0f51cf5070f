/** What holds of the learning tables after any serial run of requests. */
module LearningRuns {
  import opened Wrappers
  import opened PyText
  import opened LearningContract
  import opened LearningStore

  // --------------------------------------------------------------- invariant

  /** The status recorded for event `q` of the job created by `resp`. */
  function StatusAt(db: Tables, resp: Response, q: int): Status {
    var key := EventKey(resp.job.id.jobId, q);
    if q > 0 && key in db.events && db.events[key].payload.StateChange?
    then db.events[key].payload.status
    else resp.job.status
  }

  ghost predicate ChangeRecorded(db: Tables, resp: Response, q: int) {
    var key := EventKey(resp.job.id.jobId, q);
    && key in db.events
    && db.events[key].payload == StateChange(StatusAt(db, resp, q), resp.job.stateVersion + q)
    && ValidTransition(StatusAt(db, resp, q - 1), StatusAt(db, resp, q))
  }

  ghost predicate JobInv(db: Tables, id: Uuid)
    requires id in db.jobs
  {
    var job := db.jobs[id];
    && job.id.jobId == id
    && job.eventCursor >= 0
    && !job.status.UnknownStatus?
    && LogIs(db, id, job.id.owner, job.eventCursor)
  }

  /** Job row and event log follow from the creation response. */
  ghost predicate Follows(db: Tables, resp: Response) {
    var id := resp.job.id.jobId;
    && id in db.jobs
    && resp.job.eventCursor == 0 && resp.event == CreationEvent(id)
    && var job := db.jobs[id];
    && job.id == resp.job.id
    && EventKey(id, 0) in db.events
    && db.events[EventKey(id, 0)] == EventRow(resp.job.id.owner, resp.event.kind, resp.event.phase, resp.event.payload)
    && (forall q :: 0 < q <= job.eventCursor ==> ChangeRecorded(db, resp, q))
    && job.stateVersion == resp.job.stateVersion + job.eventCursor
    && job.status == StatusAt(db, resp, job.eventCursor)
    && job.phase == if job.eventCursor == 0 then resp.job.phase else LastPhase(db, id, job.eventCursor, job.phase)
  }

  function LastPhase(db: Tables, id: Uuid, q: int, otherwise: Phase): Phase {
    if EventKey(id, q) in db.events then db.events[EventKey(id, q)].phase else otherwise
  }

  ghost predicate ReservationInv(db: Tables, ik: IdemKey)
    requires ik in db.idempotency
  {
    var r := db.idempotency[ik];
    && r.response.Recorded?
    && r.response.response.job.id.owner == ik.owner
    && r.job == Some(r.response.response.job.id.jobId)
    && Follows(db, r.response.response)
  }

  ghost predicate JobsInv(db: Tables) {
    forall id :: id in db.jobs ==> JobInv(db, id)
  }

  ghost predicate EventsHaveJobs(db: Tables) {
    forall k :: k in db.events ==> k.job in db.jobs
  }

  ghost predicate ReservationsInv(db: Tables) {
    forall ik :: ik in db.idempotency ==> ReservationInv(db, ik)
  }

  ghost predicate OneKeyPerJob(db: Tables) {
    forall a, b :: a in db.idempotency && b in db.idempotency && db.idempotency[a].job == db.idempotency[b].job ==>
      a == b
  }

  ghost predicate Inv(db: Tables) {
    JobsInv(db) && EventsHaveJobs(db) && ReservationsInv(db) && OneKeyPerJob(db)
  }

  /** Nothing recorded is lost or rewritten from one state to the later one. */
  ghost predicate Extends(before: Tables, after: Tables) {
    && (forall k :: k in before.events ==> k in after.events && after.events[k] == before.events[k])
    && (forall ik :: ik in before.idempotency ==>
          ik in after.idempotency && after.idempotency[ik] == before.idempotency[ik])
    && (forall id :: id in before.jobs ==> id in after.jobs && after.jobs[id].id == before.jobs[id].id)
  }

  // -------------------------------------------------- one request keeps it all

  ghost predicate SameEvents(db: Tables, next: Tables, id: Uuid, n: int) {
    forall q :: 0 <= q <= n ==>
      var k := EventKey(id, q);
      k in db.events && k in next.events && next.events[k] == db.events[k]
  }

  lemma SameStatuses(db: Tables, next: Tables, resp: Response, n: int)
    requires SameEvents(db, next, resp.job.id.jobId, n)
    ensures forall q :: q <= n ==> StatusAt(next, resp, q) == StatusAt(db, resp, q)
    ensures forall q :: 0 < q <= n && ChangeRecorded(db, resp, q) ==> ChangeRecorded(next, resp, q)
  {
    forall q | q <= n ensures StatusAt(next, resp, q) == StatusAt(db, resp, q) {
      if q > 0 { assert EventKey(resp.job.id.jobId, q) in db.events; }
    }
  }

  /** Leaving a job's row and events alone leaves it following its creation. */
  lemma UntouchedFollows(db: Tables, next: Tables, resp: Response)
    requires Follows(db, resp) && db.jobs[resp.job.id.jobId].eventCursor >= 0
    requires var id := resp.job.id.jobId;
      && id in next.jobs && next.jobs[id] == db.jobs[id]
      && SameEvents(db, next, id, db.jobs[id].eventCursor)
    ensures Follows(next, resp)
  {
    var id := resp.job.id.jobId;
    var n := db.jobs[id].eventCursor;
    SameStatuses(db, next, resp, n);
    assert EventKey(id, 0) in db.events && EventKey(id, n) in db.events;
  }

  lemma LogHasRows(db: Tables, id: Uuid)
    requires JobsInv(db) && id in db.jobs
    ensures db.jobs[id].id.jobId == id && db.jobs[id].eventCursor >= 0
    ensures SameEvents(db, db, id, db.jobs[id].eventCursor)
  {
    assert JobInv(db, id);
  }

  lemma NewJobKeepsJobs(db: Tables, ik: IdemKey, fingerprint: string, job: Job)
    requires JobsInv(db) && EventsHaveJobs(db)
    requires job.id.jobId !in db.jobs && job.eventCursor == 0 && !job.status.UnknownStatus?
    ensures JobsInv(CreationWrites(db, ik, fingerprint, job))
      && EventsHaveJobs(CreationWrites(db, ik, fingerprint, job))
  {
    var next := CreationWrites(db, ik, fingerprint, job);
    var id := job.id.jobId;
    forall j | j in next.jobs ensures JobInv(next, j) {
      if j != id {
        assert JobInv(db, j);
      } else {
        forall q ensures EventKey(id, q) !in db.events {
          assert EventKey(id, q) in db.events ==> EventKey(id, q).job in db.jobs;
        }
      }
    }
  }

  lemma NewJobFollows(db: Tables, ik: IdemKey, fingerprint: string, job: Job)
    requires job.eventCursor == 0
    ensures Follows(CreationWrites(db, ik, fingerprint, job), Response(job, CreationEvent(job.id.jobId)))
  {
  }

  lemma NewJobKeepsReservations(db: Tables, ik: IdemKey, fingerprint: string, job: Job)
    requires JobsInv(db) && ReservationsInv(db) && ik.owner == job.id.owner
    requires job.id.jobId !in db.jobs && job.eventCursor == 0
    ensures ReservationsInv(CreationWrites(db, ik, fingerprint, job))
  {
    var next := CreationWrites(db, ik, fingerprint, job);
    NewJobFollows(db, ik, fingerprint, job);
    forall k | k in next.idempotency ensures ReservationInv(next, k) {
      if k != ik {
        assert ReservationInv(db, k);
        var resp := db.idempotency[k].response.response;
        LogHasRows(db, resp.job.id.jobId);
        UntouchedFollows(db, next, resp);
      }
    }
  }

  lemma NewKeyNewJob(db: Tables, ik: IdemKey, fingerprint: string, job: Job)
    requires ReservationsInv(db) && OneKeyPerJob(db) && job.id.jobId !in db.jobs
    ensures OneKeyPerJob(CreationWrites(db, ik, fingerprint, job))
  {
    var next := CreationWrites(db, ik, fingerprint, job);
    forall a, b | a in next.idempotency && b in next.idempotency && next.idempotency[a].job == next.idempotency[b].job
      ensures a == b
    {
      if a != ik { assert ReservationInv(db, a); }
      if b != ik { assert ReservationInv(db, b); }
    }
  }

  lemma NewJobExtends(db: Tables, ik: IdemKey, fingerprint: string, job: Job)
    requires EventsHaveJobs(db) && ik !in db.idempotency && job.id.jobId !in db.jobs
    ensures Extends(db, CreationWrites(db, ik, fingerprint, job))
  {
  }

  lemma CreationKeepsInv(db: Tables, ik: IdemKey, fingerprint: string, job: Job)
    requires Inv(db) && ik !in db.idempotency && ik.owner == job.id.owner
    requires job.id.jobId !in db.jobs && job.eventCursor == 0 && !job.status.UnknownStatus?
    ensures Inv(CreationWrites(db, ik, fingerprint, job))
    ensures Extends(db, CreationWrites(db, ik, fingerprint, job))
  {
    assert Inv(CreationWrites(db, ik, fingerprint, job)) by {
      NewJobKeepsJobs(db, ik, fingerprint, job);
      NewJobKeepsReservations(db, ik, fingerprint, job);
      NewKeyNewJob(db, ik, fingerprint, job);
    }
    NewJobExtends(db, ik, fingerprint, job);
  }

  /** The row and its log advance together by one event. */
  ghost predicate Advances(db: Tables, id: Uuid, job: Job, t: TransitionRequest) {
    && id in db.jobs && TransitionArgsOk(t)
    && ValidTransition(db.jobs[id].status, t.status)
    && db.jobs[id].stateVersion == t.expectedVersion.value
    && job == TransitionedJob(db.jobs[id], t, db.jobs[id].eventCursor + 1)
  }

  lemma TransitionKeepsJobs(db: Tables, id: Uuid, job: Job, t: TransitionRequest)
    requires JobsInv(db) && EventsHaveJobs(db) && Advances(db, id, job, t)
    ensures JobsInv(TransitionWrites(db, id, job, t)) && EventsHaveJobs(TransitionWrites(db, id, job, t))
  {
    var next := TransitionWrites(db, id, job, t);
    forall j | j in next.jobs ensures JobInv(next, j) {
      assert JobInv(db, j);
    }
  }

  lemma TransitionFollows(db: Tables, id: Uuid, job: Job, t: TransitionRequest, resp: Response)
    requires JobsInv(db) && Advances(db, id, job, t)
    requires Follows(db, resp) && resp.job.id.jobId == id
    ensures Follows(TransitionWrites(db, id, job, t), resp)
  {
    var next := TransitionWrites(db, id, job, t);
    var n := db.jobs[id].eventCursor;
    LogHasRows(db, id);
    SameStatuses(db, next, resp, n);
    assert StatusAt(next, resp, n + 1) == t.status;
    assert StatusAt(next, resp, n) == db.jobs[id].status;
    assert EventKey(id, 0) in db.events;
    assert ChangeRecorded(next, resp, n + 1);
  }

  /** In a reachable state the next event number is the cursor plus one, and the
      primary key of the new event is free. */
  lemma CursorIsNext(db: Tables, id: Uuid)
    requires JobsInv(db) && id in db.jobs
    ensures NextEventSeq(db.events, id, db.jobs[id].id.owner) == db.jobs[id].eventCursor + 1
    ensures EventKey(id, db.jobs[id].eventCursor + 1) !in db.events
  {
    assert JobInv(db, id);
    NextIsAfterLog(db, id, db.jobs[id].id.owner, db.jobs[id].eventCursor);
  }

  lemma TransitionKeepsReservations(db: Tables, id: Uuid, job: Job, t: TransitionRequest)
    requires JobsInv(db) && ReservationsInv(db) && Advances(db, id, job, t)
    ensures ReservationsInv(TransitionWrites(db, id, job, t))
  {
    var next := TransitionWrites(db, id, job, t);
    forall ik | ik in next.idempotency ensures ReservationInv(next, ik) {
      assert ReservationInv(db, ik);
      var resp := db.idempotency[ik].response.response;
      if resp.job.id.jobId == id {
        TransitionFollows(db, id, job, t, resp);
      } else {
        LogHasRows(db, resp.job.id.jobId);
        UntouchedFollows(db, next, resp);
      }
    }
  }

  lemma TransitionExtends(db: Tables, id: Uuid, job: Job, t: TransitionRequest)
    requires JobsInv(db) && Advances(db, id, job, t)
    ensures Extends(db, TransitionWrites(db, id, job, t))
  {
    CursorIsNext(db, id);
  }

  lemma TransitionKeepsInv(db: Tables, id: Uuid, job: Job, t: TransitionRequest)
    requires Inv(db) && Advances(db, id, job, t)
    ensures Inv(TransitionWrites(db, id, job, t))
    ensures Extends(db, TransitionWrites(db, id, job, t))
  {
    TransitionKeepsJobs(db, id, job, t);
    TransitionKeepsReservations(db, id, job, t);
    TransitionExtends(db, id, job, t);
  }

  /** A successful transition, in terms of the row's own cursor. */
  lemma TransitionedAdvances(db: Tables, t: TransitionRequest)
    requires JobsInv(db) && ExecTransition(db, t).1.Transitioned?
    ensures TransitionArgsOk(t)
    ensures var id := t.jobId.uuid.value;
      && id in db.jobs
      && var job := TransitionedJob(db.jobs[id], t, db.jobs[id].eventCursor + 1);
      && Advances(db, id, job, t)
      && ExecTransition(db, t) == (TransitionWrites(db, id, job, t), Transitioned(job, TransitionEvent(id, job, t)))
  {
    CursorIsNext(db, t.jobId.uuid.value);
  }

  lemma ReservedFailsCleanly(db: Tables, n: NormalSpec, ik: IdemKey, fingerprint: string)
    ensures var (next, o) := ExecReserved(db, n, ik, fingerprint);
      o.Created? || (o.Raised? && next == db)
  {
  }

  lemma CreateFailsCleanly(db: Tables, c: CreateRequest)
    ensures var (next, o) := ExecCreate(db, c);
      o.Created? || ((o.Raised? || o.Replayed?) && next == db)
  {
    if CreateArgsOk(c) && KeyOf(c) !in db.idempotency {
      ReservedFailsCleanly(db, Normalized(c.spec), KeyOf(c), Strip(c.fingerprint));
    }
  }

  lemma TransitionFailsCleanly(db: Tables, t: TransitionRequest)
    ensures var (next, o) := ExecTransition(db, t);
      o.Transitioned? || (o.Raised? && next == db)
  {
  }

  lemma CreatedWrites(db: Tables, c: CreateRequest)
    requires ExecCreate(db, c).1.Created?
    ensures CreateArgsOk(c) && KeyOf(c) !in db.idempotency
    ensures var job := ExecCreate(db, c).1.response.job;
      && job.id.owner == KeyOf(c).owner && job.id.jobId !in db.jobs && job.eventCursor == 0
      && !job.status.UnknownStatus?
      && ExecCreate(db, c).0 == CreationWrites(db, KeyOf(c), Strip(c.fingerprint), job)
      && ExecCreate(db, c).1.response == Response(job, CreationEvent(job.id.jobId))
  {
  }

  lemma ExecKeepsInv(db: Tables, r: Request)
    requires Inv(db)
    ensures Inv(Exec(db, r).0) && Extends(db, Exec(db, r).0)
  {
    hide ExecCreate, ExecTransition, CreationWrites, TransitionWrites, JobsInv, EventsHaveJobs, ReservationsInv,
      OneKeyPerJob, Advances;
    match r
    case Create(c) =>
      CreateFailsCleanly(db, c);
      if ExecCreate(db, c).1.Created? {
        CreatedWrites(db, c);
        CreationKeepsInv(db, KeyOf(c), Strip(c.fingerprint), ExecCreate(db, c).1.response.job);
      }
    case Transition(t) =>
      TransitionFailsCleanly(db, t);
      if ExecTransition(db, t).1.Transitioned? {
        TransitionedAdvances(db, t);
        var id := t.jobId.uuid.value;
        TransitionKeepsInv(db, id, TransitionedJob(db.jobs[id], t, db.jobs[id].eventCursor + 1), t);
      }
  }

  // -------------------------------------------------------------------- runs

  /** The tables after a serial run that starts from empty ones. */
  function After(rs: seq<Request>): Tables {
    if rs == [] then EMPTY_TABLES else Exec(After(rs[..|rs| - 1]), rs[|rs| - 1]).0
  }

  function OutcomeAt(rs: seq<Request>, i: nat): Outcome
    requires i < |rs|
  {
    Exec(After(rs[..i]), rs[i]).1
  }

  lemma AfterOne(rs: seq<Request>, i: nat)
    requires i < |rs|
    ensures After(rs[..i + 1]) == Exec(After(rs[..i]), rs[i]).0
  {
    assert rs[..i + 1][..i] == rs[..i];
  }

  lemma {:induction false} AfterInv(rs: seq<Request>)
    ensures Inv(After(rs))
  {
    if rs != [] {
      AfterInv(rs[..|rs| - 1]);
      ExecKeepsInv(After(rs[..|rs| - 1]), rs[|rs| - 1]);
    }
  }

  lemma ExtendsIsTransitive(a: Tables, b: Tables, c: Tables)
    requires Extends(a, b) && Extends(b, c)
    ensures Extends(a, c)
  {
  }

  lemma {:induction false} RunExtends(rs: seq<Request>, i: nat, j: nat)
    requires i <= j <= |rs|
    ensures Extends(After(rs[..i]), After(rs[..j]))
    decreases j - i
  {
    if i < j {
      RunExtends(rs, i, j - 1);
      AfterInv(rs[..j - 1]);
      AfterOne(rs, j - 1);
      hide Exec, Inv;
      ExecKeepsInv(After(rs[..j - 1]), rs[j - 1]);
      ExtendsIsTransitive(After(rs[..i]), After(rs[..j - 1]), After(rs[..j]));
    }
  }

  // ------------------------------------------------------------- the results

  /** In every reachable state each job's events carry exactly the numbers
      0..event_cursor, and no event belongs to a job that is not there. */
  lemma GapFreeLog(rs: seq<Request>, id: Uuid)
    ensures var db := After(rs);
      if id in db.jobs then db.jobs[id].eventCursor >= 0 && LogIs(db, id, db.jobs[id].id.owner, db.jobs[id].eventCursor)
      else forall q :: EventKey(id, q) !in db.events
  {
    AfterInv(rs);
    var db := After(rs);
    if id in db.jobs { assert JobInv(db, id); }
    assert forall k :: k in db.events ==> k.job in db.jobs;
  }

  /** What a reader of the log knows of a job. */
  datatype View = View(status: Status, phase: Phase, stateVersion: int)

  function Apply(v: View, e: EventRow): View {
    match e.payload
    case NoPayload => v
    case StateChange(status, version) => View(status, e.phase, version)
  }

  /** Events 1..n of the log, applied one after the other to the creation view. */
  function Rebuild(db: Tables, resp: Response, n: nat): View {
    if n == 0 then View(resp.job.status, resp.job.phase, resp.job.stateVersion)
    else
      var key := EventKey(resp.job.id.jobId, n);
      var before := Rebuild(db, resp, n - 1);
      if key in db.events then Apply(before, db.events[key]) else before
  }

  lemma {:induction false} RebuildIs(db: Tables, resp: Response, n: nat)
    requires forall q :: 0 < q <= n ==> ChangeRecorded(db, resp, q)
    ensures Rebuild(db, resp, n).status == StatusAt(db, resp, n)
    ensures Rebuild(db, resp, n).stateVersion == resp.job.stateVersion + n
    ensures n > 0 ==> Rebuild(db, resp, n).phase == LastPhase(db, resp.job.id.jobId, n, resp.job.phase)
  {
    if n > 0 {
      assert ChangeRecorded(db, resp, n);
      RebuildIs(db, resp, n - 1);
    }
  }

  /** The reservation that answered the creation of the job. */
  ghost predicate RecordsJob(db: Tables, ik: IdemKey, id: Uuid) {
    && ik in db.idempotency && db.idempotency[ik].job == Some(id)
    && db.idempotency[ik].response.Recorded? && db.idempotency[ik].response.response.job.id.jobId == id
  }

  lemma NewJobRecorded(db: Tables, r: Request, id: Uuid) returns (ik: IdemKey)
    requires Inv(db) && id in Exec(db, r).0.jobs && id !in db.jobs
    ensures RecordsJob(Exec(db, r).0, ik, id)
  {
    match r
    case Create(c) =>
      CreateFailsCleanly(db, c);
      CreatedWrites(db, c);
      ik := KeyOf(c);
    case Transition(t) =>
      TransitionFailsCleanly(db, t);
      TransitionedAdvances(db, t);
      assert false;
  }

  /** Every job there is was recorded by exactly one reservation. */
  lemma {:induction false} EveryJobRecorded(rs: seq<Request>, id: Uuid) returns (ik: IdemKey)
    requires id in After(rs).jobs
    ensures RecordsJob(After(rs), ik, id)
    ensures forall other :: RecordsJob(After(rs), other, id) ==> other == ik
  {
    var before, r := After(rs[..|rs| - 1]), rs[|rs| - 1];
    AfterInv(rs[..|rs| - 1]);
    AfterInv(rs);
    ExecKeepsInv(before, r);
    hide Exec;
    if id in before.jobs {
      ik := EveryJobRecorded(rs[..|rs| - 1], id);
    } else {
      ik := NewJobRecorded(before, r, id);
    }
  }

  /** The log rebuilds the row: from the response recorded at its creation, events
      1..event_cursor give any job's status, phase and version, and the distance
      between version and cursor is the version the job was created with. */
  lemma LogRebuildsRow(rs: seq<Request>, id: Uuid) returns (ik: IdemKey)
    requires id in After(rs).jobs
    ensures RecordsJob(After(rs), ik, id) && forall other :: RecordsJob(After(rs), other, id) ==> other == ik
    ensures var db := After(rs);
      var resp, job := db.idempotency[ik].response.response, db.jobs[id];
      && job.eventCursor >= 0
      && Rebuild(db, resp, job.eventCursor) == View(job.status, job.phase, job.stateVersion)
      && job.stateVersion - job.eventCursor == resp.job.stateVersion
  {
    ik := EveryJobRecorded(rs, id);
    AfterInv(rs);
    var db := After(rs);
    assert ReservationInv(db, ik) && JobInv(db, id);
    hide After, Exec;
    RebuildIs(db, db.idempotency[ik].response.response, db.jobs[id].eventCursor);
  }

  /** The statuses a job has gone through, from creation to event `n`. */
  function Statuses(db: Tables, resp: Response, n: nat): seq<Status> {
    seq(n + 1, q => StatusAt(db, resp, q))
  }

  /** Every adjacent pair of a job's recorded statuses is equal or in the table,
      and a job created queued that has completed or failed ran in between. */
  lemma RanBeforeSettling(rs: seq<Request>, id: Uuid) returns (ik: IdemKey)
    requires id in After(rs).jobs
    ensures RecordsJob(After(rs), ik, id) && forall other :: RecordsJob(After(rs), other, id) ==> other == ik
    ensures var db := After(rs);
      var resp, job := db.idempotency[ik].response.response, db.jobs[id];
      && job.eventCursor >= 0
      && StatusPath(Statuses(db, resp, job.eventCursor))
      && (resp.job.status == Queued && (job.status == Completed || job.status == Failed) ==>
            exists q :: 0 < q < job.eventCursor && StatusAt(db, resp, q) == Running)
  {
    ik := EveryJobRecorded(rs, id);
    AfterInv(rs);
    var db := After(rs);
    assert ReservationInv(db, ik) && JobInv(db, id);
    hide After, Exec;
    var resp, job := db.idempotency[ik].response.response, db.jobs[id];
    var path := Statuses(db, resp, job.eventCursor);
    forall i | 0 < i < |path| ensures ValidTransition(path[i - 1], path[i]) {
      assert ChangeRecorded(db, resp, i);
    }
    if resp.job.status == Queued && (job.status == Completed || job.status == Failed) {
      RunningBeforeSettled(path);
      var q :| 0 < q < |path| - 1 && path[q] == Running;
      assert StatusAt(db, resp, q) == Running;
    }
  }

  lemma OneRequestOneEdge(db: Tables, r: Request, id: Uuid)
    requires Inv(db) && id in db.jobs
    ensures var next := Exec(db, r).0;
      && id in next.jobs
      && ValidTransition(db.jobs[id].status, next.jobs[id].status)
      && next.jobs[id].stateVersion >= db.jobs[id].stateVersion
  {
    assert JobInv(db, id);
    hide ExecCreate, ExecTransition, JobInv, EventsHaveJobs, ReservationsInv, OneKeyPerJob;
    match r
    case Create(c) =>
      CreateFailsCleanly(db, c);
      if ExecCreate(db, c).1.Created? { CreatedWrites(db, c); }
    case Transition(t) =>
      TransitionFailsCleanly(db, t);
      if ExecTransition(db, t).1.Transitioned? { TransitionedAdvances(db, t); }
  }

  lemma TerminalHasNoEdge(current: Status, target: Status)
    requires ValidTransition(current, target)
    ensures Terminal(current) ==> target == current
  {
  }

  /** A job that is failed, cancelled or completed keeps that status, and no
      version ever goes back. */
  lemma {:induction false} TerminalForGood(rs: seq<Request>, i: nat, j: nat, id: Uuid)
    requires i <= j <= |rs| && id in After(rs[..i]).jobs
    ensures id in After(rs[..j]).jobs
    ensures Terminal(After(rs[..i]).jobs[id].status) ==>
      After(rs[..j]).jobs[id].status == After(rs[..i]).jobs[id].status
    ensures After(rs[..j]).jobs[id].stateVersion >= After(rs[..i]).jobs[id].stateVersion
    decreases j - i
  {
    if i < j {
      hide Exec, Inv, ValidTransition, After;
      TerminalForGood(rs, i, j - 1, id);
      AfterInv(rs[..j - 1]);
      OneRequestOneEdge(After(rs[..j - 1]), rs[j - 1], id);
      TerminalHasNoEdge(After(rs[..j - 1]).jobs[id].status, Exec(After(rs[..j - 1]), rs[j - 1]).0.jobs[id].status);
      AfterOne(rs, j - 1);
    }
  }

  /** Two transitions of one job never win with the same expected version. */
  lemma VersionWinsOnce(rs: seq<Request>, i: nat, j: nat)
    requires i < j < |rs| && rs[i].Transition? && rs[j].Transition?
    requires OutcomeAt(rs, i).Transitioned? && OutcomeAt(rs, j).Transitioned?
    requires rs[i].t.jobId.uuid == rs[j].t.jobId.uuid
    ensures rs[i].t.expectedVersion.value < rs[j].t.expectedVersion.value
  {
    var id := rs[i].t.jobId.uuid.value;
    AfterOne(rs, i);
    AfterInv(rs[..i]);
    AfterInv(rs[..j]);
    TransitionedAdvances(After(rs[..i]), rs[i].t);
    TransitionedAdvances(After(rs[..j]), rs[j].t);
    TerminalForGood(rs, i + 1, j, id);
  }

  /** For each owner and key at most one job is ever created: once one is, every
      later valid call with the key changes nothing, and answers with the very
      first response if the fingerprint is the same and with a conflict if not. */
  lemma CreatedOnce(rs: seq<Request>, i: nat, j: nat)
    requires i < j < |rs| && rs[i].Create? && rs[j].Create?
    requires OutcomeAt(rs, i).Created?
    requires CreateArgsOk(rs[j].c) && KeyOf(rs[j].c) == KeyOf(rs[i].c)
    ensures After(rs[..j + 1]) == After(rs[..j])
    ensures OutcomeAt(rs, j) ==
      if Strip(rs[j].c.fingerprint) == Strip(rs[i].c.fingerprint) then Replayed(OutcomeAt(rs, i).response)
      else Raised(IdempotencyConflict)
  {
    CreatedWrites(After(rs[..i]), rs[i].c);
    AfterOne(rs, i);
    RunExtends(rs, i + 1, j);
    AfterOne(rs, j);
  }

  /** No committed reservation is pending, so the only answers to a key already
      taken are a replay and a conflict; and two keys never share a job. */
  lemma NeverPending(rs: seq<Request>, ik: IdemKey, other: IdemKey)
    requires ik in After(rs).idempotency
    ensures After(rs).idempotency[ik].response.Recorded?
    ensures other in After(rs).idempotency && other != ik ==>
      After(rs).idempotency[other].job != After(rs).idempotency[ik].job
  {
    AfterInv(rs);
    assert ReservationInv(After(rs), ik);
  }

  /** A creation that passes its checks with a new key still fails, leaving
      nothing behind, exactly when a budget is below one second or the database
      refuses the row. */
  lemma FreshCreationSucceeds(rs: seq<Request>, c: CreateRequest)
    requires CreateArgsOk(c) && KeyOf(c) !in After(rs).idempotency
    ensures ExecCreate(After(rs), c).1.Created? <==>
      && (c.spec.budgets.Object? ==> !SubSecond(c.spec.budgets.fields))
      && Normalized(c.spec).id.jobId !in After(rs).jobs
      && VersionOk(Normalized(c.spec))
  {
    BudgetsPassAgain(c.spec);
    hide After, LogIs, ValidBudgets, Truncated, SubSecond, CheckedBudgets, BudgetsAgain, SpecOk;
    GapFreeLog(rs, Normalized(c.spec).id.jobId);
  }

  lemma BudgetsPassAgain(spec: JobSpec)
    requires SpecOk(spec)
    ensures BudgetsAgain(Normalized(spec)).Some? <==> (spec.budgets.Object? ==> !SubSecond(spec.budgets.fields))
  {
    if spec.budgets.Object? { SecondPass(spec.budgets.fields); }
  }

  /** A creation succeeds, replays or fails with this error, exactly so. */
  lemma CreationOutcome(rs: seq<Request>, c: CreateRequest)
    ensures var db, spec := After(rs), c.spec;
      var o, key := ExecCreate(db, c).1, IdemKey(Strip(spec.owner), Strip(c.key));
      if !Acceptable(spec) || Blank(c.key) || Blank(c.fingerprint) then o == Raised(Contract)
      else if key in db.idempotency then
        && db.idempotency[key].response.Recorded?
        && o == if db.idempotency[key].fingerprint == Strip(c.fingerprint) then
                  Replayed(db.idempotency[key].response.response)
                else Raised(IdempotencyConflict)
      else if spec.budgets.Object? && SubSecond(spec.budgets.fields) then o == Raised(Contract)
      else if spec.jobId.uuid.value in db.jobs || spec.stateVersion.NullVersion?
              || (spec.stateVersion.Version? && !(-MAX_BIGINT - 1 <= spec.stateVersion.n <= MAX_BIGINT)) then
        o == Raised(DatabaseError)
      else o.Created?
  {
    hide After, SubSecond, CheckedBudgets, SpecOk, Acceptable, Normalized, ExecReserved, InBigint;
    SpecOkIs(c.spec);
    if CreateArgsOk(c) {
      KeyIs(c);
      if KeyOf(c) in After(rs).idempotency { NeverPending(rs, KeyOf(c), KeyOf(c)); } else { FreshOutcome(rs, c); }
    }
  }

  lemma KeyIs(c: CreateRequest)
    requires CreateArgsOk(c)
    ensures KeyOf(c) == IdemKey(Strip(c.spec.owner), Strip(c.key)) && c.spec.jobId.uuid.Some?
  {
  }

  lemma FreshOutcome(rs: seq<Request>, c: CreateRequest)
    requires CreateArgsOk(c) && KeyOf(c) !in After(rs).idempotency
    ensures c.spec.jobId.uuid.Some?
    ensures var spec, o := c.spec, ExecCreate(After(rs), c).1;
      if spec.budgets.Object? && SubSecond(spec.budgets.fields) then o == Raised(Contract)
      else if spec.jobId.uuid.value in After(rs).jobs || spec.stateVersion.NullVersion?
              || (spec.stateVersion.Version? && !(-MAX_BIGINT - 1 <= spec.stateVersion.n <= MAX_BIGINT)) then
        o == Raised(DatabaseError)
      else o.Created?
  {
    hide After, LogIs, SubSecond, CheckedBudgets, BudgetsAgain, SpecOk, BudgetsOf, CreationWrites, NewJob, Strip,
      Normalized;
    BudgetsPassAgain(c.spec);
    NormalizedIs(c.spec);
    GapFreeLog(rs, c.spec.jobId.uuid.value);
  }

  /** A transition succeeds, or fails with this error, exactly so; what decides is the
      request and the job's own row. */
  lemma TransitionOutcome(rs: seq<Request>, t: TransitionRequest)
    ensures var db := After(rs);
      var o := ExecTransition(db, t).1;
      if Blank(t.jobId.text) || t.jobId.uuid.None? || Blank(t.owner) || t.expectedVersion.None?
         || t.expectedVersion.value < 0 || t.status.UnknownStatus? || t.phase.UnknownPhase? || t.patch.unknown != {}
         || (t.patch.budgets.Some? && CheckedBudgets(t.patch.budgets.value).None?) then o == Raised(Contract)
      else
        var id := t.jobId.uuid.value;
        if id !in db.jobs || db.jobs[id].id.owner != Strip(t.owner) then o == Raised(JobNotFound)
        else if db.jobs[id].stateVersion != t.expectedVersion.value then o == Raised(VersionConflict)
        else if !ValidTransition(db.jobs[id].status, t.status) then o == Raised(Contract)
        else if t.expectedVersion.value + 1 > MAX_BIGINT || db.jobs[id].eventCursor + 1 > MAX_BIGINT then
          o == Raised(DatabaseError)
        else if Blank(t.eventKind) then o == Raised(Contract)
        else o.Transitioned? && o.job.eventCursor == db.jobs[id].eventCursor + 1
  {
    AfterInv(rs);
    var db := After(rs);
    hide After, LogIs, Strip, CheckedBudgets, ValidTransition, NextEventSeq, TransitionWrites, EventsHaveJobs,
      ReservationsInv;
    if TransitionArgsOk(t) && t.jobId.uuid.value in db.jobs {
      assert JobInv(db, t.jobId.uuid.value);
      CursorIsNext(db, t.jobId.uuid.value);
    }
  }

  const MAX_BIGINT := 0x7FFF_FFFF_FFFF_FFFF

  // ---------------------------------------------------- what a row still holds

  /** The request gave the field of the job its value: it created the job, or it
      succeeded in patching it. */
  ghost predicate SetBy(r: Request, o: Outcome, id: Uuid, f: MutableField) {
    match r
    case Create(_) => o.Created? && o.response.job.id.jobId == id
    case Transition(t) => o.Transitioned? && t.jobId.uuid == Some(id) && f in t.patch.values
  }

  ghost predicate Sets(rs: seq<Request>, k: nat, id: Uuid, f: MutableField)
    requires k < |rs|
  {
    SetBy(rs[k], OutcomeAt(rs, k), id, f)
  }

  function ValueGiven(r: Request, f: MutableField): Json {
    match r
    case Create(c) => GivenField(c.spec, f)
    case Transition(t) => if f in t.patch.values then t.patch.values[f] else JsonNull
  }

  /** The same for the budgets. */
  ghost predicate BudgetsSetBy(r: Request, o: Outcome, id: Uuid) {
    match r
    case Create(_) => o.Created? && o.response.job.id.jobId == id
    case Transition(t) => o.Transitioned? && t.jobId.uuid == Some(id) && t.patch.budgets.Some?
  }

  ghost predicate SetsBudgets(rs: seq<Request>, k: nat, id: Uuid)
    requires k < |rs|
  {
    BudgetsSetBy(rs[k], OutcomeAt(rs, k), id)
  }

  function BudgetsGiven(r: Request): BudgetsArg {
    match r
    case Create(c) => c.spec.budgets
    case Transition(t) => if t.patch.budgets.Some? then t.patch.budgets.value else NoBudgets
  }

  lemma SetsSooner(rs: seq<Request>, k: nat)
    requires k < |rs| - 1
    ensures OutcomeAt(rs[..|rs| - 1], k) == OutcomeAt(rs, k)
  {
    assert rs[..|rs| - 1][..k] == rs[..k];
  }

  /** One request: the row is as it was, or new, or patched. */
  lemma RowAfter(db: Tables, r: Request, id: Uuid)
    requires id in Exec(db, r).0.jobs
    ensures var (next, o) := Exec(db, r);
      var job := next.jobs[id];
      match o
      case Created(resp) =>
        && r.Create?
        && if resp.job.id.jobId == id then JobOf(r.c.spec, job) else id in db.jobs && job == db.jobs[id]
      case Transitioned(changed, _) =>
        && r.Transition? && id in db.jobs
        && if r.t.jobId.uuid == Some(id) then PatchedRow(db.jobs[id], r.t, job) else job == db.jobs[id]
      case _ => id in db.jobs && job == db.jobs[id]
  {
    hide JobOf, PatchedRow;
    match r
    case Create(c) =>
      CreateFailsCleanly(db, c);
      if ExecCreate(db, c).1.Created? { CreatedIs(db, c); }
    case Transition(t) =>
      TransitionFailsCleanly(db, t);
      if ExecTransition(db, t).1.Transitioned? { TransitionedIs(db, t); }
  }

  lemma FieldAfter(db: Tables, r: Request, id: Uuid, f: MutableField)
    requires id in Exec(db, r).0.jobs
    ensures var (next, o) := Exec(db, r);
      var fields := next.jobs[id].fields;
      if SetBy(r, o, id, f) then f in fields && fields[f] == ValueGiven(r, f)
      else
        && id in db.jobs && (f in fields <==> f in db.jobs[id].fields)
        && (f in fields ==> fields[f] == db.jobs[id].fields[f])
  {
    hide Exec, IdentityOf, BudgetsOf, GivenField;
    RowAfter(db, r, id);
  }

  lemma BudgetsAfter(db: Tables, r: Request, id: Uuid)
    requires id in Exec(db, r).0.jobs
    ensures var (next, o) := Exec(db, r);
      if BudgetsSetBy(r, o, id) then BudgetsOf(BudgetsGiven(r), next.jobs[id].budgets)
      else id in db.jobs && next.jobs[id].budgets == db.jobs[id].budgets
  {
    hide Exec, IdentityOf, BudgetsOf, GivenField;
    RowAfter(db, r, id);
  }

  /** Every field of a job holds the value given by the last request that set it. */
  lemma {:induction false} FieldIsLastSet(rs: seq<Request>, id: Uuid, f: MutableField) returns (k: nat)
    requires id in After(rs).jobs
    ensures k < |rs| && Sets(rs, k, id, f) && forall j :: k < j < |rs| ==> !Sets(rs, j, id, f)
    ensures f in After(rs).jobs[id].fields && After(rs).jobs[id].fields[f] == ValueGiven(rs[k], f)
  {
    hide Exec, SetBy, ValueGiven;
    var last := |rs| - 1;
    var before := rs[..last];
    FieldAfter(After(before), rs[last], id, f);
    if Sets(rs, last, id, f) {
      k := last;
    } else {
      k := FieldIsLastSet(before, id, f);
      forall j | k <= j < last ensures Sets(rs, j, id, f) <==> Sets(before, j, id, f) { SetsSooner(rs, j); }
    }
  }

  /** And so do its budgets. */
  lemma {:induction false} BudgetsAreLastSet(rs: seq<Request>, id: Uuid) returns (k: nat)
    requires id in After(rs).jobs
    ensures k < |rs| && SetsBudgets(rs, k, id) && forall j :: k < j < |rs| ==> !SetsBudgets(rs, j, id)
    ensures BudgetsOf(BudgetsGiven(rs[k]), After(rs).jobs[id].budgets)
  {
    hide Exec, BudgetsSetBy, BudgetsGiven, BudgetsOf;
    var last := |rs| - 1;
    var before := rs[..last];
    BudgetsAfter(After(before), rs[last], id);
    if SetsBudgets(rs, last, id) {
      k := last;
    } else {
      k := BudgetsAreLastSet(before, id);
      forall j | k <= j < last ensures SetsBudgets(rs, j, id) <==> SetsBudgets(before, j, id) { SetsSooner(rs, j); }
    }
  }

  /** A job stays where its specification puts it: for good under its owner, in its
      workspace and of its kind, and visible to its owner's scope and to no other. */
  lemma StaysWithItsOwner(rs: seq<Request>, k: nat, other: string)
    requires k < |rs| && rs[k].Create? && OutcomeAt(rs, k).Created?
    ensures var spec, db := rs[k].c.spec, After(rs);
      && spec.jobId.uuid.Some? && spec.jobId.uuid.value in db.jobs
      && IdentityOf(spec, db.jobs[spec.jobId.uuid.value].id)
      && (RowVisible(db, spec.jobId.uuid.value, Strip(other)) <==> Strip(other) == Strip(spec.owner))
      && (Trimmed(other) && Trimmed(spec.owner) ==>
            (RowVisible(db, spec.jobId.uuid.value, Strip(other)) <==> other == spec.owner))
  {
    var spec := rs[k].c.spec;
    CreatedIs(After(rs[..k]), rs[k].c);
    AfterOne(rs, k);
    RunExtends(rs, k + 1, |rs|);
    assert rs[..|rs|] == rs;
    if Trimmed(other) { TrimmedStays(other); }
    if Trimmed(spec.owner) { TrimmedStays(spec.owner); }
    hide After, ExecCreate, Strip, BudgetsOf;
  }

  /** The tables before the run, after one request, after two, and so on. */
  function States(rs: seq<Request>): seq<Tables> {
    seq(|rs| + 1, (i: int) requires 0 <= i <= |rs| => After(rs[..i]))
  }

  /** States that all satisfy the job invariant and only ever grow. */
  ghost predicate Growing(states: seq<Tables>) {
    && (forall i :: 0 <= i < |states| ==> JobsInv(states[i]))
    && (forall i, j :: 0 <= i <= j < |states| ==> Extends(states[i], states[j]))
  }

  lemma RunsGrow(rs: seq<Request>)
    ensures Growing(States(rs))
  {
    forall i | 0 <= i <= |rs| ensures JobsInv(States(rs)[i]) {
      AfterInv(rs[..i]);
    }
    forall i, j | 0 <= i <= j <= |rs| ensures Extends(States(rs)[i], States(rs)[j]) {
      RunExtends(rs, i, j);
    }
  }
}
