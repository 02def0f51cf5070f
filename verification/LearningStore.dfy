/** agents/learning_store.py: the tables, what one transaction does to them when
    nothing else runs, and the store object whose methods do it in steps. */
module LearningStore {
  import opened Wrappers
  import opened PyText
  import opened IntSets
  import opened LearningContract

  // ------------------------------------------------------------------ tables

  datatype Job = Job(
    id: JobIdentity, status: Status, phase: Phase,
    stateVersion: int, eventCursor: int, budgets: Budgets, fields: Fields)

  datatype Payload = NoPayload | StateChange(status: Status, stateVersion: int)

  datatype EventKey = EventKey(job: Uuid, seqNo: int)

  datatype EventRow = EventRow(owner: string, kind: string, phase: Phase, payload: Payload)

  datatype Event = Event(job: Uuid, seqNo: int, kind: string, phase: Phase, payload: Payload)

  datatype IdemKey = IdemKey(owner: string, key: string)

  /** What `create_job` answers, and what it stores to answer again. */
  datatype Response = Response(job: Job, event: Event)

  datatype StoredResponse = Pending | Recorded(response: Response)

  datatype Reservation = Reservation(fingerprint: string, job: Option<Uuid>, response: StoredResponse)

  datatype Tables = Tables(
    jobs: map<Uuid, Job>,
    events: map<EventKey, EventRow>,
    idempotency: map<IdemKey, Reservation>)

  const EMPTY_TABLES := Tables(map[], map[], map[])

  /** PostgreSQL's BIGINT, the type of the version and sequence columns. */
  predicate InBigint(i: int) {
    -0x8000_0000_0000_0000 <= i < 0x8000_0000_0000_0000
  }

  function SeqNos(events: map<EventKey, EventRow>, job: Uuid, owner: string): set<int> {
    set k | k in events.Keys && k.job == job && events[k].owner == owner :: k.seqNo
  }

  /** `COALESCE(MAX(event_seq), -1) + 1`. */
  function NextEventSeq(events: map<EventKey, EventRow>, job: Uuid, owner: string): int {
    var s := SeqNos(events, job, owner);
    if s == {} then 0 else Max(s) + 1
  }

  function InsertEvent(db: Tables, owner: string, e: Event): Tables {
    db.(events := db.events[EventKey(e.job, e.seqNo) := EventRow(owner, e.kind, e.phase, e.payload)])
  }

  // ---------------------------------------------------------------- requests

  datatype CreateRequest = CreateRequest(spec: JobSpec, key: string, fingerprint: string)

  /** `unknown` holds the patched names outside MUTABLE_SNAPSHOT_FIELDS. */
  datatype Patch = Patch(values: Fields, budgets: Option<BudgetsArg>, unknown: set<string>)

  /** `expectedVersion` is `None` for anything that is not an integer. */
  datatype TransitionRequest = TransitionRequest(
    jobId: RawId, owner: string, expectedVersion: Option<int>,
    status: Status, phase: Phase, patch: Patch, eventKind: string)

  datatype Request = Create(c: CreateRequest) | Transition(t: TransitionRequest)

  datatype StoreError =
    | Contract | IdempotencyConflict | ReservationIncomplete
    | JobNotFound | VersionConflict | DatabaseError

  datatype Outcome =
    | Created(response: Response)
    | Replayed(response: Response)
    | Transitioned(job: Job, event: Event)
    | Raised(error: StoreError)

  // ------------------------------------------------------- a creation, alone

  predicate CreateArgsOk(c: CreateRequest) {
    SpecOk(c.spec) && !Blank(c.key) && !Blank(c.fingerprint)
  }

  function KeyOf(c: CreateRequest): IdemKey
    requires CreateArgsOk(c)
  {
    IdemKey(Normalized(c.spec).id.owner, Strip(c.key))
  }

  const ALL_FIELDS: set<MutableField> :=
    {WorkerId, Resource, Progress, Checkpoint, Retry, Freshness, BlockingReason, Provenance, EvaluationReport,
     Candidate}

  function DefaultFields(): Fields {
    map f | f in ALL_FIELDS :: if f == WorkerId || f == BlockingReason then JsonNull else Default(f)
  }

  /** The budgets after the second pass `_snapshot_defaults` makes over them. */
  function BudgetsAgain(n: NormalSpec): Option<Budgets> {
    CheckedBudgets(Object(n.budgets))
  }

  /** What the version column takes: not null, and a BIGINT. */
  predicate VersionOk(n: NormalSpec) {
    n.stateVersion.Some? && InBigint(n.stateVersion.value)
  }

  function NewJob(n: NormalSpec, budgets: Budgets): Job {
    var version := if n.stateVersion.Some? then n.stateVersion.value else 0;
    Job(n.id, n.status, n.phase, version, 0, budgets, DefaultFields() + n.fields)
  }

  /** The creation event always says phase "queued", whatever the job's phase is. */
  function CreationEvent(job: Uuid): Event {
    Event(job, 0, "job_created", PhaseQueued, NoPayload)
  }

  function CreationWrites(db: Tables, ik: IdemKey, fingerprint: string, job: Job): Tables {
    var event := CreationEvent(job.id.jobId);
    var inserted := InsertEvent(db.(jobs := db.jobs[job.id.jobId := job]), job.id.owner, event);
    inserted.(idempotency := db.idempotency[ik :=
      Reservation(fingerprint, Some(job.id.jobId), Recorded(Response(job, event)))])
  }

  function Replay(prior: Reservation, fingerprint: string): Outcome {
    if prior.fingerprint != fingerprint then Raised(IdempotencyConflict)
    else if prior.response.Pending? then Raised(ReservationIncomplete)
    else Replayed(prior.response.response)
  }

  /** The rest of `create_job` once the reservation is new. */
  function ExecReserved(db: Tables, n: NormalSpec, ik: IdemKey, fingerprint: string): (Tables, Outcome) {
    var id := n.id.jobId;
    if BudgetsAgain(n).None? then (db, Raised(Contract))
    else if id in db.jobs || !VersionOk(n) || EventKey(id, 0) in db.events then (db, Raised(DatabaseError))
    else
      var job := NewJob(n, BudgetsAgain(n).value);
      (CreationWrites(db, ik, fingerprint, job), Created(Response(job, CreationEvent(id))))
  }

  /** `create_job` run by itself: the tables it leaves and what the caller gets. */
  function ExecCreate(db: Tables, c: CreateRequest): (Tables, Outcome) {
    if !CreateArgsOk(c) then (db, Raised(Contract))
    else if KeyOf(c) in db.idempotency then (db, Replay(db.idempotency[KeyOf(c)], Strip(c.fingerprint)))
    else ExecReserved(db, Normalized(c.spec), KeyOf(c), Strip(c.fingerprint))
  }

  /** The job that a specification asks for: its identity, its values or the defaults
      for them, its budgets in whole seconds, and no event but the first. */
  ghost predicate JobOf(spec: JobSpec, job: Job) {
    && IdentityOf(spec, job.id) && BudgetsOf(spec.budgets, job.budgets) && job.eventCursor == 0
    && job.status == (if spec.status.Some? then spec.status.value else Queued)
    && job.phase == (if spec.phase.Some? then spec.phase.value else PhaseQueued)
    && !spec.stateVersion.NullVersion?
    && job.stateVersion == (if spec.stateVersion.Version? then spec.stateVersion.n else 0)
    && forall f :: f in job.fields && job.fields[f] == GivenField(spec, f)
  }

  /** A field as given, or its default; two of them default to null. */
  function GivenField(spec: JobSpec, f: MutableField): Json {
    if f in spec.fields then spec.fields[f]
    else if f.WorkerId? || f.BlockingReason? then JsonNull
    else Default(f)
  }

  lemma BudgetsStay(arg: BudgetsArg, b: Budgets)
    requires CheckedBudgets(arg) == Some(b) && CheckedBudgets(Object(b)).Some?
    ensures CheckedBudgets(Object(b)) == Some(b)
  {
    if arg.Object? {
      SecondPass(arg.fields);
    } else {
      assert Truncated(b) == b;
    }
  }

  lemma NewJobIs(spec: JobSpec)
    requires SpecOk(spec) && BudgetsAgain(Normalized(spec)).Some? && VersionOk(Normalized(spec))
    ensures JobOf(spec, NewJob(Normalized(spec), BudgetsAgain(Normalized(spec)).value))
  {
    hide SpecOk, Normalized, CheckedBudgets, BudgetsOf, IdentityOf, InBigint, BudgetsSound, WholeSeconds;
    var n := Normalized(spec);
    NormalizedIs(spec);
    NormalBudgets(spec);
    BudgetsStay(spec.budgets, n.budgets);
    var job := NewJob(n, BudgetsAgain(n).value);
    forall f: MutableField ensures f in job.fields && job.fields[f] == GivenField(spec, f) {
      EveryField(f);
    }
  }

  lemma EveryField(f: MutableField)
    ensures f in ALL_FIELDS
  {
    match f case WorkerId => case Resource => case Progress => case Checkpoint => case Retry => case Freshness =>
    case BlockingReason => case Provenance => case EvaluationReport => case Candidate =>
  }

  lemma NormalBudgets(spec: JobSpec)
    requires SpecOk(spec)
    ensures CheckedBudgets(spec.budgets) == Some(Normalized(spec).budgets)
  {
  }

  /** What a creation leaves: the job asked for, its first event and its reservation,
      under the owner, the id and the key that were given, and nothing else. */
  lemma CreatedIs(db: Tables, c: CreateRequest)
    requires ExecCreate(db, c).1.Created?
    ensures var (next, o) := ExecCreate(db, c);
      var job, owner := o.response.job, Strip(c.spec.owner);
      var id, key := job.id.jobId, IdemKey(owner, Strip(c.key));
      && JobOf(c.spec, job) && o.response.event == Event(id, 0, "job_created", PhaseQueued, NoPayload)
      && id !in db.jobs && next.jobs == db.jobs[id := job]
      && next.events == db.events[EventKey(id, 0) := EventRow(owner, "job_created", PhaseQueued, NoPayload)]
      && key !in db.idempotency
      && next.idempotency == db.idempotency[key := Reservation(Strip(c.fingerprint), Some(id), Recorded(o.response))]
  {
    hide SpecOk, JobOf, BudgetsAgain, VersionOk;
    NewJobIs(c.spec);
  }

  // ----------------------------------------------------- a transition, alone

  predicate TransitionArgsOk(t: TransitionRequest) {
    && !Blank(t.jobId.text) && t.jobId.uuid.Some? && !Blank(t.owner)
    && t.expectedVersion.Some? && t.expectedVersion.value >= 0
    && !t.status.UnknownStatus? && !t.phase.UnknownPhase?
    && t.patch.unknown == {}
    && (t.patch.budgets.Some? ==> CheckedBudgets(t.patch.budgets.value).Some?)
  }

  function TransitionedJob(row: Job, t: TransitionRequest, cursor: int): Job
    requires TransitionArgsOk(t)
  {
    Job(row.id, t.status, t.phase, t.expectedVersion.value + 1, cursor,
        if t.patch.budgets.Some? then CheckedBudgets(t.patch.budgets.value).value else row.budgets,
        row.fields + t.patch.values)
  }

  function TransitionEvent(id: Uuid, job: Job, t: TransitionRequest): Event {
    Event(id, job.eventCursor, Strip(t.eventKind), t.phase, StateChange(job.status, job.stateVersion))
  }

  /** The row after a transition: what was asked for, one version on, every patched
      field with its value, everything else as it was. */
  ghost predicate PatchedRow(row: Job, t: TransitionRequest, job: Job) {
    && job.id == row.id && job.status == t.status && job.phase == t.phase
    && t.expectedVersion == Some(row.stateVersion) && job.stateVersion == row.stateVersion + 1
    && job.fields.Keys == row.fields.Keys + t.patch.values.Keys
    && (forall f :: f in job.fields ==>
          job.fields[f] == if f in t.patch.values then t.patch.values[f] else row.fields[f])
    && (if t.patch.budgets.Some? then BudgetsOf(t.patch.budgets.value, job.budgets) else job.budgets == row.budgets)
  }

  predicate RowVisible(db: Tables, id: Uuid, owner: string) {
    id in db.jobs && db.jobs[id].id.owner == owner
  }

  /** The rest of `transition_job` once the row of job `id` is read. */
  function ExecOnRow(db: Tables, t: TransitionRequest, id: Uuid, row: Job): (Tables, Outcome)
    requires TransitionArgsOk(t)
  {
    if row.stateVersion != t.expectedVersion.value then (db, Raised(VersionConflict))
    else if !ValidTransition(row.status, t.status) then (db, Raised(Contract))
    else
      var job := TransitionedJob(row, t, NextEventSeq(db.events, id, row.id.owner));
      if !InBigint(job.stateVersion) || !InBigint(job.eventCursor) then (db, Raised(DatabaseError))
      else if job.eventCursor < 0 || Blank(t.eventKind) then (db, Raised(Contract))
      else if EventKey(id, job.eventCursor) in db.events then (db, Raised(DatabaseError))
      else (TransitionWrites(db, id, job, t), Transitioned(job, TransitionEvent(id, job, t)))
  }

  function TransitionWrites(db: Tables, id: Uuid, job: Job, t: TransitionRequest): Tables {
    InsertEvent(db.(jobs := db.jobs[id := job]), job.id.owner, TransitionEvent(id, job, t))
  }

  /** `transition_job` run by itself. */
  function ExecTransition(db: Tables, t: TransitionRequest): (Tables, Outcome) {
    if !TransitionArgsOk(t) then (db, Raised(Contract))
    else
      var id := t.jobId.uuid.value;
      if !RowVisible(db, id, Strip(t.owner)) then (db, Raised(JobNotFound))
      else ExecOnRow(db, t, id, db.jobs[id])
  }

  /** What a transition leaves: the row of the owner's job patched, an event that says
      so, and everything else as it was. */
  lemma TransitionedIs(db: Tables, t: TransitionRequest)
    requires ExecTransition(db, t).1.Transitioned?
    ensures t.jobId.uuid.Some?
    ensures var (next, o) := ExecTransition(db, t);
      var id, job, owner := t.jobId.uuid.value, o.job, Strip(t.owner);
      var change := StateChange(t.status, job.stateVersion);
      && id in db.jobs && db.jobs[id].id.owner == owner && PatchedRow(db.jobs[id], t, job)
      && o.event == Event(id, job.eventCursor, Strip(t.eventKind), t.phase, change)
      && next.jobs == db.jobs[id := job] && next.idempotency == db.idempotency
      && EventKey(id, job.eventCursor) !in db.events
      && next.events == db.events[EventKey(id, job.eventCursor) := EventRow(owner, Strip(t.eventKind), t.phase, change)]
  {
    hide NextEventSeq, CheckedBudgets, ValidTransition, BudgetsOf, Strip;
    if t.patch.budgets.Some? { CheckedBudgetsIff(t.patch.budgets.value); }
  }

  function Exec(db: Tables, r: Request): (Tables, Outcome) {
    match r
    case Create(c) => ExecCreate(db, c)
    case Transition(t) => ExecTransition(db, t)
  }

  // ----------------------------------------------------------------- queries

  function VisibleAfter(db: Tables, job: Uuid, owner: string, after: int): set<int> {
    set q | q in SeqNos(db.events, job, owner) && q > after
  }

  /** `ORDER BY event_seq ASC LIMIT limit`: the least visible number, then the
      least above it, and so on. */
  function FirstRows(db: Tables, job: Uuid, owner: string, after: int, limit: nat): seq<Event>
    decreases limit
  {
    var candidates := VisibleAfter(db, job, owner, after);
    if limit == 0 || candidates == {} then []
    else
      var q := Min(candidates);
      var key := EventKey(job, q);
      assert key in db.events;
      var row := db.events[key];
      [Event(job, q, row.kind, row.phase, row.payload)] + FirstRows(db, job, owner, q, limit - 1)
  }

  /** The event is one of the job's and the owner's, behind `after`, as stored. */
  ghost predicate EventSeen(db: Tables, job: Uuid, owner: string, after: int, e: Event) {
    var key := EventKey(job, e.seqNo);
    && e.job == job && e.seqNo > after && key in db.events
    && db.events[key] == EventRow(owner, e.kind, e.phase, e.payload)
  }

  /** The page holds the owner's first `bound` events behind `after`, in order: one
      that is not on it comes behind all that are, and the page is full. */
  ghost predicate IsPage(db: Tables, job: Uuid, owner: string, after: int, bound: nat, page: seq<Event>) {
    && |page| <= bound
    && (forall i :: 0 <= i < |page| ==> EventSeen(db, job, owner, after, page[i]))
    && (forall i, j :: 0 <= i < j < |page| ==> page[i].seqNo < page[j].seqNo)
    && (forall q :: q in VisibleAfter(db, job, owner, after) ==>
          OnPage(page, q) || (|page| == bound && Behind(page, q)))
  }

  ghost predicate OnPage(page: seq<Event>, q: int) {
    exists i :: 0 <= i < |page| && page[i].seqNo == q
  }

  ghost predicate Behind(page: seq<Event>, q: int) {
    forall i :: 0 <= i < |page| ==> page[i].seqNo < q
  }

  lemma PageFrom(db: Tables, job: Uuid, owner: string, after: int, bound: nat, e: Event, rest: seq<Event>)
    requires EventSeen(db, job, owner, after, e) && IsPage(db, job, owner, e.seqNo, bound, rest)
    requires forall q :: q in VisibleAfter(db, job, owner, after) ==> e.seqNo <= q
    ensures IsPage(db, job, owner, after, bound + 1, [e] + rest)
  {
    var page := [e] + rest;
    assert page[0] == e && forall i :: 0 <= i < |rest| ==> page[i + 1] == rest[i];
    assert forall i :: 0 < i < |page| ==> page[i] == rest[i - 1];
    forall q | q in VisibleAfter(db, job, owner, after)
      ensures OnPage(page, q) || (|page| == bound + 1 && Behind(page, q))
    {
      if q != e.seqNo {
        assert q in VisibleAfter(db, job, owner, e.seqNo);
        if OnPage(rest, q) {
          var i :| 0 <= i < |rest| && rest[i].seqNo == q;
          assert page[i + 1].seqNo == q;
        }
      }
    }
  }

  /** The rows read one after the other make up that page. */
  lemma {:induction false} RowsArePage(db: Tables, job: Uuid, owner: string, after: int, bound: nat)
    ensures IsPage(db, job, owner, after, bound, FirstRows(db, job, owner, after, bound))
    decreases bound
  {
    hide IsPage, EventSeen;
    var candidates := VisibleAfter(db, job, owner, after);
    if bound > 0 && candidates != {} {
      var q := Min(candidates);
      var row := db.events[EventKey(job, q)];
      var e := Event(job, q, row.kind, row.phase, row.payload);
      SeenIfVisible(db, job, owner, after, q);
      RowsArePage(db, job, owner, q, bound - 1);
      PageFrom(db, job, owner, after, bound - 1, e, FirstRows(db, job, owner, q, bound - 1));
    } else {
      EmptyPage(db, job, owner, after, bound);
    }
  }

  lemma SeenIfVisible(db: Tables, job: Uuid, owner: string, after: int, q: int)
    requires q in VisibleAfter(db, job, owner, after)
    ensures var row := db.events[EventKey(job, q)];
      EventSeen(db, job, owner, after, Event(job, q, row.kind, row.phase, row.payload))
  {
  }

  lemma EmptyPage(db: Tables, job: Uuid, owner: string, after: int, bound: nat)
    requires bound == 0 || VisibleAfter(db, job, owner, after) == {}
    ensures IsPage(db, job, owner, after, bound, [])
  {
  }

  function BoundedLimit(limit: int): nat {
    if limit < 1 then 1 else if limit > 2000 then 2000 else limit
  }

  function Page(db: Tables, job: Uuid, owner: string, after: int, limit: int): seq<Event> {
    FirstRows(db, job, owner, after, BoundedLimit(limit))
  }

  // --------------------------------------------------------------- migration

  /** The backfill of `init_tables`: rows that still have the column default get
      the greatest sequence number of their events. */
  function Backfilled(db: Tables): Tables {
    db.(jobs := map id | id in db.jobs :: BackfilledRow(db.events, id, db.jobs[id]))
  }

  function BackfilledRow(events: map<EventKey, EventRow>, id: Uuid, job: Job): Job {
    if job.eventCursor == -1 then job.(eventCursor := NextEventSeq(events, id, job.id.owner) - 1) else job
  }

  /** Event numbers 0..n of a job, all of them under its owner. */
  ghost predicate LogIs(db: Tables, id: Uuid, owner: string, n: int) {
    && (forall q :: EventKey(id, q) in db.events <==> 0 <= q <= n)
    && (forall q :: 0 <= q <= n ==> db.events[EventKey(id, q)].owner == owner)
  }

  lemma NextIsAfterLog(db: Tables, id: Uuid, owner: string, n: int)
    requires n >= -1 && LogIs(db, id, owner, n)
    ensures forall q :: q in SeqNos(db.events, id, owner) <==> 0 <= q <= n
    ensures NextEventSeq(db.events, id, owner) == n + 1
  {
    var s := SeqNos(db.events, id, owner);
    forall q ensures q in s <==> 0 <= q <= n {
      if 0 <= q <= n { assert EventKey(id, q) in db.events; }
    }
    if n >= 0 { assert n in s; assert Max(s) == n; }
  }

  /** After the backfill every cursor is the last event of its gap-free log, and
      running the backfill again changes nothing. */
  lemma BackfillRestoresCursors(db: Tables, last: map<Uuid, int>)
    requires last.Keys == db.jobs.Keys
    requires forall id :: id in db.jobs ==> last[id] >= -1 && LogIs(db, id, db.jobs[id].id.owner, last[id])
    requires forall id :: id in db.jobs ==> db.jobs[id].eventCursor == -1 || db.jobs[id].eventCursor == last[id]
    ensures forall id :: id in db.jobs ==> Backfilled(db).jobs[id] == db.jobs[id].(eventCursor := last[id])
    ensures Backfilled(Backfilled(db)) == Backfilled(db)
  {
    var b := Backfilled(db);
    forall id | id in db.jobs
      ensures b.jobs[id] == db.jobs[id].(eventCursor := last[id])
      ensures BackfilledRow(b.events, id, b.jobs[id]) == b.jobs[id]
    {
      NextIsAfterLog(db, id, db.jobs[id].id.owner, last[id]);
    }
    assert Backfilled(b).jobs == b.jobs;
  }

  // ------------------------------------------------------------------- store

  /** The store object. `db` is the committed state; a method works on its own
      copy and assigns it back only when it commits. */
  class Store {
    var db: Tables

    constructor ()
      ensures db == EMPTY_TABLES
    {
      db := EMPTY_TABLES;
    }

    /** The UPDATE of `init_tables`, row by row: only rows with the column default
        change, and only in their cursor, which becomes the last number of the
        job's gap-free log, or stays -1 without one. */
    method InitTables()
      modifies this
      ensures db.events == old(db).events && db.idempotency == old(db).idempotency && db.jobs.Keys == old(db).jobs.Keys
      ensures forall id :: id in db.jobs && old(db).jobs[id].eventCursor != -1 ==> db.jobs[id] == old(db).jobs[id]
      ensures forall id, n ::
        id in db.jobs && old(db).jobs[id].eventCursor == -1 && n >= -1
          && LogIs(old(db), id, old(db).jobs[id].id.owner, n) ==>
        db.jobs[id] == old(db).jobs[id].(eventCursor := n)
      ensures db == Backfilled(old(db))
    {
      var tx := db;
      var todo := tx.jobs.Keys;
      while todo != {}
        invariant todo <= db.jobs.Keys && tx.jobs.Keys == db.jobs.Keys
        invariant tx.events == db.events && tx.idempotency == db.idempotency
        invariant forall id :: id in todo ==> tx.jobs[id] == db.jobs[id]
        invariant forall id :: id in tx.jobs && id !in todo ==> tx.jobs[id] == BackfilledRow(db.events, id, db.jobs[id])
        decreases |todo|
      {
        var id :| id in todo;
        var row := tx.jobs[id];
        if row.eventCursor == -1 {
          tx := tx.(jobs := tx.jobs[id := row.(eventCursor := NextEventSeq(tx.events, id, row.id.owner) - 1)]);
        }
        todo := todo - {id};
      }
      assert tx.jobs == Backfilled(db).jobs;
      forall id, n | id in db.jobs && db.jobs[id].eventCursor == -1 && n >= -1 && LogIs(db, id, db.jobs[id].id.owner, n)
        ensures tx.jobs[id] == db.jobs[id].(eventCursor := n)
      {
        NextIsAfterLog(db, id, db.jobs[id].id.owner, n);
      }
      db := tx;
    }

    method CreateJob(c: CreateRequest) returns (o: Outcome)
      modifies this
      ensures (db, o) == ExecCreate(old(db), c)
      ensures o.Raised? || o.Replayed? ==> db == old(db)
      ensures o.Created? ==>
        var job, owner := o.response.job, Strip(c.spec.owner);
        var id, key := job.id.jobId, IdemKey(owner, Strip(c.key));
        && JobOf(c.spec, job) && o.response.event == Event(id, 0, "job_created", PhaseQueued, NoPayload)
        && id !in old(db).jobs && db.jobs == old(db).jobs[id := job]
        && db.events == old(db).events[EventKey(id, 0) := EventRow(owner, "job_created", PhaseQueued, NoPayload)]
        && key !in old(db).idempotency
        && db.idempotency == old(db).idempotency[key :=
           Reservation(Strip(c.fingerprint), Some(id), Recorded(o.response))]
    {
      hide JobOf, IdentityOf, BudgetsOf, Acceptable, NormalOf, BudgetsSound;
      if ExecCreate(db, c).1.Created? { CreatedIs(db, c); }
      var normalized := ValidateJobSpec(c.spec);
      if normalized.Err? { return Raised(Contract); }
      var n := normalized.value;
      var key, fingerprint := Strip(c.key), Strip(c.fingerprint);
      if key == "" || fingerprint == "" { return Raised(Contract); }
      var ik := IdemKey(n.id.owner, key);

      var reserved := ik !in db.idempotency;
      if !reserved {
        var prior := db.idempotency[ik];
        if prior.fingerprint != fingerprint { return Raised(IdempotencyConflict); }
        if prior.response.Pending? { return Raised(ReservationIncomplete); }
        return Replayed(prior.response.response);
      }
      o := CreateReserved(n, ik, fingerprint);
    }

    /** The writes of `create_job`, reservation first; any failure drops them all. */
    method CreateReserved(n: NormalSpec, ik: IdemKey, fingerprint: string) returns (o: Outcome)
      modifies this
      ensures (db, o) == ExecReserved(old(db), n, ik, fingerprint)
      ensures o.Raised? ==> db == old(db)
      ensures !o.Replayed?
    {
      var tx := db.(idempotency := db.idempotency[ik := Reservation(fingerprint, None, Pending)]);

      var budgets := ValidateBudgets(Object(n.budgets));
      if budgets.Err? { return Raised(Contract); }
      var job := NewJob(n, budgets.value);
      if n.id.jobId in tx.jobs || !VersionOk(n) { return Raised(DatabaseError); }
      tx := tx.(jobs := tx.jobs[n.id.jobId := job]);

      var event := CreationEvent(n.id.jobId);
      if EventKey(event.job, event.seqNo) in tx.events { return Raised(DatabaseError); }
      tx := InsertEvent(tx, n.id.owner, event);

      var response := Response(job, event);
      tx := tx.(idempotency := tx.idempotency[ik :=
        tx.idempotency[ik].(job := Some(n.id.jobId), response := Recorded(response))]);
      assert tx.idempotency == db.idempotency[ik := Reservation(fingerprint, Some(n.id.jobId), Recorded(response))];
      db := tx;
      return Created(response);
    }

    method TransitionJob(t: TransitionRequest) returns (o: Outcome)
      modifies this
      ensures (db, o) == ExecTransition(old(db), t)
      ensures o.Raised? ==> db == old(db)
      ensures o.Transitioned? ==> t.jobId.uuid.Some?
      ensures o.Transitioned? ==>
        var id, job, owner := t.jobId.uuid.value, o.job, Strip(t.owner);
        var change := StateChange(t.status, job.stateVersion);
        && id in old(db).jobs && old(db).jobs[id].id.owner == owner && PatchedRow(old(db).jobs[id], t, job)
        && o.event == Event(id, job.eventCursor, Strip(t.eventKind), t.phase, change)
        && db.jobs == old(db).jobs[id := job] && db.idempotency == old(db).idempotency
        && EventKey(id, job.eventCursor) !in old(db).events
        && db.events ==
           old(db).events[EventKey(id, job.eventCursor) := EventRow(owner, Strip(t.eventKind), t.phase, change)]
    {
      hide PatchedRow, BudgetsOf, BudgetsSound;
      if ExecTransition(db, t).1.Transitioned? { TransitionedIs(db, t); }
      var jobId := RequireUuid(t.jobId);
      if jobId.Err? { return Raised(Contract); }
      var owner := RequireScope(t.owner);
      if owner.Err? { return Raised(Contract); }
      if t.expectedVersion.None? || t.expectedVersion.value < 0 { return Raised(Contract); }
      if t.status.UnknownStatus? || t.phase.UnknownPhase? { return Raised(Contract); }
      if t.patch.unknown != {} { return Raised(Contract); }
      var newBudgets: Option<Budgets> := None;
      if t.patch.budgets.Some? {
        var checked := ValidateBudgets(t.patch.budgets.value);
        if checked.Err? { return Raised(Contract); }
        newBudgets := Some(checked.value);
      }

      var id := jobId.value;
      if !RowVisible(db, id, owner.value) { return Raised(JobNotFound); }
      o := UpdateRow(t, id, owner.value, newBudgets);
    }

    /** The body of `transition_job` under the row lock. */
    method UpdateRow(t: TransitionRequest, id: Uuid, owner: string, newBudgets: Option<Budgets>) returns (o: Outcome)
      requires TransitionArgsOk(t) && RowVisible(db, id, owner)
      requires newBudgets == if t.patch.budgets.Some? then CheckedBudgets(t.patch.budgets.value) else None
      modifies this
      ensures (db, o) == ExecOnRow(old(db), t, id, old(db).jobs[id])
      ensures o.Raised? ==> db == old(db)
      ensures o.Transitioned? ==> PatchedRow(old(db).jobs[id], t, o.job) && db.jobs == old(db).jobs[id := o.job]
    {
      hide BudgetsOf;
      if t.patch.budgets.Some? { CheckedBudgetsIff(t.patch.budgets.value); }
      var tx := db;
      var current := tx.jobs[id];
      if current.stateVersion != t.expectedVersion.value { return Raised(VersionConflict); }
      if !ValidTransition(current.status, t.status) { return Raised(Contract); }

      var snapshot := current.(fields := current.fields + t.patch.values);
      if newBudgets.Some? { snapshot := snapshot.(budgets := newBudgets.value); }
      snapshot := snapshot.(status := t.status, phase := t.phase, stateVersion := t.expectedVersion.value + 1);
      var nextSeq := NextEventSeq(tx.events, id, owner);
      snapshot := snapshot.(eventCursor := nextSeq);
      if !InBigint(snapshot.stateVersion) || !InBigint(nextSeq) { return Raised(DatabaseError); }
      tx := tx.(jobs := tx.jobs[id := snapshot]);

      // The event is built after the UPDATE; an unusable one loses the update too.
      if nextSeq < 0 || Strip(t.eventKind) == "" { return Raised(Contract); }
      var event := Event(id, nextSeq, Strip(t.eventKind), t.phase, StateChange(t.status, snapshot.stateVersion));
      if EventKey(id, nextSeq) in tx.events { return Raised(DatabaseError); }
      tx := InsertEvent(tx, owner, event);
      db := tx;
      return Transitioned(snapshot, event);
    }

    method GetJob(jobId: RawId, owner: string) returns (r: Result<Option<Job>, StoreError>)
      ensures r.Ok? <==> !Blank(jobId.text) && jobId.uuid.Some? && !Blank(owner)
      ensures r.Ok? ==>
        (r.value.Some? <==> jobId.uuid.value in db.jobs && db.jobs[jobId.uuid.value].id.owner == Strip(owner))
      ensures r.Ok? && r.value.Some? ==> r.value.value == db.jobs[jobId.uuid.value]
      ensures r.Ok? && r.value.Some? && Trimmed(owner) ==> r.value.value.id.owner == owner
      ensures r.Err? ==> r.error == Contract
    {
      var id := RequireUuid(jobId);
      if id.Err? { return Err(Contract); }
      var scope := RequireScope(owner);
      if scope.Err? { return Err(Contract); }
      return Ok(if RowVisible(db, id.value, scope.value) then Some(db.jobs[id.value]) else None);
    }

    method ListEvents(jobId: RawId, owner: string, after: int, limit: int) returns (r: Result<seq<Event>, StoreError>)
      ensures r.Ok? <==> !Blank(jobId.text) && jobId.uuid.Some? && !Blank(owner)
      ensures r.Ok? ==> r.value == Page(db, jobId.uuid.value, Strip(owner), after, limit)
      ensures r.Ok? ==>
        var bound := if limit < 1 then 1 else if limit > 2000 then 2000 else limit;
        IsPage(db, jobId.uuid.value, Strip(owner), after, bound, r.value)
      ensures r.Err? ==> r.error == Contract
    {
      hide IsPage, FirstRows, Strip;
      var id := RequireUuid(jobId);
      if id.Err? { return Err(Contract); }
      var scope := RequireScope(owner);
      if scope.Err? { return Err(Contract); }
      RowsArePage(db, id.value, scope.value, after, BoundedLimit(limit));
      return Ok(FirstRows(db, id.value, scope.value, after, BoundedLimit(limit)));
    }
  }
}
