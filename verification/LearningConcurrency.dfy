/** Transactions of the learning store run side by side. A transaction reads the
    committed tables, keeps its own writes to itself until it commits, and waits
    for a reservation, a job insert or a row that another one has open. */
module LearningConcurrency {
  import opened PyText
  import opened LearningContract
  import opened LearningStore
  import opened LearningRuns

  type TxId = nat

  /** Where a transaction stands. From `Reserved` on it holds the uncommitted
      reservation of its key, from `JobInserted` on also its job id, and from
      `RowLocked` on the lock of its row. */
  datatype Tx =
    | BeforeReserve(c: CreateRequest)
    | KeyTaken(c: CreateRequest)
    | Reserved(c: CreateRequest)
    | JobInserted(c: CreateRequest, job: Job)
    | CreationLogged(c: CreateRequest, job: Job)
    | ResponseStored(c: CreateRequest, job: Job)
    | BeforeLock(t: TransitionRequest)
    | RowLocked(t: TransitionRequest, row: Job)
    | Checked(t: TransitionRequest, row: Job)
    | Numbered(t: TransitionRequest, job: Job)
    | RowUpdated(t: TransitionRequest, job: Job)
    | ChangeLogged(t: TransitionRequest, job: Job)

  /** A finished call: what was asked and what the caller got. */
  datatype Entry = Entry(request: Request, outcome: Outcome)

  datatype System = System(db: Tables, txs: map<TxId, Tx>, history: seq<Entry>)

  const START := System(EMPTY_TABLES, map[], [])

  /** `Crash` stands for whatever makes the context manager roll back: a broken
      connection, a deadlock victim, a failed commit. */
  datatype Action = Begin(tx: TxId, request: Request) | Step(tx: TxId) | Crash(tx: TxId)

  // ------------------------------------------------------------------- locks

  predicate HoldsKey(x: Tx, ik: IdemKey) {
    (x.Reserved? || x.JobInserted? || x.CreationLogged? || x.ResponseStored?) && CreateArgsOk(x.c) && KeyOf(x.c) == ik
  }

  predicate HoldsJobId(x: Tx, id: Uuid) {
    (x.JobInserted? || x.CreationLogged? || x.ResponseStored?) && x.job.id.jobId == id
  }

  predicate HoldsRow(x: Tx, id: Uuid) {
    (x.RowLocked? || x.Checked? || x.Numbered? || x.RowUpdated? || x.ChangeLogged?)
    && TransitionArgsOk(x.t) && x.t.jobId.uuid.value == id
  }

  ghost predicate KeyBusy(s: System, me: TxId, ik: IdemKey) {
    exists x :: x in s.txs && x != me && HoldsKey(s.txs[x], ik)
  }

  ghost predicate JobIdBusy(s: System, me: TxId, id: Uuid) {
    exists x :: x in s.txs && x != me && HoldsJobId(s.txs[x], id)
  }

  ghost predicate RowBusy(s: System, me: TxId, id: Uuid) {
    exists x :: x in s.txs && x != me && HoldsRow(s.txs[x], id)
  }

  // ------------------------------------------------------------------- steps

  function Goto(s: System, me: TxId, x: Tx): System {
    s.(txs := s.txs[me := x])
  }

  /** The transaction ends with this outcome; `db` is what is committed now. */
  function Finish(s: System, me: TxId, db: Tables, request: Request, o: Outcome): System {
    System(db, s.txs - {me}, s.history + [Entry(request, o)])
  }

  function Fail(s: System, me: TxId, request: Request, e: StoreError): System {
    Finish(s, me, s.db, request, Raised(e))
  }

  predicate Creating(x: Tx) {
    x.BeforeReserve? || x.KeyTaken? || x.Reserved? || x.JobInserted? || x.CreationLogged? || x.ResponseStored?
  }

  predicate ArgsOk(x: Tx) {
    if Creating(x) then CreateArgsOk(x.c) else TransitionArgsOk(x.t)
  }

  // create_job, one statement at a time.

  ghost function ReserveStep(s: System, me: TxId, c: CreateRequest): System
    requires CreateArgsOk(c)
  {
    if KeyBusy(s, me, KeyOf(c)) then s
    else if KeyOf(c) in s.db.idempotency then Goto(s, me, KeyTaken(c))
    else Goto(s, me, Reserved(c))
  }

  ghost function ReplayStep(s: System, me: TxId, c: CreateRequest): System
    requires CreateArgsOk(c)
  {
    if KeyOf(c) !in s.db.idempotency then Fail(s, me, Create(c), ReservationIncomplete)
    else Finish(s, me, s.db, Create(c), Replay(s.db.idempotency[KeyOf(c)], Strip(c.fingerprint)))
  }

  ghost function InsertJobStep(s: System, me: TxId, c: CreateRequest): System
    requires CreateArgsOk(c)
  {
    var n := Normalized(c.spec);
    if BudgetsAgain(n).None? then Fail(s, me, Create(c), Contract)
    else if JobIdBusy(s, me, n.id.jobId) then s
    else if n.id.jobId in s.db.jobs || !VersionOk(n) then Fail(s, me, Create(c), DatabaseError)
    else Goto(s, me, JobInserted(c, NewJob(n, BudgetsAgain(n).value)))
  }

  ghost function LogCreationStep(s: System, me: TxId, c: CreateRequest, job: Job): System {
    if EventKey(job.id.jobId, 0) in s.db.events then Fail(s, me, Create(c), DatabaseError)
    else Goto(s, me, CreationLogged(c, job))
  }

  ghost function CommitCreation(s: System, me: TxId, c: CreateRequest, job: Job): System
    requires CreateArgsOk(c)
  {
    Finish(s, me, CreationWrites(s.db, KeyOf(c), Strip(c.fingerprint), job), Create(c),
           Created(Response(job, CreationEvent(job.id.jobId))))
  }

  // transition_job, one statement at a time.

  ghost function LockStep(s: System, me: TxId, t: TransitionRequest, id: Uuid): System {
    if !RowVisible(s.db, id, Strip(t.owner)) then Fail(s, me, Transition(t), JobNotFound)
    else if RowBusy(s, me, id) then s
    else Goto(s, me, RowLocked(t, s.db.jobs[id]))
  }

  ghost function CheckStep(s: System, me: TxId, t: TransitionRequest, row: Job): System
    requires TransitionArgsOk(t)
  {
    if row.stateVersion != t.expectedVersion.value then Fail(s, me, Transition(t), VersionConflict)
    else if !ValidTransition(row.status, t.status) then Fail(s, me, Transition(t), Contract)
    else Goto(s, me, Checked(t, row))
  }

  ghost function NumberStep(s: System, me: TxId, t: TransitionRequest, id: Uuid, row: Job): System
    requires TransitionArgsOk(t)
  {
    Goto(s, me, Numbered(t, TransitionedJob(row, t, NextEventSeq(s.db.events, id, row.id.owner))))
  }

  ghost function UpdateStep(s: System, me: TxId, t: TransitionRequest, job: Job): System {
    if !InBigint(job.stateVersion) || !InBigint(job.eventCursor) then Fail(s, me, Transition(t), DatabaseError)
    else Goto(s, me, RowUpdated(t, job))
  }

  ghost function LogChangeStep(s: System, me: TxId, t: TransitionRequest, id: Uuid, job: Job): System {
    if job.eventCursor < 0 || Blank(t.eventKind) then Fail(s, me, Transition(t), Contract)
    else if EventKey(id, job.eventCursor) in s.db.events then Fail(s, me, Transition(t), DatabaseError)
    else Goto(s, me, ChangeLogged(t, job))
  }

  ghost function CommitTransition(s: System, me: TxId, t: TransitionRequest, id: Uuid, job: Job): System {
    Finish(s, me, TransitionWrites(s.db, id, job, t), Transition(t), Transitioned(job, TransitionEvent(id, job, t)))
  }

  ghost function TxStep(s: System, me: TxId, x: Tx): System
    requires ArgsOk(x)
  {
    match x
    case BeforeReserve(c) => ReserveStep(s, me, c)
    case KeyTaken(c) => ReplayStep(s, me, c)
    case Reserved(c) => InsertJobStep(s, me, c)
    case JobInserted(c, job) => LogCreationStep(s, me, c, job)
    case CreationLogged(c, job) => Goto(s, me, ResponseStored(c, job))
    case ResponseStored(c, job) => CommitCreation(s, me, c, job)
    case BeforeLock(t) => LockStep(s, me, t, t.jobId.uuid.value)
    case RowLocked(t, row) => CheckStep(s, me, t, row)
    case Checked(t, row) => NumberStep(s, me, t, t.jobId.uuid.value, row)
    case Numbered(t, job) => UpdateStep(s, me, t, job)
    case RowUpdated(t, job) => LogChangeStep(s, me, t, t.jobId.uuid.value, job)
    case ChangeLogged(t, job) => CommitTransition(s, me, t, t.jobId.uuid.value, job)
  }

  /** One action of one caller. Calls with unusable arguments end before they
      open a connection; an id already in use starts nothing. */
  ghost function Next(s: System, a: Action): System {
    match a
    case Begin(me, r) =>
      if me in s.txs then s
      else (match r
        case Create(c) => if CreateArgsOk(c) then Goto(s, me, BeforeReserve(c)) else Fail(s, me, r, Contract)
        case Transition(t) => if TransitionArgsOk(t) then Goto(s, me, BeforeLock(t)) else Fail(s, me, r, Contract))
    case Step(me) =>
      if me !in s.txs || !ArgsOk(s.txs[me]) then s
      else TxStep(s, me, s.txs[me])
    case Crash(me) => s.(txs := s.txs - {me})
  }

  ghost function Interleaved(actions: seq<Action>): System {
    if actions == [] then START else Next(Interleaved(actions[..|actions| - 1]), actions[|actions| - 1])
  }

  // --------------------------------------------------------------- invariant

  function Requests(history: seq<Entry>): seq<Request> {
    seq(|history|, i requires 0 <= i < |history| => history[i].request)
  }

  /** The committed tables are those of the finished calls run one after the
      other, and each call got what it would have got there. */
  ghost predicate Serial(s: System) {
    && After(Requests(s.history)) == s.db
    && forall i :: 0 <= i < |s.history| ==> OutcomeAt(Requests(s.history), i) == s.history[i].outcome
  }

  /** What a creation under way knows: its key is still free, and the checks it
      has passed would still pass. */
  ghost predicate CreationHolds(db: Tables, x: Tx)
    requires Creating(x)
  {
    && CreateArgsOk(x.c)
    && var n := Normalized(x.c.spec);
    && (x.KeyTaken? ==> KeyOf(x.c) in db.idempotency)
    && (!x.BeforeReserve? && !x.KeyTaken? ==> KeyOf(x.c) !in db.idempotency)
    && (x.JobInserted? || x.CreationLogged? || x.ResponseStored? ==>
          && BudgetsAgain(n).Some? && x.job == NewJob(n, BudgetsAgain(n).value)
          && n.id.jobId !in db.jobs && VersionOk(n))
  }

  /** What a transition under way knows: its row is still the committed one. */
  ghost predicate TransitionHolds(db: Tables, x: Tx)
    requires !Creating(x)
  {
    && TransitionArgsOk(x.t)
    && var id := x.t.jobId.uuid.value;
    && (!x.BeforeLock? ==> RowVisible(db, id, Strip(x.t.owner)))
    && (x.RowLocked? || x.Checked? ==> x.row == db.jobs[id])
    && (!x.BeforeLock? && !x.RowLocked? ==>
          db.jobs[id].stateVersion == x.t.expectedVersion.value && ValidTransition(db.jobs[id].status, x.t.status))
    && (x.Numbered? || x.RowUpdated? || x.ChangeLogged? ==>
          x.job == TransitionedJob(db.jobs[id], x.t, db.jobs[id].eventCursor + 1))
    && (x.RowUpdated? || x.ChangeLogged? ==> InBigint(x.job.stateVersion) && InBigint(x.job.eventCursor))
    && (x.ChangeLogged? ==> !Blank(x.t.eventKind))
  }

  ghost predicate TxHolds(db: Tables, x: Tx) {
    if Creating(x) then CreationHolds(db, x) else TransitionHolds(db, x)
  }

  ghost predicate AllHold(s: System) {
    forall x :: x in s.txs ==> TxHolds(s.db, s.txs[x])
  }

  ghost predicate Exclusive(s: System) {
    && (forall x, y, ik :: x in s.txs && y in s.txs && HoldsKey(s.txs[x], ik) && HoldsKey(s.txs[y], ik) ==> x == y)
    && (forall x, y, id :: x in s.txs && y in s.txs && HoldsJobId(s.txs[x], id) && HoldsJobId(s.txs[y], id) ==> x == y)
    && (forall x, y, id :: x in s.txs && y in s.txs && HoldsRow(s.txs[x], id) && HoldsRow(s.txs[y], id) ==> x == y)
  }

  ghost predicate SysInv(s: System) {
    Inv(s.db) && Serial(s) && AllHold(s) && Exclusive(s)
  }

  // ------------------------------------------------------------------- proof

  /** A finished call is serial if it leaves what it would leave alone. */
  lemma FinishIsSerial(s: System, me: TxId, db: Tables, r: Request, o: Outcome)
    requires Serial(s) && Exec(s.db, r) == (db, o)
    ensures Serial(Finish(s, me, db, r, o))
  {
    hide Exec, After;
    var before, after := Requests(s.history), Requests(s.history + [Entry(r, o)]);
    assert after[..|before|] == before && after[..|before| + 1] == after;
    AfterOne(after, |before|);
    forall i | 0 <= i < |after|
      ensures OutcomeAt(after, i) == (s.history + [Entry(r, o)])[i].outcome
    {
      if i < |before| {
        assert after[..i] == before[..i];
        assert OutcomeAt(before, i) == s.history[i].outcome;
      }
    }
  }

  lemma GotoKeepsExclusive(s: System, me: TxId, x: Tx)
    requires Exclusive(s)
    requires forall ik :: HoldsKey(x, ik) ==> !KeyBusy(s, me, ik)
    requires forall id :: HoldsJobId(x, id) ==> !JobIdBusy(s, me, id)
    requires forall id :: HoldsRow(x, id) ==> !RowBusy(s, me, id)
    ensures Exclusive(Goto(s, me, x))
  {
  }

  lemma GotoKeepsInv(s: System, me: TxId, x: Tx)
    requires SysInv(s) && TxHolds(s.db, x) && Exclusive(Goto(s, me, x))
    ensures SysInv(Goto(s, me, x))
  {
  }

  /** Ending without a commit, with the outcome a serial call would have. */
  lemma FailKeepsInv(s: System, me: TxId, r: Request, o: Outcome)
    requires SysInv(s) && Exec(s.db, r) == (s.db, o)
    ensures SysInv(Finish(s, me, s.db, r, o))
  {
    FinishIsSerial(s, me, s.db, r, o);
  }

  // A transaction that holds nothing of another one's key, job or row does not
  // notice its commit.

  lemma CreationUnnoticedByCreation(db: Tables, ik: IdemKey, fingerprint: string, job: Job, x: Tx)
    requires Creating(x) && CreationHolds(db, x) && !HoldsKey(x, ik) && !HoldsJobId(x, job.id.jobId)
    ensures CreationHolds(CreationWrites(db, ik, fingerprint, job), x)
  {
  }

  lemma CreationUnnoticedByTransition(db: Tables, ik: IdemKey, fingerprint: string, job: Job, x: Tx)
    requires !Creating(x) && TransitionHolds(db, x) && job.id.jobId !in db.jobs
    ensures TransitionHolds(CreationWrites(db, ik, fingerprint, job), x)
  {
  }

  lemma TransitionUnnoticedByCreation(db: Tables, id: Uuid, job: Job, t: TransitionRequest, x: Tx)
    requires Creating(x) && CreationHolds(db, x) && id in db.jobs
    ensures CreationHolds(TransitionWrites(db, id, job, t), x)
  {
    var next := TransitionWrites(db, id, job, t);
    assert next.idempotency == db.idempotency && next.jobs.Keys == db.jobs.Keys;
  }

  lemma TransitionUnnoticedByTransition(db: Tables, id: Uuid, job: Job, t: TransitionRequest, x: Tx)
    requires !Creating(x) && TransitionHolds(db, x) && id in db.jobs && !HoldsRow(x, id)
    ensures TransitionHolds(TransitionWrites(db, id, job, t), x)
  {
    var next := TransitionWrites(db, id, job, t);
    assert forall j :: j in db.jobs && j != id ==> j in next.jobs && next.jobs[j] == db.jobs[j];
  }

  lemma OthersMissCreation(s: System, me: TxId, next: Tables)
    requires AllHold(s) && Exclusive(s) && me in s.txs && s.txs[me].ResponseStored? && CreateArgsOk(s.txs[me].c)
    requires s.txs[me].job.id.jobId !in s.db.jobs
    requires next == CreationWrites(s.db, KeyOf(s.txs[me].c), Strip(s.txs[me].c.fingerprint), s.txs[me].job)
    ensures forall y :: y in s.txs && y != me ==> TxHolds(next, s.txs[y])
  {
    var m := s.txs[me];
    assert HoldsKey(m, KeyOf(m.c)) && HoldsJobId(m, m.job.id.jobId);
    forall y | y in s.txs && y != me ensures TxHolds(next, s.txs[y]) {
      var x := s.txs[y];
      assert TxHolds(s.db, x);
      if Creating(x) {
        assert !HoldsKey(x, KeyOf(m.c)) && !HoldsJobId(x, m.job.id.jobId);
        CreationUnnoticedByCreation(s.db, KeyOf(m.c), Strip(m.c.fingerprint), m.job, x);
      } else {
        CreationUnnoticedByTransition(s.db, KeyOf(m.c), Strip(m.c.fingerprint), m.job, x);
      }
    }
  }

  lemma OthersMissTransition(s: System, me: TxId, id: Uuid, next: Tables)
    requires AllHold(s) && Exclusive(s) && me in s.txs && s.txs[me].ChangeLogged? && TransitionArgsOk(s.txs[me].t)
    requires id == s.txs[me].t.jobId.uuid.value && id in s.db.jobs
    requires next == TransitionWrites(s.db, id, s.txs[me].job, s.txs[me].t)
    ensures forall y :: y in s.txs && y != me ==> TxHolds(next, s.txs[y])
  {
    var m := s.txs[me];
    assert HoldsRow(m, id);
    forall y | y in s.txs && y != me ensures TxHolds(next, s.txs[y]) {
      var x := s.txs[y];
      assert TxHolds(s.db, x);
      if Creating(x) {
        TransitionUnnoticedByCreation(s.db, id, m.job, m.t, x);
      } else {
        assert !HoldsRow(x, id);
        TransitionUnnoticedByTransition(s.db, id, m.job, m.t, x);
      }
    }
  }

  /** A commit that is serial, keeps the tables in order and goes unnoticed. */
  lemma CommitKeepsInv(s: System, me: TxId, db: Tables, r: Request, o: Outcome)
    requires SysInv(s) && Inv(db) && Exec(s.db, r) == (db, o)
    requires forall y :: y in s.txs && y != me ==> TxHolds(db, s.txs[y])
    ensures SysInv(Finish(s, me, db, r, o))
  {
    FinishIsSerial(s, me, db, r, o);
  }

  lemma MoveKeepsInv(s: System, me: TxId, x: Tx)
    requires SysInv(s) && TxHolds(s.db, x)
    requires forall ik :: HoldsKey(x, ik) ==> !KeyBusy(s, me, ik)
    requires forall id :: HoldsJobId(x, id) ==> !JobIdBusy(s, me, id)
    requires forall id :: HoldsRow(x, id) ==> !RowBusy(s, me, id)
    ensures SysInv(Goto(s, me, x))
  {
    GotoKeepsExclusive(s, me, x);
    GotoKeepsInv(s, me, x);
  }

  /** Locks already held are not busy. */
  lemma AdvanceKeepsInv(s: System, me: TxId, x: Tx)
    requires SysInv(s) && me in s.txs && TxHolds(s.db, x)
    requires forall ik :: HoldsKey(x, ik) ==> HoldsKey(s.txs[me], ik)
    requires forall id :: HoldsJobId(x, id) ==> HoldsJobId(s.txs[me], id) || !JobIdBusy(s, me, id)
    requires forall id :: HoldsRow(x, id) ==> HoldsRow(s.txs[me], id)
    ensures SysInv(Goto(s, me, x))
  {
    MoveKeepsInv(s, me, x);
  }

  /** Going on with the same key and job id. */
  lemma NextCreationPoint(s: System, me: TxId, x: Tx)
    requires SysInv(s) && me in s.txs && TxHolds(s.db, x)
    requires s.txs[me].JobInserted? || s.txs[me].CreationLogged?
    requires x.CreationLogged? || x.ResponseStored?
    requires x.c == s.txs[me].c && x.job == s.txs[me].job
    ensures SysInv(Goto(s, me, x))
  {
    hide SysInv, TxHolds, CreateArgsOk, SpecOk;
    AdvanceKeepsInv(s, me, x);
  }

  /** Going on under the same row lock. */
  lemma NextTransitionPoint(s: System, me: TxId, x: Tx)
    requires SysInv(s) && me in s.txs && TxHolds(s.db, x)
    requires !Creating(s.txs[me]) && !s.txs[me].BeforeLock? && !Creating(x) && !x.BeforeLock? && x.t == s.txs[me].t
    ensures SysInv(Goto(s, me, x))
  {
    hide SysInv, TxHolds, TransitionArgsOk;
    AdvanceKeepsInv(s, me, x);
  }

  lemma Holds(s: System, me: TxId)
    requires SysInv(s) && me in s.txs
    ensures TxHolds(s.db, s.txs[me])
  {
  }

  lemma TablesInOrder(s: System)
    requires SysInv(s)
    ensures Inv(s.db) && JobsInv(s.db) && EventsHaveJobs(s.db)
  {
  }

  lemma ReservationFree(db: Tables, c: CreateRequest, job: Job)
    requires EventsHaveJobs(db) && CreationHolds(db, ResponseStored(c, job))
    ensures job.id == Normalized(c.spec).id
    ensures job.id.jobId !in db.jobs && EventKey(job.id.jobId, 0) !in db.events
    ensures job.eventCursor == 0 && !job.status.UnknownStatus? && KeyOf(c).owner == job.id.owner
    ensures ExecCreate(db, c) ==
      (CreationWrites(db, KeyOf(c), Strip(c.fingerprint), job), Created(Response(job, CreationEvent(job.id.jobId))))
  {
    assert EventKey(job.id.jobId, 0) in db.events ==> EventKey(job.id.jobId, 0).job in db.jobs;
  }

  lemma CreationCommits(s: System, me: TxId, c: CreateRequest, job: Job)
    requires SysInv(s) && me in s.txs && s.txs[me] == ResponseStored(c, job)
    ensures CreateArgsOk(c) && SysInv(CommitCreation(s, me, c, job))
  {
    Holds(s, me);
    TablesInOrder(s);
    ReservationFree(s.db, c, job);
    var next := CreationWrites(s.db, KeyOf(c), Strip(c.fingerprint), job);
    CreationKeepsInv(s.db, KeyOf(c), Strip(c.fingerprint), job);
    OthersMissCreation(s, me, next);
    CommitKeepsInv(s, me, next, Create(c), Created(Response(job, CreationEvent(job.id.jobId))));
  }

  lemma TakeKeyKeepsInv(s: System, me: TxId, c: CreateRequest)
    requires SysInv(s) && me in s.txs && s.txs[me] == BeforeReserve(c) && CreateArgsOk(c)
    requires !KeyBusy(s, me, KeyOf(c)) && KeyOf(c) !in s.db.idempotency
    ensures SysInv(Goto(s, me, Reserved(c)))
  {
    hide SysInv, SpecOk, Normalized, KeyBusy, JobIdBusy, RowBusy;
    MoveKeepsInv(s, me, Reserved(c));
  }

  lemma FindKeyTakenKeepsInv(s: System, me: TxId, c: CreateRequest)
    requires SysInv(s) && me in s.txs && s.txs[me] == BeforeReserve(c) && CreateArgsOk(c)
    requires KeyOf(c) in s.db.idempotency
    ensures SysInv(Goto(s, me, KeyTaken(c)))
  {
    hide SysInv, SpecOk, Normalized, KeyBusy, JobIdBusy, RowBusy;
    MoveKeepsInv(s, me, KeyTaken(c));
  }

  lemma ReserveKeepsInv(s: System, me: TxId, c: CreateRequest)
    requires SysInv(s) && me in s.txs && s.txs[me] == BeforeReserve(c)
    ensures CreateArgsOk(c) && SysInv(ReserveStep(s, me, c))
  {
    Holds(s, me);
    hide SysInv, SpecOk, Normalized, KeyBusy, CreateArgsOk, JobsInv, EventsHaveJobs;
    if KeyBusy(s, me, KeyOf(c)) {
    } else if KeyOf(c) in s.db.idempotency {
      FindKeyTakenKeepsInv(s, me, c);
    } else {
      TakeKeyKeepsInv(s, me, c);
    }
  }

  lemma ReplayKeepsInv(s: System, me: TxId, c: CreateRequest)
    requires SysInv(s) && me in s.txs && s.txs[me] == KeyTaken(c)
    ensures CreateArgsOk(c) && SysInv(ReplayStep(s, me, c))
  {
    Holds(s, me);
    hide SysInv;
    FailKeepsInv(s, me, Create(c), Replay(s.db.idempotency[KeyOf(c)], Strip(c.fingerprint)));
  }

  lemma TakeJobIdKeepsInv(s: System, me: TxId, c: CreateRequest, job: Job)
    requires SysInv(s) && me in s.txs && s.txs[me] == Reserved(c)
    requires CreationHolds(s.db, JobInserted(c, job)) && !JobIdBusy(s, me, job.id.jobId)
    ensures SysInv(Goto(s, me, JobInserted(c, job)))
  {
    hide SysInv, CreationHolds, KeyBusy, JobIdBusy, RowBusy;
    AdvanceKeepsInv(s, me, JobInserted(c, job));
  }

  /** What a serial call would do at the job insert. */
  lemma InsertJobSerial(db: Tables, c: CreateRequest)
    requires CreationHolds(db, Reserved(c))
    ensures var n := Normalized(c.spec);
      if BudgetsAgain(n).None? then ExecCreate(db, c) == (db, Raised(Contract))
      else if n.id.jobId in db.jobs || !VersionOk(n) then ExecCreate(db, c) == (db, Raised(DatabaseError))
      else
        var job := NewJob(n, BudgetsAgain(n).value);
        job.id == n.id && CreationHolds(db, JobInserted(c, job))
  {
  }

  lemma InsertJobKeepsInv(s: System, me: TxId, c: CreateRequest)
    requires SysInv(s) && me in s.txs && s.txs[me] == Reserved(c)
    ensures CreateArgsOk(c) && SysInv(InsertJobStep(s, me, c))
  {
    Holds(s, me);
    hide SysInv, SpecOk, Normalized, NewJob, BudgetsAgain, ExecCreate, JobIdBusy, InBigint;
    InsertJobSerial(s.db, c);
    var n := Normalized(c.spec);
    if BudgetsAgain(n).None? {
      FailKeepsInv(s, me, Create(c), Raised(Contract));
    } else if JobIdBusy(s, me, n.id.jobId) {
    } else if n.id.jobId in s.db.jobs || !VersionOk(n) {
      FailKeepsInv(s, me, Create(c), Raised(DatabaseError));
    } else {
      TakeJobIdKeepsInv(s, me, c, NewJob(n, BudgetsAgain(n).value));
    }
  }

  lemma LogCreationSerial(s: System, me: TxId, c: CreateRequest, job: Job)
    requires SysInv(s) && me in s.txs && s.txs[me] == JobInserted(c, job)
    ensures EventKey(job.id.jobId, 0) !in s.db.events && CreationHolds(s.db, CreationLogged(c, job))
  {
    Holds(s, me);
    TablesInOrder(s);
    ReservationFree(s.db, c, job);
  }

  lemma LogCreationKeepsInv(s: System, me: TxId, c: CreateRequest, job: Job)
    requires SysInv(s) && me in s.txs && s.txs[me] == JobInserted(c, job)
    ensures SysInv(LogCreationStep(s, me, c, job))
  {
    hide SysInv, CreationHolds, CreateArgsOk, SpecOk;
    LogCreationSerial(s, me, c, job);
    NextCreationPoint(s, me, CreationLogged(c, job));
  }

  lemma StoreSerial(db: Tables, c: CreateRequest, job: Job)
    requires CreationHolds(db, CreationLogged(c, job))
    ensures CreationHolds(db, ResponseStored(c, job))
  {
  }

  lemma StoreResponseKeepsInv(s: System, me: TxId, c: CreateRequest, job: Job)
    requires SysInv(s) && me in s.txs && s.txs[me] == CreationLogged(c, job)
    ensures SysInv(Goto(s, me, ResponseStored(c, job)))
  {
    Holds(s, me);
    hide SysInv, CreationHolds, CreateArgsOk, SpecOk;
    StoreSerial(s.db, c, job);
    NextCreationPoint(s, me, ResponseStored(c, job));
  }

  /** A transition past its lock has the row a serial call would read now. */
  lemma RowIsCurrent(db: Tables, t: TransitionRequest, id: Uuid)
    requires JobsInv(db) && TransitionArgsOk(t) && id == t.jobId.uuid.value && RowVisible(db, id, Strip(t.owner))
    ensures db.jobs[id].eventCursor >= 0
    ensures NextEventSeq(db.events, id, db.jobs[id].id.owner) == db.jobs[id].eventCursor + 1
    ensures EventKey(id, db.jobs[id].eventCursor + 1) !in db.events
  {
    CursorIsNext(db, id);
    assert JobInv(db, id);
  }

  // What a serial call would do at each point of transition_job.

  lemma CheckSerial(s: System, me: TxId, t: TransitionRequest, row: Job)
    requires SysInv(s) && me in s.txs && s.txs[me] == RowLocked(t, row)
    ensures TransitionArgsOk(t)
    ensures
      if row.stateVersion != t.expectedVersion.value then ExecTransition(s.db, t) == (s.db, Raised(VersionConflict))
      else if !ValidTransition(row.status, t.status) then ExecTransition(s.db, t) == (s.db, Raised(Contract))
      else TransitionHolds(s.db, Checked(t, row))
  {
  }

  lemma NumberSerial(db: Tables, t: TransitionRequest, id: Uuid, row: Job)
    requires JobsInv(db) && TransitionHolds(db, Checked(t, row)) && id == t.jobId.uuid.value
    ensures TransitionHolds(db, Numbered(t, TransitionedJob(row, t, NextEventSeq(db.events, id, row.id.owner))))
  {
    RowIsCurrent(db, t, id);
  }

  lemma UpdateSerial(s: System, me: TxId, t: TransitionRequest, job: Job)
    requires SysInv(s) && me in s.txs && s.txs[me] == Numbered(t, job)
    ensures
      if !InBigint(job.stateVersion) || !InBigint(job.eventCursor) then
        ExecTransition(s.db, t) == (s.db, Raised(DatabaseError))
      else TransitionHolds(s.db, RowUpdated(t, job))
  {
    hide SysInv, Inv, JobsInv, EventsHaveJobs, AllHold, Serial, Exclusive, ValidTransition, Strip, Blank;
    Holds(s, me);
    TablesInOrder(s);
    RowIsCurrent(s.db, t, t.jobId.uuid.value);
  }

  lemma LogChangeSerial(s: System, me: TxId, t: TransitionRequest, id: Uuid, job: Job)
    requires SysInv(s) && me in s.txs && s.txs[me] == RowUpdated(t, job)
    requires TransitionArgsOk(t) && id == t.jobId.uuid.value
    ensures job.eventCursor >= 0 && EventKey(id, job.eventCursor) !in s.db.events
    ensures
      if Blank(t.eventKind) then ExecTransition(s.db, t) == (s.db, Raised(Contract))
      else TransitionHolds(s.db, ChangeLogged(t, job))
  {
    Holds(s, me);
    TablesInOrder(s);
    RowIsCurrent(s.db, t, id);
  }

  lemma CommitSerial(db: Tables, t: TransitionRequest, id: Uuid, job: Job)
    requires JobsInv(db) && TransitionHolds(db, ChangeLogged(t, job)) && id == t.jobId.uuid.value
    ensures Advances(db, id, job, t)
    ensures ExecTransition(db, t) == (TransitionWrites(db, id, job, t), Transitioned(job, TransitionEvent(id, job, t)))
  {
    RowIsCurrent(db, t, id);
  }

  lemma TransitionCommits(s: System, me: TxId, t: TransitionRequest, id: Uuid, job: Job)
    requires SysInv(s) && me in s.txs && s.txs[me] == ChangeLogged(t, job)
    requires TransitionArgsOk(t) && id == t.jobId.uuid.value
    ensures SysInv(CommitTransition(s, me, t, id, job))
  {
    Holds(s, me);
    TablesInOrder(s);
    CommitSerial(s.db, t, id, job);
    var next := TransitionWrites(s.db, id, job, t);
    TransitionKeepsInv(s.db, id, job, t);
    OthersMissTransition(s, me, id, next);
    hide SysInv, Inv, JobsInv, EventsHaveJobs, Advances, TransitionWrites, ExecTransition;
    CommitKeepsInv(s, me, next, Transition(t), Transitioned(job, TransitionEvent(id, job, t)));
  }

  lemma LockKeepsInv(s: System, me: TxId, t: TransitionRequest, id: Uuid)
    requires SysInv(s) && me in s.txs && s.txs[me] == BeforeLock(t)
    requires TransitionArgsOk(t) && id == t.jobId.uuid.value
    ensures SysInv(LockStep(s, me, t, id))
  {
    hide SysInv;
    if !RowVisible(s.db, id, Strip(t.owner)) {
      FailKeepsInv(s, me, Transition(t), Raised(JobNotFound));
    } else if !RowBusy(s, me, id) {
      MoveKeepsInv(s, me, RowLocked(t, s.db.jobs[id]));
    }
  }

  lemma CheckKeepsInv(s: System, me: TxId, t: TransitionRequest, row: Job)
    requires SysInv(s) && me in s.txs && s.txs[me] == RowLocked(t, row)
    ensures TransitionArgsOk(t) && SysInv(CheckStep(s, me, t, row))
  {
    hide SysInv, TransitionHolds, TransitionArgsOk, ExecTransition, InBigint, ValidTransition;
    CheckSerial(s, me, t, row);
    if row.stateVersion != t.expectedVersion.value {
      FailKeepsInv(s, me, Transition(t), Raised(VersionConflict));
    } else if !ValidTransition(row.status, t.status) {
      FailKeepsInv(s, me, Transition(t), Raised(Contract));
    } else {
      NextTransitionPoint(s, me, Checked(t, row));
    }
  }

  lemma NumberKeepsInv(s: System, me: TxId, t: TransitionRequest, id: Uuid, row: Job)
    requires SysInv(s) && me in s.txs && s.txs[me] == Checked(t, row)
    requires TransitionArgsOk(t) && id == t.jobId.uuid.value
    ensures SysInv(NumberStep(s, me, t, id, row))
  {
    hide SysInv, TransitionHolds, TransitionArgsOk, NextEventSeq, TransitionedJob, Inv, JobsInv, EventsHaveJobs;
    Holds(s, me);
    TablesInOrder(s);
    NumberSerial(s.db, t, id, row);
    NextTransitionPoint(s, me, Numbered(t, TransitionedJob(row, t, NextEventSeq(s.db.events, id, row.id.owner))));
  }

  lemma UpdateKeepsInv(s: System, me: TxId, t: TransitionRequest, job: Job)
    requires SysInv(s) && me in s.txs && s.txs[me] == Numbered(t, job)
    ensures SysInv(UpdateStep(s, me, t, job))
  {
    hide SysInv, TransitionHolds, TransitionArgsOk, ExecTransition, InBigint, ValidTransition;
    UpdateSerial(s, me, t, job);
    if !InBigint(job.stateVersion) || !InBigint(job.eventCursor) {
      FailKeepsInv(s, me, Transition(t), Raised(DatabaseError));
    } else {
      NextTransitionPoint(s, me, RowUpdated(t, job));
    }
  }

  lemma LogChangeKeepsInv(s: System, me: TxId, t: TransitionRequest, id: Uuid, job: Job)
    requires SysInv(s) && me in s.txs && s.txs[me] == RowUpdated(t, job)
    requires TransitionArgsOk(t) && id == t.jobId.uuid.value
    ensures SysInv(LogChangeStep(s, me, t, id, job))
  {
    hide SysInv, TransitionHolds, TransitionArgsOk, ExecTransition, InBigint, ValidTransition;
    LogChangeSerial(s, me, t, id, job);
    if Blank(t.eventKind) {
      FailKeepsInv(s, me, Transition(t), Raised(Contract));
    } else {
      NextTransitionPoint(s, me, ChangeLogged(t, job));
    }
  }

  lemma CreationStepKeepsInv(s: System, me: TxId)
    requires SysInv(s) && me in s.txs && ArgsOk(s.txs[me]) && Creating(s.txs[me])
    ensures SysInv(TxStep(s, me, s.txs[me]))
  {
    hide SysInv, CreateArgsOk, ReserveStep, ReplayStep, InsertJobStep, LogCreationStep, CommitCreation;
    match s.txs[me]
    case BeforeReserve(c) => ReserveKeepsInv(s, me, c);
    case KeyTaken(c) => ReplayKeepsInv(s, me, c);
    case Reserved(c) => InsertJobKeepsInv(s, me, c);
    case JobInserted(c, job) => LogCreationKeepsInv(s, me, c, job);
    case CreationLogged(c, job) => StoreResponseKeepsInv(s, me, c, job);
    case ResponseStored(c, job) => CreationCommits(s, me, c, job);
  }

  lemma TransitionStepKeepsInv(s: System, me: TxId)
    requires SysInv(s) && me in s.txs && ArgsOk(s.txs[me]) && !Creating(s.txs[me])
    ensures SysInv(TxStep(s, me, s.txs[me]))
  {
    hide SysInv, LockStep, CheckStep, NumberStep, UpdateStep, LogChangeStep, CommitTransition;
    match s.txs[me]
    case BeforeLock(t) => LockKeepsInv(s, me, t, t.jobId.uuid.value);
    case RowLocked(t, row) => CheckKeepsInv(s, me, t, row);
    case Checked(t, row) => NumberKeepsInv(s, me, t, t.jobId.uuid.value, row);
    case Numbered(t, job) => UpdateKeepsInv(s, me, t, job);
    case RowUpdated(t, job) => LogChangeKeepsInv(s, me, t, t.jobId.uuid.value, job);
    case ChangeLogged(t, job) => TransitionCommits(s, me, t, t.jobId.uuid.value, job);
  }

  lemma BeginKeepsInv(s: System, me: TxId, r: Request)
    requires SysInv(s) && me !in s.txs
    ensures SysInv(Next(s, Begin(me, r)))
  {
    match r
    case Create(c) =>
      if CreateArgsOk(c) { MoveKeepsInv(s, me, BeforeReserve(c)); }
      else { FailKeepsInv(s, me, r, Raised(Contract)); }
    case Transition(t) =>
      if TransitionArgsOk(t) { MoveKeepsInv(s, me, BeforeLock(t)); }
      else { FailKeepsInv(s, me, r, Raised(Contract)); }
  }

  lemma NextKeepsInv(s: System, a: Action)
    requires SysInv(s)
    ensures SysInv(Next(s, a))
  {
    match a
    case Begin(me, r) => if me !in s.txs { BeginKeepsInv(s, me, r); }
    case Step(me) => if me in s.txs && ArgsOk(s.txs[me]) {
        if Creating(s.txs[me]) { CreationStepKeepsInv(s, me); } else { TransitionStepKeepsInv(s, me); }
      }
    case Crash(me) =>
  }

  lemma {:induction false} AlwaysInv(actions: seq<Action>)
    ensures SysInv(Interleaved(actions))
  {
    if actions != [] {
      AlwaysInv(actions[..|actions| - 1]);
      NextKeepsInv(Interleaved(actions[..|actions| - 1]), actions[|actions| - 1]);
    }
  }

  /** Serialisability: whatever way the steps of creations and transitions
      interleave, block and crash, the committed tables are those of the finished
      calls run one at a time in the order they finished, and every caller got
      the outcome of that serial run. */
  lemma Serialisable(actions: seq<Action>)
    ensures var s := Interleaved(actions);
      && s.db == After(Requests(s.history))
      && forall i :: 0 <= i < |s.history| ==> s.history[i].outcome == OutcomeAt(Requests(s.history), i)
  {
    AlwaysInv(actions);
  }

  /** An action changes the committed tables only by finishing a call that
      created a job or moved one; errors and crashes leave them as they were. */
  lemma OnlySuccessCommits(s: System, a: Action)
    ensures var next := Next(s, a);
      next.db != s.db ==>
        && |next.history| == |s.history| + 1 && next.history[..|s.history|] == s.history
        && (next.history[|s.history|].outcome.Created? || next.history[|s.history|].outcome.Transitioned?)
  {
    hide CreationWrites, TransitionWrites, SpecOk, Normalized, CheckedBudgets, NextEventSeq, DefaultFields;
  }

  /** So everything proved of serial runs holds of committed tables under any
      interleaving. No two transitions win the same version of a job: */
  lemma ConcurrentVersionWinsOnce(actions: seq<Action>, i: nat, j: nat)
    requires var h := Interleaved(actions).history;
      && i < j < |h| && h[i].request.Transition? && h[j].request.Transition?
      && h[i].outcome.Transitioned? && h[j].outcome.Transitioned?
      && h[i].request.t.jobId.uuid == h[j].request.t.jobId.uuid
    ensures var h := Interleaved(actions).history;
      h[i].request.t.expectedVersion != h[j].request.t.expectedVersion
  {
    hide Interleaved, After;
    Serialisable(actions);
    VersionWinsOnce(Requests(Interleaved(actions).history), i, j);
  }

  /** each job's committed log has no gap and no repeat: */
  lemma ConcurrentLogIsGapFree(actions: seq<Action>, id: Uuid)
    ensures var db := Interleaved(actions).db;
      if id in db.jobs then db.jobs[id].eventCursor >= 0 && LogIs(db, id, db.jobs[id].id.owner, db.jobs[id].eventCursor)
      else forall q :: EventKey(id, q) !in db.events
  {
    hide Interleaved, After;
    Serialisable(actions);
    GapFreeLog(Requests(Interleaved(actions).history), id);
  }

  /** and of the valid calls with one key, one creates and the later ones replay it
      or are refused. */
  lemma ConcurrentCreatedOnce(actions: seq<Action>, i: nat, j: nat)
    requires var h := Interleaved(actions).history;
      && i < j < |h| && h[i].request.Create? && h[j].request.Create? && h[i].outcome.Created?
      && CreateArgsOk(h[i].request.c) && CreateArgsOk(h[j].request.c) && KeyOf(h[j].request.c) == KeyOf(h[i].request.c)
    ensures var h := Interleaved(actions).history;
      h[j].outcome ==
        if Strip(h[j].request.c.fingerprint) == Strip(h[i].request.c.fingerprint) then Replayed(h[i].outcome.response)
        else Raised(IdempotencyConflict)
  {
    hide Interleaved, After, CreateArgsOk, Strip;
    Serialisable(actions);
    CreatedOnce(Requests(Interleaved(actions).history), i, j);
  }

  // ------------------------------------------------------- the tables over time

  lemma HistoryStep(s: System, a: Action)
    ensures var n := Next(s, a); |s.history| <= |n.history| && n.history[..|s.history|] == s.history
  {
    hide CreationWrites, TransitionWrites, SpecOk, Normalized, CheckedBudgets, NextEventSeq, DefaultFields;
    hide KeyBusy, JobIdBusy, RowBusy, RowVisible, TransitionedJob, Strip, Blank, ValidTransition, Replay, NewJob;
  }

  lemma LastAction(actions: seq<Action>)
    requires actions != []
    ensures Interleaved(actions) == Next(Interleaved(actions[..|actions| - 1]), actions[|actions| - 1])
  {
    hide Next;
  }

  lemma {:induction false} HistoryGrows(actions: seq<Action>, i: nat, j: nat)
    requires i <= j <= |actions|
    ensures var early, late := Interleaved(actions[..i]).history, Interleaved(actions[..j]).history;
      |early| <= |late| && late[..|early|] == early
    decreases j - i
  {
    hide *;
    if i < j {
      HistoryGrows(actions, i, j - 1);
      assert actions[..j][..j - 1] == actions[..j - 1];
      LastAction(actions[..j]);
      HistoryStep(Interleaved(actions[..j - 1]), actions[j - 1]);
    }
  }

  /** The committed tables before the first action, after one, after two, and so on. */
  ghost function Committed(actions: seq<Action>): seq<Tables> {
    seq(|actions| + 1, (i: int) requires 0 <= i <= |actions| => Interleaved(actions[..i]).db)
  }

  /** The tables committed after `i` actions are those of a beginning of the serial run. */
  lemma CommittedIsSerial(actions: seq<Action>, i: nat, j: nat)
    requires i <= j <= |actions|
    ensures var rs, n := Requests(Interleaved(actions[..j]).history), |Interleaved(actions[..i]).history|;
      n <= |rs| && Interleaved(actions[..i]).db == After(rs[..n])
  {
    HistoryGrows(actions, i, j);
    Serialisable(actions[..i]);
    hide Interleaved, After;
    var early, late := Interleaved(actions[..i]).history, Interleaved(actions[..j]).history;
    assert Requests(late)[..|early|] == Requests(early);
  }

  /** Under any interleaving the committed tables only grow: */
  lemma CommittedGrow(actions: seq<Action>)
    ensures Growing(Committed(actions))
  {
    hide Interleaved, After, Extends, JobsInv;
    forall i | 0 <= i <= |actions| ensures JobsInv(Committed(actions)[i]) { CommittedInv(actions, i); }
    forall i, j | 0 <= i <= j <= |actions| ensures Extends(Committed(actions)[i], Committed(actions)[j]) {
      CommittedExtends(actions, i, j);
    }
  }

  lemma CommittedInv(actions: seq<Action>, i: nat)
    requires i <= |actions|
    ensures JobsInv(Interleaved(actions[..i]).db)
  {
    hide Interleaved, After;
    Serialisable(actions[..i]);
    AfterInv(Requests(Interleaved(actions[..i]).history));
  }

  lemma CommittedExtends(actions: seq<Action>, i: nat, j: nat)
    requires i <= j <= |actions|
    ensures Extends(Interleaved(actions[..i]).db, Interleaved(actions[..j]).db)
  {
    hide Interleaved, After, Extends;
    CommittedIsSerial(actions, i, j);
    CommittedIsSerial(actions, j, j);
    var rs := Requests(Interleaved(actions[..j]).history);
    RunExtends(rs, |Interleaved(actions[..i]).history|, |rs|);
    assert |rs| == |Interleaved(actions[..j]).history|;
  }

  /** and a job that is committed in a terminal status stays in it, its version
      never falling. */
  lemma ConcurrentTerminalForGood(actions: seq<Action>, i: nat, j: nat, id: Uuid)
    requires i <= j <= |actions| && id in Interleaved(actions[..i]).db.jobs
    ensures var was, now := Interleaved(actions[..i]).db, Interleaved(actions[..j]).db;
      && id in now.jobs && now.jobs[id].stateVersion >= was.jobs[id].stateVersion
      && (Terminal(was.jobs[id].status) ==> now.jobs[id].status == was.jobs[id].status)
  {
    hide Interleaved, After, Terminal;
    CommittedIsSerial(actions, i, j);
    CommittedIsSerial(actions, j, j);
    var rs := Requests(Interleaved(actions[..j]).history);
    TerminalForGood(rs, |Interleaved(actions[..i]).history|, |rs|, id);
    assert |rs| == |Interleaved(actions[..j]).history|;
  }
}
