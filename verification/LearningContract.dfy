/** agents/learning_contract.py: the status graph, the budget rules and the
    normalisation of a job creation spec. */
module LearningContract {
  import opened Wrappers
  import opened PyText

  // ---------------------------------------------------------------- statuses

  /** The eight listed statuses; any other text a caller sends is `UnknownStatus`. */
  datatype Status =
    | Queued | Running | Paused | RetryWait | Blocked
    | Failed | Cancelled | Completed
    | UnknownStatus(name: string)

  datatype Phase =
    | PhaseQueued | Preflight | Preparing | Training | Checkpointing
    | Evaluating | Exporting | AwaitingReview | Restoring | Done
    | UnknownPhase(name: string)

  predicate Terminal(s: Status) {
    s == Failed || s == Cancelled || s == Completed
  }

  function AllowedTargets(s: Status): set<Status>
    requires !s.UnknownStatus?
  {
    match s
    case Queued => {Running, Paused, Blocked, Cancelled}
    case Running => {Paused, RetryWait, Blocked, Failed, Cancelled, Completed}
    case Paused => {Queued, Running, Cancelled, Blocked}
    case RetryWait => {Queued, Running, Blocked, Failed, Cancelled}
    case Blocked => {Queued, Cancelled}
    case Failed => {}
    case Cancelled => {}
    case Completed => {}
  }

  /** What `validate_transition` lets through: known statuses, and either no
      change at all (in terminal statuses too) or an edge of the table. */
  predicate ValidTransition(current: Status, target: Status) {
    && !current.UnknownStatus?
    && !target.UnknownStatus?
    && (current == target || target in AllowedTargets(current))
  }

  /** A sequence of statuses each of which may follow the one before. */
  ghost predicate StatusPath(path: seq<Status>) {
    forall i :: 0 < i < |path| ==> ValidTransition(path[i - 1], path[i])
  }

  /** The statuses with no way out are exactly the terminal ones, and along any
      path a terminal status is kept for good. */
  lemma {:induction false} TerminalIsAbsorbing(path: seq<Status>, i: nat, j: nat)
    requires StatusPath(path) && i <= j < |path|
    ensures Terminal(path[i]) ==> path[j] == path[i]
    decreases j - i
  {
    if i < j {
      TerminalIsAbsorbing(path, i, j - 1);
      assert ValidTransition(path[j - 1], path[j]);
    }
  }

  /** A path from `Queued` that never runs stays among four statuses. */
  lemma {:induction false} WithoutRunning(path: seq<Status>, j: nat)
    requires StatusPath(path) && j < |path| && path[0] == Queued
    requires forall i :: 0 < i <= j ==> path[i] != Running
    ensures path[j] in {Queued, Paused, Blocked, Cancelled}
  {
    if j > 0 {
      WithoutRunning(path, j - 1);
      assert ValidTransition(path[j - 1], path[j]);
    }
  }

  /** A path from `Queued` to `Completed` or `Failed` has run on the way. */
  lemma RunningBeforeSettled(path: seq<Status>)
    requires StatusPath(path) && |path| > 0 && path[0] == Queued
    requires path[|path| - 1] == Completed || path[|path| - 1] == Failed
    ensures exists i :: 0 < i < |path| - 1 && path[i] == Running
  {
    if forall i :: 0 < i < |path| - 1 ==> path[i] != Running {
      WithoutRunning(path, |path| - 1);
    }
  }

  // ----------------------------------------------------------------- budgets

  /** A JSON scalar, with the IEEE values Python's `float` adds. `isIso` records
      whether `datetime.fromisoformat` accepts the text. */
  datatype Scalar =
    | Null | Bool(b: bool) | Int(i: int) | Float(r: real)
    | PosInf | NegInf | NaN
    | Text(s: string, isIso: bool)

  datatype BudgetField =
    | WindowTimezone | MaxWallClockSec | CheckpointTargetSec | MaxRetries | DeadlineAt
    | OtherBudget(name: string)

  type Budgets = map<BudgetField, Scalar>

  datatype BudgetsArg = NoBudgets | NotAnObject | Object(fields: Budgets)

  datatype ContractError =
    | FieldRequired | NotAUuid | UnsupportedKind | UnsupportedStatus | UnsupportedPhase
    | BudgetsNotAnObject | BadTimezone | NotPositive | NotANumber | BadRetries | BadDeadline

  /** The two durations, in the order the source visits them. */
  function SecondsField(k: nat): BudgetField {
    if k == 0 then MaxWallClockSec else CheckpointTargetSec
  }

  predicate IsSeconds(f: BudgetField) {
    f == MaxWallClockSec || f == CheckpointTargetSec
  }

  /** A positive finite number; a bool is not one, although Python's is an int. */
  predicate Positive(raw: Scalar) {
    (raw.Int? && raw.i > 0) || (raw.Float? && raw.r > 0.0)
  }

  /** `int(raw)` on an accepted number: a positive float loses its fraction. */
  function Truncate(raw: Scalar): Scalar {
    if raw.Float? then Int(raw.r.Floor) else raw
  }

  predicate TimezoneOk(b: Budgets) {
    WindowTimezone in b && b[WindowTimezone].Text? ==> !Blank(b[WindowTimezone].s)
  }

  predicate SecondsOk(b: Budgets, f: BudgetField) {
    f in b && b[f] != Null ==> Positive(b[f])
  }

  predicate RetriesOk(b: Budgets) {
    MaxRetries in b && b[MaxRetries] != Null ==> b[MaxRetries].Int? && b[MaxRetries].i >= 0
  }

  predicate DeadlineOk(b: Budgets) {
    DeadlineAt in b && b[DeadlineAt] != Null ==>
      b[DeadlineAt].Text? && !Blank(b[DeadlineAt].s) && b[DeadlineAt].isIso
  }

  predicate ValidBudgets(b: Budgets) {
    TimezoneOk(b) && SecondsOk(b, MaxWallClockSec) && SecondsOk(b, CheckpointTargetSec) && RetriesOk(b) && DeadlineOk(b)
  }

  function Truncated(b: Budgets): Budgets {
    map f | f in b :: if IsSeconds(f) then Truncate(b[f]) else b[f]
  }

  /** No member of the budgets is unusable: the time zone is not blank, durations are
      positive numbers and no bools, retries an integer from zero on, and the
      deadline a date. Absent and null members are usable, but for a blank text. */
  ghost predicate BudgetsSound(b: Budgets) {
    forall f :: f in b && b[f] != Null ==>
      match f
      case WindowTimezone => b[f].Text? ==> !Blank(b[f].s)
      case MaxWallClockSec => (b[f].Int? && 1 <= b[f].i) || (b[f].Float? && 0.0 < b[f].r)
      case CheckpointTargetSec => (b[f].Int? && 1 <= b[f].i) || (b[f].Float? && 0.0 < b[f].r)
      case MaxRetries => b[f].Int? && 0 <= b[f].i
      case DeadlineAt => b[f].Text? && !Blank(b[f].s) && b[f].isIso
      case OtherBudget(_) => true
  }

  /** `t` is `b` with the durations cut to whole seconds. */
  ghost predicate WholeSeconds(b: Budgets, t: Budgets) {
    && t.Keys == b.Keys
    && forall f :: f in b ==>
      if f in {MaxWallClockSec, CheckpointTargetSec} && b[f].Float? then
        t[f].Int? && t[f].i as real <= b[f].r < (t[f].i + 1) as real
      else t[f] == b[f]
  }

  ghost predicate BudgetsOf(arg: BudgetsArg, b: Budgets) {
    match arg
    case NoBudgets => b == map[]
    case NotAnObject => false
    case Object(fields) => BudgetsSound(fields) && WholeSeconds(fields, b)
  }

  /** The accepted and normalised budgets, or `None` when they are refused. */
  function CheckedBudgets(arg: BudgetsArg): Option<Budgets> {
    match arg
    case NoBudgets => Some(map[])
    case NotAnObject => None
    case Object(b) => if ValidBudgets(b) then Some(Truncated(b)) else None
  }

  /** Exactly the sound budgets are accepted, and only their durations change. */
  lemma CheckedBudgetsIff(arg: BudgetsArg)
    ensures CheckedBudgets(arg).Some? <==> arg.NoBudgets? || (arg.Object? && BudgetsSound(arg.fields))
    ensures CheckedBudgets(arg).Some? ==> BudgetsOf(arg, CheckedBudgets(arg).value)
  {
  }

  /** The loop of `validate_budgets` over the two durations. */
  method TruncateSeconds(fields: Budgets) returns (r: Result<Budgets, ContractError>)
    ensures r.Ok? <==> SecondsOk(fields, MaxWallClockSec) && SecondsOk(fields, CheckpointTargetSec)
    ensures r.Ok? ==> r.value == Truncated(fields)
    ensures r.Err? ==> r.error == NotPositive || r.error == NotANumber
  {
    var result := fields;
    for k := 0 to 2
      invariant k > 0 ==> SecondsOk(fields, MaxWallClockSec)
      invariant k > 1 ==> SecondsOk(fields, CheckpointTargetSec)
      invariant result.Keys == fields.Keys
      invariant forall f :: f in fields ==>
        result[f] == if (k > 0 && f == MaxWallClockSec) || (k > 1 && f == CheckpointTargetSec)
                     then Truncate(fields[f]) else fields[f]
    {
      var field := SecondsField(k);
      if field in result && result[field] != Null {
        var raw := result[field];
        if raw.Bool? || raw.Text? || raw.NegInf?
           || (raw.Int? && raw.i <= 0) || (raw.Float? && raw.r <= 0.0) {
          return Err(NotPositive);
        }
        if raw.PosInf? || raw.NaN? { return Err(NotANumber); }
        result := result[field := Truncate(raw)];
      }
    }
    return Ok(result);
  }

  /** `validate_budgets`: checks one field after the other and truncates the two
      durations in place. */
  method ValidateBudgets(arg: BudgetsArg) returns (r: Result<Budgets, ContractError>)
    ensures r.Ok? <==> CheckedBudgets(arg).Some?
    ensures r.Ok? ==> Some(r.value) == CheckedBudgets(arg)
    ensures arg.NotAnObject? <==> r == Err(BudgetsNotAnObject)
    ensures r.Ok? <==> arg.NoBudgets? || (arg.Object? && BudgetsSound(arg.fields))
    ensures r.Ok? ==> BudgetsOf(arg, r.value)
    ensures r.Err? ==> r.error in {BudgetsNotAnObject, BadTimezone, NotPositive, NotANumber, BadRetries, BadDeadline}
  {
    hide BudgetsSound, WholeSeconds, BudgetsOf;
    CheckedBudgetsIff(arg);
    if arg.NoBudgets? { return Ok(map[]); }
    if arg.NotAnObject? { return Err(BudgetsNotAnObject); }
    var result := arg.fields;
    if WindowTimezone in result && result[WindowTimezone].Text? && Strip(result[WindowTimezone].s) == "" {
      return Err(BadTimezone);
    }
    var seconds := TruncateSeconds(result);
    if seconds.Err? { return Err(seconds.error); }
    result := seconds.value;
    if MaxRetries in result && result[MaxRetries] != Null {
      if !result[MaxRetries].Int? || result[MaxRetries].i < 0 { return Err(BadRetries); }
    }
    if DeadlineAt in result && result[DeadlineAt] != Null {
      var deadline := result[DeadlineAt];
      if !deadline.Text? || Strip(deadline.s) == "" || !deadline.isIso { return Err(BadDeadline); }
    }
    return Ok(result);
  }

  /** A duration between zero and one second. */
  predicate SubSecond(b: Budgets) {
    exists f :: IsSeconds(f) && f in b && b[f].Float? && 0.0 < b[f].r < 1.0
  }

  /** Normalising budgets twice: the second pass accepts what the first produced,
      unchanged, exactly when no duration is below one second. `create_job` runs
      both passes, so it is the sub-second budgets it can never store. */
  lemma SecondPass(b: Budgets)
    requires ValidBudgets(b)
    ensures CheckedBudgets(Object(Truncated(b))).Some? <==> !SubSecond(b)
    ensures !SubSecond(b) ==> CheckedBudgets(Object(Truncated(b))) == Some(Truncated(b))
  {
    var t := Truncated(b);
    assert RetriesOk(t) && DeadlineOk(t) && TimezoneOk(t);
    forall f | IsSeconds(f)
      ensures SecondsOk(t, f) <==> !(f in b && b[f].Float? && b[f].r < 1.0)
    {
      assert SecondsOk(b, f);
    }
    assert IsSeconds(MaxWallClockSec) && IsSeconds(CheckpointTargetSec);
    assert Truncated(t) == t;
  }

  lemma HalfASecondIsRefusedTheSecondTime()
    ensures var b: Budgets := map[MaxWallClockSec := Float(0.5)];
            && CheckedBudgets(Object(b)) == Some(map[MaxWallClockSec := Int(0)])
            && CheckedBudgets(Object(map[MaxWallClockSec := Int(0)])) == None
  {
    var b: Budgets := map[MaxWallClockSec := Float(0.5)];
    assert Truncated(b) == map[MaxWallClockSec := Int(0)];
    assert !SecondsOk(map[MaxWallClockSec := Int(0)], MaxWallClockSec);
  }

  // ---------------------------------------------------------------- job specs

  type Uuid = string

  /** An identifier as sent: its text, and its canonical form if it is a UUID. */
  datatype RawId = RawId(text: string, uuid: Option<Uuid>)

  datatype OptionalField = ExperimentId | ParentId | SessionId

  datatype JobKind =
    | Sft | Preference | Rl | HarnessAdaptation | DatasetPrepare | Evaluation | Export
    | UnsupportedKindName(name: string)

  /** The snapshot fields a later patch may change, besides the budgets. */
  datatype MutableField =
    | WorkerId | Resource | Progress | Checkpoint | Retry | Freshness
    | BlockingReason | Provenance | EvaluationReport | Candidate

  datatype Json = JsonNull | Default(f: MutableField) | Value(text: string)

  type Fields = map<MutableField, Json>

  /** `state_version` as given; only an absent one gets the default. */
  datatype VersionField = NoVersion | NullVersion | Version(n: int)

  /** A creation spec. `None` stands for a key that is absent, null or empty. */
  datatype JobSpec = JobSpec(
    jobId: RawId, owner: string, workspace: string,
    optionalIds: map<OptionalField, Option<RawId>>,
    kind: JobKind, status: Option<Status>, phase: Option<Phase>,
    stateVersion: VersionField, budgets: BudgetsArg, fields: Fields)

  /** The columns of a job that nothing changes after its creation. */
  datatype JobIdentity = JobIdentity(
    jobId: Uuid, owner: string, workspace: string,
    optionalIds: map<OptionalField, Option<string>>, kind: JobKind)

  /** The normalised spec, as `create_job` goes on with it; a null version is None. */
  datatype NormalSpec = NormalSpec(
    id: JobIdentity, status: Status, phase: Phase,
    stateVersion: Option<int>, budgets: Budgets, fields: Fields)

  predicate IdOk(f: OptionalField, v: Option<RawId>) {
    v.Some? ==>
      !Blank(v.value.text) && (f != SessionId ==> v.value.uuid.Some?)
  }

  function NormalId(f: OptionalField, v: Option<RawId>): Option<string>
    requires IdOk(f, v)
  {
    if v.None? then None
    else if f == SessionId then Some(Strip(v.value.text))
    else Some(v.value.uuid.value)
  }

  predicate SpecOk(spec: JobSpec) {
    && !Blank(spec.jobId.text) && spec.jobId.uuid.Some?
    && !Blank(spec.owner) && !Blank(spec.workspace)
    && (forall f :: f in spec.optionalIds ==> IdOk(f, spec.optionalIds[f]))
    && !spec.kind.UnsupportedKindName?
    && (spec.status.Some? ==> !spec.status.value.UnknownStatus?)
    && (spec.phase.Some? ==> !spec.phase.value.UnknownPhase?)
    && CheckedBudgets(spec.budgets).Some?
  }

  function DefaultVersion(v: VersionField): Option<int> {
    match v
    case NoVersion => Some(0)
    case NullVersion => None
    case Version(n) => Some(n)
  }

  function Normalized(spec: JobSpec): NormalSpec
    requires SpecOk(spec)
  {
    NormalSpec(
      JobIdentity(
        spec.jobId.uuid.value, Strip(spec.owner), Strip(spec.workspace),
        map f | f in spec.optionalIds :: NormalId(f, spec.optionalIds[f]),
        spec.kind),
      if spec.status.Some? then spec.status.value else Queued,
      if spec.phase.Some? then spec.phase.value else PhaseQueued,
      DefaultVersion(spec.stateVersion),
      CheckedBudgets(spec.budgets).value, spec.fields)
  }

  /** A scope is the text without the white space at its ends, and that only. */
  method RequireScope(value: string) returns (r: Result<string, ContractError>)
    ensures r.Ok? <==> !Blank(value)
    ensures r.Err? ==> r.error == FieldRequired
    ensures r.Ok? ==> r.value == Strip(value) && r.value != "" && Trimmed(r.value)
    ensures r.Ok? ==> exists a, b :: Blank(a) && Blank(b) && value == a + r.value + b
    ensures r.Ok? && Trimmed(value) ==> r.value == value
  {
    var normalized := Strip(value);
    ghost var a, b := StripKeeps(value);
    if Trimmed(value) { TrimmedStays(value); }
    if normalized == "" { return Err(FieldRequired); }
    return Ok(normalized);
  }

  method RequireUuid(value: RawId) returns (r: Result<Uuid, ContractError>)
    ensures r.Ok? <==> !Blank(value.text) && value.uuid.Some?
    ensures r.Ok? ==> r.value == value.uuid.value
    ensures r.Err? ==> r.error == if Blank(value.text) then FieldRequired else NotAUuid
  {
    if Strip(value.text) == "" { return Err(FieldRequired); }
    if value.uuid.None? { return Err(NotAUuid); }
    return Ok(value.uuid.value);
  }

  function OptionalFieldAt(k: nat): OptionalField {
    if k == 0 then ExperimentId else if k == 1 then ParentId else SessionId
  }

  function Position(f: OptionalField): nat {
    match f case ExperimentId => 0 case ParentId => 1 case SessionId => 2
  }

  method OneId(f: OptionalField, v: Option<RawId>) returns (r: Result<Option<string>, ContractError>)
    ensures r.Ok? <==> IdOk(f, v)
    ensures r.Ok? ==> r.value == NormalId(f, v)
    ensures r.Err? ==> v.Some? && r.error == if Blank(v.value.text) then FieldRequired else NotAUuid
  {
    if v.None? { return Ok(None); }
    if f == SessionId {
      var s := RequireScope(v.value.text);
      if s.Err? { return Err(s.error); }
      return Ok(Some(s.value));
    }
    var u := RequireUuid(v.value);
    if u.Err? { return Err(u.error); }
    return Ok(Some(u.value));
  }

  /** The loop of `validate_job_spec` over the optional identifiers. */
  method NormalizeIds(ids: map<OptionalField, Option<RawId>>)
    returns (r: Result<map<OptionalField, Option<string>>, ContractError>)
    ensures r.Ok? <==> forall f :: f in ids ==> IdOk(f, ids[f])
    ensures r.Ok? ==> r.value == map f | f in ids :: NormalId(f, ids[f])
    ensures r.Err? ==> r.error == FieldRequired || r.error == NotAUuid
  {
    var result: map<OptionalField, Option<string>> := map[];
    for k := 0 to 3
      invariant forall f :: f in ids && Position(f) < k ==> IdOk(f, ids[f])
      invariant forall f :: f in result <==> f in ids && Position(f) < k
      invariant forall f :: f in result ==> result[f] == NormalId(f, ids[f])
    {
      var f := OptionalFieldAt(k);
      if f in ids {
        var id := OneId(f, ids[f]);
        if id.Err? { return Err(id.error); }
        result := result[f := id.value];
      }
    }
    return Ok(result);
  }

  /** The identity that the spec asks for: its own scopes without the white space at
      their ends, its kind, and its identifiers, those of sessions as stripped
      text and all others in canonical form. */
  ghost predicate IdentityOf(spec: JobSpec, id: JobIdentity) {
    && spec.jobId.uuid == Some(id.jobId)
    && id.owner == Strip(spec.owner) && id.workspace == Strip(spec.workspace) && id.kind == spec.kind
    && id.optionalIds.Keys == spec.optionalIds.Keys
    && forall f :: f in spec.optionalIds ==>
      match spec.optionalIds[f]
      case None => id.optionalIds[f] == None
      case Some(raw) => id.optionalIds[f] == if f.SessionId? then Some(Strip(raw.text)) else raw.uuid
  }

  /** What the spec must be for `validate_job_spec`. */
  ghost predicate Acceptable(spec: JobSpec) {
    && !Blank(spec.jobId.text) && spec.jobId.uuid.Some? && !Blank(spec.owner) && !Blank(spec.workspace)
    && (forall f :: f in spec.optionalIds && spec.optionalIds[f].Some? ==>
          !Blank(spec.optionalIds[f].value.text) && (f.SessionId? || spec.optionalIds[f].value.uuid.Some?))
    && !spec.kind.UnsupportedKindName?
    && !(spec.status.Some? && spec.status.value.UnknownStatus?)
    && !(spec.phase.Some? && spec.phase.value.UnknownPhase?)
    && (spec.budgets.NoBudgets? || (spec.budgets.Object? && BudgetsSound(spec.budgets.fields)))
  }

  /** What it becomes, defaults included. */
  ghost predicate NormalOf(spec: JobSpec, n: NormalSpec) {
    && IdentityOf(spec, n.id)
    && n.status == (if spec.status.Some? then spec.status.value else Queued)
    && n.phase == (if spec.phase.Some? then spec.phase.value else PhaseQueued)
    && (spec.stateVersion.NoVersion? ==> n.stateVersion == Some(0))
    && (spec.stateVersion.NullVersion? ==> n.stateVersion == None)
    && (spec.stateVersion.Version? ==> n.stateVersion == Some(spec.stateVersion.n))
    && BudgetsOf(spec.budgets, n.budgets) && n.fields == spec.fields
  }

  lemma SpecOkIs(spec: JobSpec)
    ensures SpecOk(spec) <==> Acceptable(spec)
  {
    CheckedBudgetsIff(spec.budgets);
    hide CheckedBudgets, BudgetsSound;
  }

  lemma NormalizedIs(spec: JobSpec)
    requires SpecOk(spec)
    ensures NormalOf(spec, Normalized(spec))
  {
    CheckedBudgetsIff(spec.budgets);
    hide CheckedBudgets, BudgetsOf;
  }

  /** `validate_job_spec` with the `state_version` default of `create_job`: which
      specs it accepts, what they become, and what an error says. */
  method ValidateJobSpec(spec: JobSpec) returns (r: Result<NormalSpec, ContractError>)
    ensures r.Ok? <==> SpecOk(spec)
    ensures r.Ok? ==> r.value == Normalized(spec)
    ensures r.Ok? <==> Acceptable(spec)
    ensures r.Ok? ==> NormalOf(spec, r.value)
    ensures r.Err? ==>
      match r.error
      case UnsupportedKind => spec.kind.UnsupportedKindName?
      case UnsupportedStatus => spec.status.Some? && spec.status.value.UnknownStatus?
      case UnsupportedPhase => spec.phase.Some? && spec.phase.value.UnknownPhase?
      case BudgetsNotAnObject => spec.budgets.NotAnObject?
      case _ => true
  {
    hide IdOk, NormalId, CheckedBudgets, Strip, Acceptable, NormalOf, BudgetsSound, BudgetsOf;
    SpecOkIs(spec);
    if SpecOk(spec) { NormalizedIs(spec); }
    var jobId := RequireUuid(spec.jobId);
    if jobId.Err? { return Err(jobId.error); }
    var owner := RequireScope(spec.owner);
    if owner.Err? { return Err(owner.error); }
    var workspace := RequireScope(spec.workspace);
    if workspace.Err? { return Err(workspace.error); }

    var ids := NormalizeIds(spec.optionalIds);
    if ids.Err? { return Err(ids.error); }
    if spec.kind.UnsupportedKindName? { return Err(UnsupportedKind); }
    var status := if spec.status.Some? then spec.status.value else Queued;
    var phase := if spec.phase.Some? then spec.phase.value else PhaseQueued;
    if status.UnknownStatus? { return Err(UnsupportedStatus); }
    if phase.UnknownPhase? { return Err(UnsupportedPhase); }
    var budgets := ValidateBudgets(spec.budgets);
    if budgets.Err? { return Err(budgets.error); }
    var version :=
      match spec.stateVersion case NoVersion => Some(0) case NullVersion => None case Version(n) => Some(n);
    var id := JobIdentity(jobId.value, owner.value, workspace.value, ids.value, spec.kind);
    return Ok(NormalSpec(id, status, phase, version, budgets.value, spec.fields));
  }
}
