/** agents/learning_resources.py: which GPU a learning job may use, decided from an
    authorised manifest and one observation. */
module GpuAdmission {
  import opened Wrappers
  import opened PyText

  type Host = string
  type Gpu = string

  datatype PolicyError =
    | NoVersion | NoHosts | NotAnObject | NoUuidOrHost | UnlistedHost(gpu: Gpu) | DuplicateGpu(gpu: Gpu)
    | EnabledNotBoolean
    | AgeNotPositive | NegativeMemory
    | NoIdentity | NoTimestamp | InvalidMemory | InvalidConsumers

  // ------------------------------------------------------------------ manifests

  datatype EnabledField = Absent | Flag(on: bool) | OtherValue

  datatype GpuEntry = Entry(uuid: string, host: string, enabled: EnabledField) | OtherEntry

  /** The mapping as given; `hosts` is None when it is not a non-empty list. */
  datatype ManifestData = ManifestData(
    version: string, hosts: Option<seq<string>>, denied: seq<string>, consumers: seq<string>, patterns: seq<string>,
    gpus: seq<GpuEntry>, maxAge: int, minFree: int)

  datatype Manifest = Manifest(
    version: string, allowedHosts: set<Host>, gpuHosts: map<Gpu, Host>, enabled: set<Gpu>, denied: set<Gpu>,
    allowedConsumers: set<string>, protectedPatterns: set<string>, maxAge: int, minFree: int)

  function NonBlank(values: seq<string>): set<string> {
    set v | v in values && Strip(v) != "" :: Strip(v)
  }

  datatype Lanes = Lanes(hosts: map<Gpu, Host>, enabled: set<Gpu>)

  /** One entry, after those in `lanes`. */
  function AddGpu(e: GpuEntry, allowed: set<Host>, lanes: Lanes): Result<Lanes, PolicyError> {
    if e == OtherEntry then Err(NotAnObject)
    else
      var gpu, host := Strip(e.uuid), Strip(e.host);
      if gpu == "" || host == "" then Err(NoUuidOrHost)
      else if host !in allowed then Err(UnlistedHost(gpu))
      else if gpu in lanes.hosts then Err(DuplicateGpu(gpu))
      else if e.enabled == OtherValue then Err(EnabledNotBoolean)
      else Ok(Lanes(lanes.hosts[gpu := host], if e.enabled == Flag(true) then lanes.enabled + {gpu} else lanes.enabled))
  }

  function ReadGpus(gpus: seq<GpuEntry>, allowed: set<Host>): Result<Lanes, PolicyError> {
    if gpus == [] then Ok(Lanes(map[], {}))
    else
      var before := ReadGpus(gpus[..|gpus| - 1], allowed);
      if before.Err? then before else AddGpu(gpus[|gpus| - 1], allowed, before.value)
  }

  function ManifestOf(d: ManifestData): Result<Manifest, PolicyError> {
    if Strip(d.version) == "" then Err(NoVersion)
    else if d.hosts.None? || NonBlank(d.hosts.value) == {} then Err(NoHosts)
    else
      var allowed := NonBlank(d.hosts.value);
      var lanes := ReadGpus(d.gpus, allowed);
      if lanes.Err? then Err(lanes.error)
      else if d.maxAge <= 0 then Err(AgeNotPositive)
      else if d.minFree < 0 then Err(NegativeMemory)
      else Ok(Manifest(Strip(d.version), allowed, lanes.value.hosts, lanes.value.enabled, NonBlank(d.denied),
                       NonBlank(d.consumers), NonBlank(d.patterns), d.maxAge, d.minFree))
  }

  lemma {:induction false} ErrStays(gpus: seq<GpuEntry>, allowed: set<Host>, k: nat)
    requires k <= |gpus| && ReadGpus(gpus[..k], allowed).Err?
    ensures ReadGpus(gpus, allowed) == ReadGpus(gpus[..k], allowed)
  {
    if k == |gpus| {
      assert gpus[..k] == gpus;
    } else {
      assert gpus[..|gpus| - 1][..k] == gpus[..k];
      ErrStays(gpus[..|gpus| - 1], allowed, k);
    }
  }

  /** `ResourceManifest.from_mapping`. */
  method FromMapping(d: ManifestData) returns (r: Result<Manifest, PolicyError>)
    ensures r == ManifestOf(d)
  {
    hide ReadGpus, Strip, NonBlank, AddGpu;
    var version := Strip(d.version);
    if version == "" { return Err(NoVersion); }
    if d.hosts.None? { return Err(NoHosts); }
    var allowed := NonBlank(d.hosts.value);
    if allowed == {} { return Err(NoHosts); }
    var lanes, i := Lanes(map[], {}), 0;
    NoGpus(d.gpus, allowed);
    while i < |d.gpus|
      invariant 0 <= i <= |d.gpus|
      invariant ReadGpus(d.gpus[..i], allowed) == Ok(lanes)
    {
      OneGpu(d.gpus, allowed, i);
      var added := AddGpu(d.gpus[i], allowed, lanes);
      i := i + 1;
      if added.Err? {
        ErrStays(d.gpus, allowed, i);
        return Err(added.error);
      }
      lanes := added.value;
    }
    assert d.gpus[..i] == d.gpus;
    if d.maxAge <= 0 { return Err(AgeNotPositive); }
    if d.minFree < 0 { return Err(NegativeMemory); }
    r := Ok(Manifest(version, allowed, lanes.hosts, lanes.enabled, NonBlank(d.denied), NonBlank(d.consumers),
                     NonBlank(d.patterns), d.maxAge, d.minFree));
  }

  lemma NoGpus(gpus: seq<GpuEntry>, allowed: set<Host>)
    ensures ReadGpus(gpus[..0], allowed) == Ok(Lanes(map[], {}))
  {
  }

  lemma OneGpu(gpus: seq<GpuEntry>, allowed: set<Host>, i: nat)
    requires i < |gpus| && ReadGpus(gpus[..i], allowed).Ok?
    ensures ReadGpus(gpus[..i + 1], allowed) == AddGpu(gpus[i], allowed, ReadGpus(gpus[..i], allowed).value)
  {
    assert gpus[..i + 1][..i] == gpus[..i];
  }

  ghost predicate EntryOk(e: GpuEntry, allowed: set<Host>) {
    e.Entry? && Strip(e.uuid) != "" && Strip(e.host) in allowed && Strip(e.host) != "" && e.enabled != OtherValue
  }

  /** The lanes hold each entry's GPU with its host, and enabled ones are flagged. */
  ghost predicate Holds(gpus: seq<GpuEntry>, lanes: Lanes) {
    && (forall i :: 0 <= i < |gpus| ==>
          gpus[i].Entry? && Strip(gpus[i].uuid) in lanes.hosts
            && lanes.hosts[Strip(gpus[i].uuid)] == Strip(gpus[i].host)
          && (Strip(gpus[i].uuid) in lanes.enabled <==> gpus[i].enabled == Flag(true)))
    && (forall g :: g in lanes.hosts ==> exists i :: 0 <= i < |gpus| && gpus[i].Entry? && Strip(gpus[i].uuid) == g)
    && lanes.enabled <= lanes.hosts.Keys
  }

  ghost predicate Distinct(gpus: seq<GpuEntry>) {
    forall i, j :: 0 <= i < j < |gpus| && gpus[i].Entry? && gpus[j].Entry? ==>
      Strip(gpus[i].uuid) != Strip(gpus[j].uuid)
  }

  ghost predicate AllOk(gpus: seq<GpuEntry>, allowed: set<Host>) {
    forall i :: 0 <= i < |gpus| ==> EntryOk(gpus[i], allowed)
  }

  lemma SoundPrefix(gpus: seq<GpuEntry>, e: GpuEntry, allowed: set<Host>)
    ensures AllOk(gpus + [e], allowed) <==> AllOk(gpus, allowed) && EntryOk(e, allowed)
    ensures Distinct(gpus + [e]) ==> Distinct(gpus)
  {
    hide EntryOk, Strip;
    var more := gpus + [e];
    assert more[|gpus|] == e && forall i :: 0 <= i < |gpus| ==> more[i] == gpus[i];
  }

  lemma NoEntries(allowed: set<Host>)
    ensures AllOk([], allowed) && Distinct([]) && Holds([], Lanes(map[], {}))
  {
  }

  /** The GPU list is read exactly when every entry is sound and no GPU comes twice,
      and then the lanes hold neither more nor less than the entries. */
  lemma {:induction false} ReadGpusIff(gpus: seq<GpuEntry>, allowed: set<Host>)
    ensures ReadGpus(gpus, allowed).Ok? <==> AllOk(gpus, allowed) && Distinct(gpus)
    ensures ReadGpus(gpus, allowed).Ok? ==> Holds(gpus, ReadGpus(gpus, allowed).value)
  {
    hide Strip, AddGpu, EntryOk, AllOk, Distinct, Holds;
    if gpus == [] {
      NoEntries(allowed);
    } else {
      var before, e := gpus[..|gpus| - 1], gpus[|gpus| - 1];
      assert before + [e] == gpus;
      ReadGpusIff(before, allowed);
      SoundPrefix(before, e, allowed);
      if ReadGpus(before, allowed).Ok? {
        AddGpuIff(before, e, allowed, ReadGpus(before, allowed).value);
      }
    }
  }

  lemma AddGpuIff(gpus: seq<GpuEntry>, e: GpuEntry, allowed: set<Host>, lanes: Lanes)
    requires Holds(gpus, lanes) && Distinct(gpus)
    ensures AddGpu(e, allowed, lanes).Ok? <==> EntryOk(e, allowed) && Distinct(gpus + [e])
    ensures AddGpu(e, allowed, lanes).Ok? ==> Holds(gpus + [e], AddGpu(e, allowed, lanes).value)
  {
    hide Strip;
    var more := gpus + [e];
    assert more[|gpus|] == e;
    if e.Entry? && Strip(e.uuid) in lanes.hosts {
      var i :| 0 <= i < |gpus| && gpus[i].Entry? && Strip(gpus[i].uuid) == Strip(e.uuid);
      assert more[i] == gpus[i];
    }
    if AddGpu(e, allowed, lanes).Ok? {
      var after := AddGpu(e, allowed, lanes).value;
      forall g | g in after.hosts ensures exists i :: 0 <= i < |more| && more[i].Entry? && Strip(more[i].uuid) == g {
        if g in lanes.hosts {
          var i :| 0 <= i < |gpus| && gpus[i].Entry? && Strip(gpus[i].uuid) == g;
          assert more[i] == gpus[i];
        }
      }
    }
  }

  /** What every manifest the parser builds keeps: enabled GPUs are mapped, mapped
      hosts are allowed, and the limits are usable. */
  ghost predicate WellFormed(m: Manifest) {
    && m.allowedHosts != {} && m.enabled <= m.gpuHosts.Keys && m.maxAge > 0 && m.minFree >= 0
    && forall g :: g in m.gpuHosts ==> m.gpuHosts[g] in m.allowedHosts
  }

  lemma ParsedIsWellFormed(d: ManifestData)
    requires ManifestOf(d).Ok?
    ensures WellFormed(ManifestOf(d).value)
    ensures ManifestOf(d).value.version == Strip(d.version) && ManifestOf(d).value.version != ""
  {
    hide Strip, NonBlank, ReadGpus;
    var allowed := NonBlank(d.hosts.value);
    ReadGpusIff(d.gpus, allowed);
    var lanes := ReadGpus(d.gpus, allowed).value;
    forall g | g in lanes.hosts ensures lanes.hosts[g] in allowed {
      var i :| 0 <= i < |d.gpus| && d.gpus[i].Entry? && Strip(d.gpus[i].uuid) == g;
      assert EntryOk(d.gpus[i], allowed);
    }
  }

  /** Exactly these mappings are accepted. */
  lemma ManifestIff(d: ManifestData)
    ensures ManifestOf(d).Ok? <==>
      && Strip(d.version) != "" && d.hosts.Some? && NonBlank(d.hosts.value) != {}
      && AllOk(d.gpus, NonBlank(d.hosts.value)) && Distinct(d.gpus) && d.maxAge > 0 && d.minFree >= 0
  {
    hide Strip, NonBlank, ReadGpus, AllOk, Distinct, Holds;
    if d.hosts.Some? { ReadGpusIff(d.gpus, NonBlank(d.hosts.value)); }
  }

  /** What an error says is so: of the mapping, or of one of its entries. */
  ghost predicate Faulty(gpus: seq<GpuEntry>, allowed: set<Host>, e: PolicyError) {
    exists i :: 0 <= i < |gpus| && FaultyAt(gpus, allowed, e, i)
  }

  ghost predicate FaultyAt(gpus: seq<GpuEntry>, allowed: set<Host>, e: PolicyError, i: nat)
    requires i < |gpus|
  {
    match e
    case NotAnObject => gpus[i] == OtherEntry
    case NoUuidOrHost => gpus[i].Entry? && (Blank(gpus[i].uuid) || Blank(gpus[i].host))
    case UnlistedHost(gpu) => gpus[i].Entry? && Strip(gpus[i].uuid) == gpu && Strip(gpus[i].host) !in allowed
    case DuplicateGpu(gpu) =>
      && gpus[i].Entry? && Strip(gpus[i].uuid) == gpu
      && exists j :: 0 <= j < i && gpus[j].Entry? && Strip(gpus[j].uuid) == gpu
    case EnabledNotBoolean => gpus[i].Entry? && gpus[i].enabled == OtherValue
    case _ => false
  }

  lemma AddedIsFaulty(before: seq<GpuEntry>, e: GpuEntry, allowed: set<Host>, lanes: Lanes)
    requires Holds(before, lanes) && AddGpu(e, allowed, lanes).Err?
    ensures FaultyAt(before + [e], allowed, AddGpu(e, allowed, lanes).error, |before|)
  {
    hide Strip;
    var gpus := before + [e];
    if e.Entry? && Strip(e.uuid) in lanes.hosts {
      var j :| 0 <= j < |before| && before[j].Entry? && Strip(before[j].uuid) == Strip(e.uuid);
      assert gpus[j] == before[j];
    }
  }

  lemma StillFaulty(before: seq<GpuEntry>, e: GpuEntry, allowed: set<Host>, error: PolicyError)
    requires Faulty(before, allowed, error)
    ensures Faulty(before + [e], allowed, error)
  {
    hide Strip;
    var gpus := before + [e];
    var i :| 0 <= i < |before| && FaultyAt(before, allowed, error, i);
    assert forall j :: 0 <= j <= i ==> gpus[j] == before[j];
    assert FaultyAt(gpus, allowed, error, i);
  }

  lemma {:induction false} GpuErrors(gpus: seq<GpuEntry>, allowed: set<Host>)
    ensures ReadGpus(gpus, allowed).Err? ==> Faulty(gpus, allowed, ReadGpus(gpus, allowed).error)
  {
    hide Strip, AddGpu, FaultyAt, Holds, AllOk, Distinct;
    if gpus != [] {
      var before, e := gpus[..|gpus| - 1], gpus[|gpus| - 1];
      assert before + [e] == gpus;
      GpuErrors(before, allowed);
      ReadGpusIff(before, allowed);
      if ReadGpus(before, allowed).Err? {
        StillFaulty(before, e, allowed, ReadGpus(before, allowed).error);
      } else if ReadGpus(gpus, allowed).Err? {
        AddedIsFaulty(before, e, allowed, ReadGpus(before, allowed).value);
      }
    }
  }

  lemma ErrorsAreSo(d: ManifestData)
    requires ManifestOf(d).Err?
    ensures
      match ManifestOf(d).error
      case NoVersion => Blank(d.version)
      case NoHosts => !Blank(d.version) && (d.hosts.Some? ==> NonBlank(d.hosts.value) == {})
      case AgeNotPositive => d.maxAge <= 0
      case NegativeMemory => d.minFree < 0 && d.maxAge > 0
      case e => d.hosts.Some? && Faulty(d.gpus, NonBlank(d.hosts.value), e)
  {
    if d.hosts.Some? { GpuErrors(d.gpus, NonBlank(d.hosts.value)); }
    hide ReadGpus, NonBlank, FaultyAt;
  }

  // --------------------------------------------------------------- observations

  /** `at` is None when the time stamp cannot be parsed; `consumers` is None when it
      is not a list of strings. */
  datatype ObservationData = ObservationData(
    host: string, gpuUuid: string, uuid: string, at: Option<real>, total: int, free: int,
    consumers: Option<seq<string>>)

  datatype Observation = Observation(host: Host, gpu: Gpu, total: int, free: int, at: real, consumers: seq<string>)

  function Stripped(values: seq<string>): seq<string> {
    seq(|values|, i requires 0 <= i < |values| => Strip(values[i]))
  }

  /** `GPUObservation.from_mapping`. */
  function ObservationOf(d: ObservationData): Result<Observation, PolicyError> {
    var host, gpu := Strip(d.host), Strip(if d.gpuUuid != "" then d.gpuUuid else d.uuid);
    if host == "" || gpu == "" then Err(NoIdentity)
    else if d.at.None? then Err(NoTimestamp)
    else if d.total <= 0 || d.free < 0 || d.free > d.total then Err(InvalidMemory)
    else if d.consumers.None? || exists i :: 0 <= i < |d.consumers.value| && Strip(d.consumers.value[i]) == "" then
      Err(InvalidConsumers)
    else Ok(Observation(host, gpu, d.total, d.free, d.at.value, Stripped(d.consumers.value)))
  }

  /** An accepted observation names its GPU, measures sane memory and identifies
      every consumer. */
  lemma ObservedIsSane(d: ObservationData)
    requires ObservationOf(d).Ok?
    ensures var o := ObservationOf(d).value;
      && o.host != "" && o.gpu != "" && 0 <= o.free <= o.total && 0 < o.total && d.at == Some(o.at)
      && d.consumers.Some? && |o.consumers| == |d.consumers.value| && "" !in o.consumers
      && o.host == Strip(d.host) && o.gpu == Strip(if d.gpuUuid == "" then d.uuid else d.gpuUuid)
      && o.total == d.total && o.free == d.free
      && forall i :: 0 <= i < |o.consumers| ==> o.consumers[i] == Strip(d.consumers.value[i])
  {
    hide Strip;
    var o := ObservationOf(d).value;
    forall i | 0 <= i < |o.consumers| ensures o.consumers[i] != "" {
      assert Strip(d.consumers.value[i]) != "";
    }
  }

  // ------------------------------------------------------------------ admission

  datatype Code =
    | UnknownHost | ProtectedGpu | UnknownGpu | GpuHostMismatch | GpuDisabled | StaleTelemetry
    | ProtectedConsumer(who: string) | UnknownConsumer(who: string) | InsufficientFreeMemory(required: int)
    | Eligible(floor: int)

  /** `fnmatchcase(name, pattern)` is left abstract. */
  type Matcher = (string, string) -> bool

  ghost predicate Protected(m: Manifest, matches: Matcher, who: string) {
    exists p :: p in m.protectedPatterns && matches(who, p)
  }

  /** The first consumer that is protected or not allowed. */
  ghost function BadConsumer(m: Manifest, matches: Matcher, consumers: seq<string>): Option<Code> {
    if consumers == [] then None
    else if Protected(m, matches, consumers[0]) then Some(ProtectedConsumer(consumers[0]))
    else if consumers[0] !in m.allowedConsumers then Some(UnknownConsumer(consumers[0]))
    else BadConsumer(m, matches, consumers[1..])
  }

  function Required(m: Manifest, floor: Option<int>): int {
    if floor.None? || floor.value < m.minFree then m.minFree else floor.value
  }

  /** `admit_gpu`; the negative override raises, and only where nothing has denied. */
  ghost function Admit(m: Manifest, o: Observation, matches: Matcher, now: real, floor: Option<int>)
    : Result<Code, PolicyError>
  {
    var age := now - o.at;
    if o.host !in m.allowedHosts then Ok(UnknownHost)
    else if o.gpu in m.denied then Ok(ProtectedGpu)
    else if o.gpu !in m.gpuHosts then Ok(UnknownGpu)
    else if m.gpuHosts[o.gpu] != o.host then Ok(GpuHostMismatch)
    else if o.gpu !in m.enabled then Ok(GpuDisabled)
    else if age < 0.0 || age > m.maxAge as real then Ok(StaleTelemetry)
    else
      var bad := BadConsumer(m, matches, o.consumers);
      if bad.Some? then Ok(bad.value)
      else if floor.Some? && floor.value < 0 then Err(NegativeMemory)
      else if o.free < Required(m, floor) then Ok(InsufficientFreeMemory(Required(m, floor)))
      else Ok(Eligible(Required(m, floor)))
  }

  lemma {:induction false} BadConsumerIff(m: Manifest, matches: Matcher, consumers: seq<string>)
    ensures BadConsumer(m, matches, consumers) == None <==>
      forall who :: who in consumers ==> who in m.allowedConsumers && !Protected(m, matches, who)
    ensures BadConsumer(m, matches, consumers).Some? ==>
      var code := BadConsumer(m, matches, consumers).value;
      (code.ProtectedConsumer? || code.UnknownConsumer?) && code.who in consumers
      && (code.ProtectedConsumer? <==> Protected(m, matches, code.who))
      && (code.UnknownConsumer? ==> code.who !in m.allowedConsumers)
  {
    hide Protected;
    if consumers != [] {
      BadConsumerIff(m, matches, consumers[1..]);
      assert consumers == [consumers[0]] + consumers[1..];
    }
  }

  /** Ownership, freshness and consumers: everything but the memory. */
  ghost predicate Cleared(m: Manifest, o: Observation, matches: Matcher, now: real) {
    && o.host in m.allowedHosts && o.gpu !in m.denied
    && o.gpu in m.gpuHosts && m.gpuHosts[o.gpu] == o.host && o.gpu in m.enabled
    && 0.0 <= now - o.at <= m.maxAge as real
    && forall who :: who in o.consumers ==> who in m.allowedConsumers && !Protected(m, matches, who)
  }

  ghost predicate Admitted(r: Result<Code, PolicyError>) {
    r.Ok? && r.value.Eligible?
  }

  /** A GPU is eligible exactly when every check holds, the memory floor being the
      larger of the manifest's and the caller's; and a negative floor raises
      exactly when nothing else denies. */
  lemma EligibleIff(m: Manifest, o: Observation, matches: Matcher, now: real, floor: Option<int>)
    ensures Admitted(Admit(m, o, matches, now, floor)) <==>
      Cleared(m, o, matches, now) && o.free >= m.minFree && (floor.Some? ==> 0 <= floor.value <= o.free)
    ensures Admit(m, o, matches, now, floor).Err? <==> Cleared(m, o, matches, now) && floor.Some? && floor.value < 0
  {
    hide Protected, BadConsumer;
    BadConsumerIff(m, matches, o.consumers);
  }

  /** A denial names the first check that fails. */
  lemma DenialIsFirst(m: Manifest, o: Observation, matches: Matcher, now: real, floor: Option<int>)
    ensures var r := Admit(m, o, matches, now, floor);
      r.Ok? ==>
        match r.value
        case UnknownHost => o.host !in m.allowedHosts
        case ProtectedGpu => o.host in m.allowedHosts && o.gpu in m.denied
        case UnknownGpu => o.host in m.allowedHosts && o.gpu !in m.denied && o.gpu !in m.gpuHosts
        case GpuHostMismatch =>
          && o.host in m.allowedHosts && o.gpu !in m.denied && o.gpu in m.gpuHosts && m.gpuHosts[o.gpu] != o.host
        case GpuDisabled => Mapped(m, o) && o.gpu !in m.enabled
        case StaleTelemetry => Mapped(m, o) && o.gpu in m.enabled && !(0.0 <= now - o.at <= m.maxAge as real)
        case ProtectedConsumer(who) =>
          Mapped(m, o) && FirstBad(m, matches, o.consumers, who) && Protected(m, matches, who)
        case UnknownConsumer(who) =>
          Mapped(m, o) && FirstBad(m, matches, o.consumers, who) && !Protected(m, matches, who)
        case InsufficientFreeMemory(required) =>
          && Cleared(m, o, matches, now) && o.free < required
          && (required == m.minFree || floor == Some(required)) && required >= m.minFree
          && (floor.Some? ==> required >= floor.value)
        case Eligible(required) =>
          && Cleared(m, o, matches, now) && o.free >= required
          && (required == m.minFree || floor == Some(required)) && required >= m.minFree
          && (floor.Some? ==> required >= floor.value)
  {
    BadConsumerIff(m, matches, o.consumers);
    BadIsFirst(m, matches, o.consumers);
    hide Protected, BadConsumer, FirstBad;
  }

  ghost predicate Mapped(m: Manifest, o: Observation) {
    o.host in m.allowedHosts && o.gpu !in m.denied && o.gpu in m.gpuHosts && m.gpuHosts[o.gpu] == o.host
  }

  /** The consumer is there, is protected or not allowed, and none before it is. */
  ghost predicate FirstBad(m: Manifest, matches: Matcher, consumers: seq<string>, who: string) {
    exists i ::
      && 0 <= i < |consumers| && consumers[i] == who && (Protected(m, matches, who) || who !in m.allowedConsumers)
      && forall j :: 0 <= j < i ==> consumers[j] in m.allowedConsumers && !Protected(m, matches, consumers[j])
  }

  lemma {:induction false} BadIsFirst(m: Manifest, matches: Matcher, consumers: seq<string>)
    ensures BadConsumer(m, matches, consumers).Some? ==>
      var code := BadConsumer(m, matches, consumers).value;
      (code.ProtectedConsumer? || code.UnknownConsumer?) && FirstBad(m, matches, consumers, code.who)
  {
    if consumers != [] {
      var rest := consumers[1..];
      BadIsFirst(m, matches, rest);
      hide Protected;
      if BadConsumer(m, matches, consumers).Some? {
        var who := BadConsumer(m, matches, consumers).value.who;
        if !Protected(m, matches, consumers[0]) && consumers[0] in m.allowedConsumers {
          var i :| 0 <= i < |rest| && rest[i] == who && (Protected(m, matches, who) || who !in m.allowedConsumers)
            && forall j :: 0 <= j < i ==> rest[j] in m.allowedConsumers && !Protected(m, matches, rest[j]);
          assert consumers[i + 1] == who;
          forall j | 0 <= j < i + 1 ensures consumers[j] in m.allowedConsumers && !Protected(m, matches, consumers[j]) {
            if j > 0 { assert consumers[j] == rest[j - 1]; }
          }
        }
      }
    }
  }

  /** `n` and `p` ask for no less than `m` and `o`: nothing more is allowed, nothing
      less denied or protected, and no more memory or fresher telemetry is seen. */
  ghost predicate Stricter(
    m: Manifest, o: Observation, floor: Option<int>, n: Manifest, p: Observation, newFloor: Option<int>)
  {
    && n.allowedHosts <= m.allowedHosts && n.enabled <= m.enabled && n.allowedConsumers <= m.allowedConsumers
    && (forall g :: g in n.gpuHosts ==> g in m.gpuHosts && m.gpuHosts[g] == n.gpuHosts[g])
    && m.denied <= n.denied && m.protectedPatterns <= n.protectedPatterns
    && n.maxAge <= m.maxAge && m.minFree <= n.minFree
    && p.host == o.host && p.gpu == o.gpu && p.at == o.at && p.free <= o.free
    && (forall who :: who in o.consumers ==> who in p.consumers)
    && (floor.Some? ==> newFloor.Some? && 0 <= floor.value <= newFloor.value)
  }

  lemma StillProtected(m: Manifest, n: Manifest, matches: Matcher, who: string)
    requires m.protectedPatterns <= n.protectedPatterns
    ensures Protected(m, matches, who) ==> Protected(n, matches, who)
  {
  }

  /** Tightening never turns a denial into an admission. */
  lemma TighteningNeverAdmits(
      m: Manifest, o: Observation, floor: Option<int>, n: Manifest, p: Observation, newFloor: Option<int>,
      matches: Matcher, now: real)
    requires Stricter(m, o, floor, n, p, newFloor) && Admitted(Admit(n, p, matches, now, newFloor))
    ensures Admitted(Admit(m, o, matches, now, floor))
  {
    hide Admit;
    EligibleIff(m, o, matches, now, floor);
    EligibleIff(n, p, matches, now, newFloor);
    forall who | who in o.consumers ensures who in m.allowedConsumers && !Protected(m, matches, who) {
      assert who in p.consumers;
      StillProtected(m, n, matches, who);
    }
  }

  /** One of the values is `name`, but for white space at its ends. */
  ghost predicate Names(values: seq<string>, name: string) {
    name != "" && exists i :: 0 <= i < |values| && Strip(values[i]) == name
  }

  lemma NonBlankIs(values: seq<string>, name: string)
    ensures name in NonBlank(values) <==> Names(values, name)
  {
  }

  lemma NotProtected(d: ManifestData, matches: Matcher, who: string)
    requires ManifestOf(d).Ok?
    ensures !Protected(ManifestOf(d).value, matches, who) ==>
      forall p :: p in d.patterns && Strip(p) != "" ==> !matches(who, Strip(p))
  {
    hide ReadGpus;
    forall p | p in d.patterns && Strip(p) != ""
      ensures matches(who, Strip(p)) ==> Protected(ManifestOf(d).value, matches, who)
    {
      assert Strip(p) in ManifestOf(d).value.protectedPatterns;
    }
  }

  predicate ListsLane(e: GpuEntry, o: Observation) {
    e.Entry? && Strip(e.uuid) == o.gpu && Strip(e.host) == o.host && e.enabled == Flag(true)
  }

  /** An admission by a parsed manifest is fail-closed: the GPU is one of its
      entries, enabled there, on an allowed host. */
  lemma AdmittedWasListed(d: ManifestData, o: Observation, matches: Matcher, now: real, floor: Option<int>)
    requires ManifestOf(d).Ok? && Admitted(Admit(ManifestOf(d).value, o, matches, now, floor))
    ensures d.hosts.Some? && Names(d.hosts.value, o.host) && !Names(d.denied, o.gpu)
    ensures exists i :: 0 <= i < |d.gpus| && ListsLane(d.gpus[i], o)
    ensures 0.0 <= now - o.at <= d.maxAge as real && o.free >= d.minFree && (floor.Some? ==> 0 <= floor.value <= o.free)
    ensures forall who :: who in o.consumers ==>
      Names(d.consumers, who) && forall p :: p in d.patterns && Strip(p) != "" ==> !matches(who, Strip(p))
  {
    hide Strip, NonBlank, ReadGpus, Admit, Protected, Names;
    NonBlankIs(d.hosts.value, o.host);
    NonBlankIs(d.denied, o.gpu);
    forall who | who in o.consumers
      ensures who in ManifestOf(d).value.allowedConsumers ==> Names(d.consumers, who)
      ensures !Protected(ManifestOf(d).value, matches, who) ==>
        forall p :: p in d.patterns && Strip(p) != "" ==> !matches(who, Strip(p))
    {
      NonBlankIs(d.consumers, who);
      NotProtected(d, matches, who);
    }
    ReadGpusIff(d.gpus, NonBlank(d.hosts.value));
    EligibleIff(ManifestOf(d).value, o, matches, now, floor);
    var i :| 0 <= i < |d.gpus| && d.gpus[i].Entry? && Strip(d.gpus[i].uuid) == o.gpu;
    assert ListsLane(d.gpus[i], o);
  }
}
