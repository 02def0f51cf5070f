/** agents/auto_repair_daemon.py: repairs of polled services, their cooldown and
    their failure counts, beside the repairs that routed alerts ask for. */
module RepairDaemon {
  import opened Wrappers

  type Service = string
  type Time = int

  /** The poll thread reads the cooldown of an unhealthy service, and later records
      the repair it made; in between, as at any time, the subscriber thread may
      record a routed repair, which it may have made before. */
  datatype Event =
    | Check(service: Service, now: Time)
    | Finish(stamp: Time, success: bool)
    | Routed(service: Service, stamp: Time, success: bool)

  datatype Entry = Entry(service: Service, start: Time, stamp: Time, success: bool, polled: bool)

  /** What the poll thread is repairing, since when. */
  datatype Repair = Repair(service: Service, start: Time)

  datatype State = State(
    last: map<Service, Time>, failures: map<Service, nat>, history: seq<Entry>, inHand: Option<Repair>)

  const START := State(map[], map[], [], None)

  predicate ShouldRepair(s: State, service: Service, now: Time, cooldown: nat) {
    service !in s.last || now - s.last[service] >= cooldown
  }

  function Count(s: State, service: Service): nat {
    if service in s.failures then s.failures[service] else 0
  }

  function Next(s: State, e: Event, cooldown: nat): State {
    match e
    case Check(service, now) =>
      if s.inHand.Some? || !ShouldRepair(s, service, now, cooldown) then s
      else s.(inHand := Some(Repair(service, now)))
    case Finish(stamp, success) =>
      if s.inHand.None? then s
      else
        var service, start := s.inHand.value.service, s.inHand.value.start;
        State(s.last[service := stamp], s.failures[service := if success then 0 else Count(s, service) + 1],
              s.history + [Entry(service, start, stamp, success, true)], None)
    case Routed(service, stamp, success) =>
      s.(last := s.last[service := stamp], history := s.history + [Entry(service, stamp, stamp, success, false)])
  }

  function After(events: seq<Event>, cooldown: nat): State {
    if events == [] then START else Next(After(events[..|events| - 1], cooldown), events[|events| - 1], cooldown)
  }

  /** The recorded polled repairs of a service, in order. */
  function Polled(history: seq<Entry>, service: Service): seq<Entry> {
    if history == [] then []
    else
      var before, e := Polled(history[..|history| - 1], service), history[|history| - 1];
      if e.polled && e.service == service then before + [e] else before
  }

  lemma PolledMore(history: seq<Entry>, e: Entry, service: Service)
    ensures Polled(history + [e], service) ==
      if e.polled && e.service == service then Polled(history, service) + [e] else Polled(history, service)
  {
    assert (history + [e])[..|history|] == history;
  }

  // ------------------------------------------------------------------- cooldown

  predicate Repairing(s: State, service: Service) {
    s.inHand.Some? && s.inHand.value.service == service
  }

  /** A routed repair carries no earlier time than the last polled repair of its
      service, unless a newer polled one is about to be recorded. */
  predicate KeepsTime(s: State, e: Event) {
    e.Routed? ==>
      var repairs := Polled(s.history, e.service);
      repairs == [] || repairs[|repairs| - 1].stamp <= e.stamp || Repairing(s, e.service)
  }

  ghost predicate InOrder(events: seq<Event>, cooldown: nat) {
    forall k :: 0 <= k < |events| ==> KeepsTime(After(events[..k], cooldown), events[k])
  }

  /** Each polled repair of the service starts a cooldown after the one before, and
      the next one will. */
  ghost predicate Spaced(s: State, service: Service, cooldown: nat) {
    var repairs := Polled(s.history, service);
    && (forall i :: 0 < i < |repairs| ==> repairs[i].start - repairs[i - 1].stamp >= cooldown)
    && (repairs != [] ==>
          if Repairing(s, service) then s.inHand.value.start - repairs[|repairs| - 1].stamp >= cooldown
          else service in s.last && repairs[|repairs| - 1].stamp <= s.last[service])
  }

  lemma SpacedNext(s: State, e: Event, service: Service, cooldown: nat)
    requires Spaced(s, service, cooldown) && KeepsTime(s, e)
    ensures Spaced(Next(s, e, cooldown), service, cooldown)
  {
    hide Polled;
    var n := Next(s, e, cooldown);
    if n.history != s.history {
      PolledMore(s.history, n.history[|s.history|], service);
    }
  }

  lemma {:induction false} AlwaysSpaced(events: seq<Event>, service: Service, cooldown: nat)
    requires InOrder(events, cooldown)
    ensures Spaced(After(events, cooldown), service, cooldown)
  {
    hide Next, Spaced, KeepsTime;
    if events == [] {
      NothingSpaced(service, cooldown);
    } else {
      var before := events[..|events| - 1];
      forall k | 0 <= k < |before| ensures KeepsTime(After(before[..k], cooldown), before[k]) {
        assert before[..k] == events[..k];
      }
      AlwaysSpaced(before, service, cooldown);
      assert events[..|events| - 1] == before;
      SpacedNext(After(before, cooldown), events[|events| - 1], service, cooldown);
    }
  }

  lemma NothingSpaced(service: Service, cooldown: nat)
    ensures Spaced(START, service, cooldown)
  {
  }

  /** Every recorded polled repair of a service starts at least one cooldown after
      the time of the previous one. */
  lemma CooldownHolds(events: seq<Event>, service: Service, cooldown: nat, i: nat)
    requires InOrder(events, cooldown) && 0 < i < |Polled(After(events, cooldown).history, service)|
    ensures var repairs := Polled(After(events, cooldown).history, service);
      repairs[i].start - repairs[i - 1].stamp >= cooldown
  {
    AlwaysSpaced(events, service, cooldown);
  }

  ghost predicate Polls(events: seq<Event>, service: Service) {
    exists k :: 0 <= k < |events| && events[k].Check? && events[k].service == service
  }

  /** Only services that were checked have polled repairs. */
  lemma {:induction false} PolledWasChecked(events: seq<Event>, service: Service, cooldown: nat)
    ensures Polled(After(events, cooldown).history, service) != [] || Repairing(After(events, cooldown), service) ==>
      Polls(events, service)
  {
    hide Polled, ShouldRepair;
    if events == [] {
      NothingPolled(service);
    } else {
      var before, e := events[..|events| - 1], events[|events| - 1];
      PolledWasChecked(before, service, cooldown);
      var s := After(before, cooldown);
      var n := Next(s, e, cooldown);
      if n.history != s.history { PolledMore(s.history, n.history[|s.history|], service); }
      if Polls(before, service) {
        var k :| 0 <= k < |before| && before[k].Check? && before[k].service == service;
        assert events[k] == before[k];
      }
    }
  }

  lemma NothingPolled(service: Service)
    ensures Polled([], service) == []
  {
  }

  /** When no alert is for a polled name, as with the names the daemon polls and the
      containers the alerts restart, the cooldown holds whatever the times. */
  lemma CooldownOfDisjointNames(events: seq<Event>, service: Service, cooldown: nat, i: nat)
    requires forall k, r :: 0 <= k < |events| && 0 <= r < |events| && events[k].Check? && events[r].Routed? ==>
        events[k].service != events[r].service
    requires 0 < i < |Polled(After(events, cooldown).history, service)|
    ensures var repairs := Polled(After(events, cooldown).history, service);
      repairs[i].start - repairs[i - 1].stamp >= cooldown
  {
    hide Polled, After;
    forall r | 0 <= r < |events| ensures KeepsTime(After(events[..r], cooldown), events[r]) {
      if events[r].Routed? {
        PolledWasChecked(events[..r], events[r].service, cooldown);
        assert !Polls(events[..r], events[r].service);
      }
    }
    CooldownHolds(events, service, cooldown, i);
  }

  /** The guard is exact: from any state in which a routed repair carries an earlier
      time, the poll thread can go on to repair the service too soon. */
  lemma EarlierTimeBreaksCooldown(s: State, e: Event, cooldown: nat, stamp: Time, success: bool)
    requires !KeepsTime(s, e)
    ensures var idle := Next(Next(s, e, cooldown), Finish(stamp, success), cooldown);
      var n := Next(Next(idle, Check(e.service, e.stamp + cooldown), cooldown), Finish(stamp, success), cooldown);
      var repairs := Polled(n.history, e.service);
      |repairs| >= 2 && repairs[|repairs| - 1].start - repairs[|repairs| - 2].stamp < cooldown
  {
    hide Polled;
    var routed := Next(s, e, cooldown);
    var idle := Next(routed, Finish(stamp, success), cooldown);
    PolledMore(s.history, routed.history[|s.history|], e.service);
    if s.inHand.Some? { PolledMore(routed.history, idle.history[|routed.history|], e.service); }
    PolledMore(idle.history, Entry(e.service, e.stamp + cooldown, stamp, success, true), e.service);
  }

  /** A run of it: a routed restart of Redis, made five seconds before a polled one
      and recorded after it, lets the next poll repair five seconds early. */
  lemma LateRecordRepairsEarly()
    ensures
      var polled := [Check("Redis", 0)] + [Finish(0, false)];
      var events := polled + [Routed("Redis", -5, true)] + [Check("Redis", 595)] + [Finish(600, true)];
      var repairs := Polled(After(events, 600).history, "Redis");
      |repairs| >= 2 && repairs[|repairs| - 1].start - repairs[|repairs| - 2].stamp < 600
  {
    hide After, Polled;
    var a, b, c, d, e := Check("Redis", 0), Finish(0, false), Routed("Redis", -5, true), Check("Redis", 595),
      Finish(600, true);
    NothingYet();
    OneMoreEvent([], a);
    assert [] + [a] == [a];
    OneMoreEvent([a], b);
    OneMoreEvent([a] + [b], c);
    OneMoreEvent([a] + [b] + [c], d);
    OneMoreEvent([a] + [b] + [c] + [d], e);
    var s := After([a] + [b], 600);
    assert s == State(map["Redis" := 0], map["Redis" := 1], [Entry("Redis", 0, 0, false, true)], None);
    OneRepair(s.history);
    EarlierTimeBreaksCooldown(s, c, 600, 600, true);
  }

  lemma NothingYet()
    ensures After([], 600) == START
  {
  }

  lemma OneMoreEvent(events: seq<Event>, e: Event)
    ensures After(events + [e], 600) == Next(After(events, 600), e, 600)
  {
    hide Next;
    assert (events + [e])[..|events|] == events;
  }

  lemma OneRepair(history: seq<Entry>)
    requires history == [Entry("Redis", 0, 0, false, true)]
    ensures Polled(history, "Redis") == history
  {
    assert history[..0] == [];
  }

  // ------------------------------------------------------------------- failures

  function FailedAtEnd(repairs: seq<Entry>): (n: nat)
    ensures n <= |repairs| && (forall i :: |repairs| - n <= i < |repairs| ==> !repairs[i].success)
    ensures n < |repairs| ==> repairs[|repairs| - n - 1].success
  {
    if repairs == [] || repairs[|repairs| - 1].success then 0 else FailedAtEnd(repairs[..|repairs| - 1]) + 1
  }

  /** The count of consecutive failures is the length of the run of failed polled
      repairs at the end, whatever routed repairs come between. */
  lemma {:induction false} FailuresAreTrailing(events: seq<Event>, service: Service, cooldown: nat)
    ensures Count(After(events, cooldown), service) == FailedAtEnd(Polled(After(events, cooldown).history, service))
  {
    hide Polled, FailedAtEnd, ShouldRepair;
    if events == [] {
      NoFailures(service);
    } else {
      var s, e := After(events[..|events| - 1], cooldown), events[|events| - 1];
      FailuresAreTrailing(events[..|events| - 1], service, cooldown);
      var n := Next(s, e, cooldown);
      if n.history != s.history {
        var added := n.history[|s.history|];
        assert n.history == s.history + [added];
        PolledMore(s.history, added, service);
        OneMoreRepair(Polled(s.history, service), added);
      }
    }
  }

  lemma NoFailures(service: Service)
    ensures FailedAtEnd(Polled([], service)) == 0
  {
  }

  lemma OneMoreRepair(repairs: seq<Entry>, e: Entry)
    ensures FailedAtEnd(repairs + [e]) == if e.success then 0 else FailedAtEnd(repairs) + 1
  {
    assert (repairs + [e])[..|repairs|] == repairs;
  }

  // -------------------------------------------------------------------- the code

  /** What a health check answers; for an unhealthy service, the clock when its
      cooldown is read and what its repair answers if it is made. */
  datatype Health = CheckRaises | Healthy | Unhealthy(now: Time, stamp: Time, success: bool)

  /** The polls of one cycle over the services. */
  function CycleEvents(names: seq<Service>, checks: seq<Health>): seq<Event>
    requires |names| == |checks|
  {
    if names == [] then []
    else
      var before, k := CycleEvents(names[..|names| - 1], checks[..|checks| - 1]), |names| - 1;
      if !checks[k].Unhealthy? then before
      else before + [Check(names[k], checks[k].now)] + [Finish(checks[k].stamp, checks[k].success)]
  }

  function Follow(s: State, events: seq<Event>, cooldown: nat): State {
    if events == [] then s else Next(Follow(s, events[..|events| - 1], cooldown), events[|events| - 1], cooldown)
  }

  lemma FollowOne(s: State, events: seq<Event>, e: Event, cooldown: nat)
    ensures Follow(s, events + [e], cooldown) == Next(Follow(s, events, cooldown), e, cooldown)
  {
    assert (events + [e])[..|events|] == events;
  }

  /** What a cycle does for one service, from its own check alone: an unhealthy one
      whose last repair is a cooldown ago, or that had none, gets one repair, with
      its start, its time and its success; any other is left alone. */
  ghost predicate ServedSo(s: State, n: State, service: Service, c: Health, cooldown: nat) {
    if c.Unhealthy? && (service !in s.last || c.now - s.last[service] >= cooldown) then
      && service in n.last && n.last[service] == c.stamp
      && Count(n, service) == (if c.success then 0 else Count(s, service) + 1)
      && Polled(n.history, service) == Polled(s.history, service) + [Entry(service, c.now, c.stamp, c.success, true)]
    else LeftAlone(s, n, service)
  }

  ghost predicate LeftAlone(s: State, n: State, service: Service) {
    && (service in n.last <==> service in s.last) && (service in s.last ==> n.last[service] == s.last[service])
    && Count(n, service) == Count(s, service) && Polled(n.history, service) == Polled(s.history, service)
  }

  /** The state after one check, with its repair. */
  function AfterCheck(s: State, service: Service, c: Health, cooldown: nat): State {
    if !c.Unhealthy? then s else Next(Next(s, Check(service, c.now), cooldown), Finish(c.stamp, c.success), cooldown)
  }

  lemma OneCheckServes(s: State, service: Service, c: Health, cooldown: nat, other: Service)
    requires s.inHand.None?
    ensures var n := AfterCheck(s, service, c, cooldown);
      n.inHand.None? && if other == service then ServedSo(s, n, service, c, cooldown) else LeftAlone(s, n, other)
  {
    hide Polled;
    var n := AfterCheck(s, service, c, cooldown);
    if n.history != s.history { PolledMore(s.history, n.history[|s.history|], other); }
  }

  lemma CycleStep(s: State, names: seq<Service>, checks: seq<Health>, cooldown: nat)
    requires |names| == |checks| && names != []
    ensures var k := |names| - 1;
      Follow(s, CycleEvents(names, checks), cooldown) ==
        AfterCheck(Follow(s, CycleEvents(names[..k], checks[..k]), cooldown), names[k], checks[k], cooldown)
  {
    hide Next;
    var k := |names| - 1;
    var before := CycleEvents(names[..k], checks[..k]);
    if checks[k].Unhealthy? {
      FollowOne(s, before, Check(names[k], checks[k].now), cooldown);
      FollowOne(s, before + [Check(names[k], checks[k].now)], Finish(checks[k].stamp, checks[k].success), cooldown);
    }
  }

  /** A cycle over distinct services serves each of them so, whatever the checks of the
      others come to: one that raises keeps none behind it from being served. */
  lemma {:induction false} CycleServesEach(
      s: State, names: seq<Service>, checks: seq<Health>, cooldown: nat, service: Service)
    requires |names| == |checks| && s.inHand.None?
    requires forall i, j :: 0 <= i < j < |names| ==> names[i] != names[j]
    ensures var n := Follow(s, CycleEvents(names, checks), cooldown);
      && n.inHand.None? && (service !in names ==> LeftAlone(s, n, service))
      && forall k :: 0 <= k < |names| && names[k] == service ==> ServedSo(s, n, service, checks[k], cooldown)
  {
    hide Polled, AfterCheck;
    if names != [] {
      var k := |names| - 1;
      CycleServesEach(s, names[..k], checks[..k], cooldown, service);
      CycleStep(s, names, checks, cooldown);
      var before := Follow(s, CycleEvents(names[..k], checks[..k]), cooldown);
      OneCheckServes(before, names[k], checks[k], cooldown, service);
      hide Follow, CycleEvents;
      assert service in names <==> service in names[..k] || service == names[k];
      assert forall i :: 0 <= i < k ==> names[..k][i] == names[i] && checks[..k][i] == checks[i];
    }
  }

  class Daemon {
    var last: map<Service, Time>
    var failures: map<Service, nat>
    var history: seq<Entry>
    ghost var inHand: Option<Repair>
    const cooldown: nat

    constructor (cooldown: nat)
      ensures Now() == START && this.cooldown == cooldown
    {
      last, failures, history, inHand := map[], map[], [], None;
      this.cooldown := cooldown;
    }

    ghost function Now(): State
      reads this
    {
      State(last, failures, history, inHand)
    }

    /** `should_repair`, up to the start of the repair. */
    method BeginRepair(service: Service, now: Time) returns (due: bool)
      requires inHand == None
      modifies this`inHand
      ensures Now() == Next(old(Now()), Check(service, now), cooldown)
      ensures due <==> ShouldRepair(old(Now()), service, now, cooldown)
      ensures inHand == if due then Some(Repair(service, now)) else None
    {
      due := service !in last || now - last[service] >= cooldown;
      if due { inHand := Some(Repair(service, now)); }
    }

    /** The records of a repair that was made; the third failure in a row alerts. */
    method EndRepair(service: Service, start: Time, stamp: Time, success: bool) returns (alert: bool)
      requires inHand == Some(Repair(service, start))
      modifies this
      ensures Now() == Next(old(Now()), Finish(stamp, success), cooldown) && inHand == None
      ensures alert <==> !success && Count(Now(), service) >= 3
    {
      history := history + [Entry(service, start, stamp, success, true)];
      last := last[service := stamp];
      if success {
        failures := failures[service := 0];
      } else {
        failures := failures[service := (if service in failures then failures[service] else 0) + 1];
      }
      inHand := None;
      alert := !success && failures[service] >= 3;
    }

    /** `perform_health_check_and_repair`, while no alert comes in: a check that
        raises does not keep the cycle from the other services. */
    method Cycle(names: seq<Service>, checks: seq<Health>)
      requires |names| == |checks| && inHand == None
      modifies this
      ensures Now() == Follow(old(Now()), CycleEvents(names, checks), cooldown) && inHand == None
      ensures (forall i, j :: 0 <= i < j < |names| ==> names[i] != names[j]) ==>
        forall k :: 0 <= k < |names| ==> ServedSo(old(Now()), Now(), names[k], checks[k], cooldown)
    {
      var i := 0;
      while i < |names|
        invariant 0 <= i <= |names| && inHand == None
        invariant Now() == Follow(old(Now()), CycleEvents(names[..i], checks[..i]), cooldown)
      {
        assert names[..i + 1][..i] == names[..i] && checks[..i + 1][..i] == checks[..i];
        if checks[i].Unhealthy? {
          ghost var before := CycleEvents(names[..i], checks[..i]);
          ghost var check, finish := Check(names[i], checks[i].now), Finish(checks[i].stamp, checks[i].success);
          FollowOne(old(Now()), before, check, cooldown);
          FollowOne(old(Now()), before + [check], finish, cooldown);
          var due := BeginRepair(names[i], checks[i].now);
          if due {
            var alert := EndRepair(names[i], checks[i].now, checks[i].stamp, checks[i].success);
          }
        }
        i := i + 1;
      }
      assert names[..i] == names && checks[..i] == checks;
      if forall i, j :: 0 <= i < j < |names| ==> names[i] != names[j] {
        forall k | 0 <= k < |names| ensures ServedSo(old(Now()), Now(), names[k], checks[k], cooldown) {
          CycleServesEach(old(Now()), names, checks, cooldown, names[k]);
        }
      }
    }

    /** The subscriber's record of a routed repair. */
    method Record(service: Service, stamp: Time, success: bool)
      modifies this
      ensures Now() == Next(old(Now()), Routed(service, stamp, success), cooldown)
    {
      history := history + [Entry(service, stamp, stamp, success, false)];
      last := last[service := stamp];
    }
  }
}
