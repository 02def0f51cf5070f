/** agents/kay_service.py: the companion's experience, level, streak and
    achievements over a history of awards. */
module Buddy {
  import opened Wrappers

  const THRESHOLDS: seq<int> := [
    0, 10, 20, 50, 100, 200, 350, 550, 800, 1100,
    1500, 2000, 2700, 3600, 4800, 6300, 8200, 10600,
    13700, 17600, 22600]

  const MAX_LEVEL: nat := 20

  /** The level of each evolution stage from the first on. */
  const EVOLUTION_LEVELS: seq<nat> := [5, 10, 15]

  type Event = string

  const XP_AWARDS: map<Event, nat> := map[
    "message_sent" := 2, "response_received" := 1, "task_completed" := 10, "error_resolved" := 8,
    "tool_use" := 3, "daily_login" := 15]

  function Gain(event: Event): nat {
    if event in XP_AWARDS then XP_AWARDS[event] else 1
  }

  // --------------------------------------------------------------------- levels

  function Threshold(level: nat): int
    requires level <= MAX_LEVEL
  {
    THRESHOLDS[level]
  }

  /** The scan of `_level_for_xp`, from `level` downwards. */
  function LevelFrom(xp: int, level: nat): (r: nat)
    requires level <= MAX_LEVEL
    ensures r <= level && (r > 0 ==> Threshold(r) <= xp)
    ensures forall k: nat :: r < k <= level ==> xp < Threshold(k)
  {
    if xp >= Threshold(level) || level == 0 then level else LevelFrom(xp, level - 1)
  }

  function LevelForXp(xp: int): (r: nat)
    ensures r <= MAX_LEVEL
  {
    LevelFrom(xp, MAX_LEVEL)
  }

  function XpForNextLevel(level: nat): int {
    if level >= MAX_LEVEL then Threshold(MAX_LEVEL) else Threshold(level + 1)
  }

  /** The loop of `_evolution_stage` over the first `n` milestones. */
  function StageUpTo(level: nat, n: nat): nat
    requires n <= |EVOLUTION_LEVELS|
  {
    if n == 0 then 0
    else if level >= EVOLUTION_LEVELS[n - 1] then n
    else StageUpTo(level, n - 1)
  }

  function EvolutionStage(level: nat): nat {
    StageUpTo(level, |EVOLUTION_LEVELS|)
  }

  lemma {:induction false} ThresholdsGrow(j: nat, k: nat)
    requires j < k <= MAX_LEVEL
    ensures Threshold(j) < Threshold(k)
  {
    if j + 1 < k { ThresholdsGrow(j, k - 1); }
  }

  /** The level is the greatest whose threshold is reached. */
  lemma LevelIsGreatest(xp: int, k: nat)
    requires k <= MAX_LEVEL
    ensures xp >= 0 ==> Threshold(LevelForXp(xp)) <= xp
    ensures k <= LevelForXp(xp) <==> k == 0 || Threshold(k) <= xp
  {
    var level := LevelForXp(xp);
    if 0 < k < level { ThresholdsGrow(k, level); }
  }

  /** More experience never lowers the level or the stage, and raises the level
      exactly when a threshold above the first is passed on the way. */
  lemma LevelsRise(oldXp: int, newXp: int)
    requires oldXp <= newXp
    ensures LevelForXp(oldXp) <= LevelForXp(newXp)
      && EvolutionStage(LevelForXp(oldXp)) <= EvolutionStage(LevelForXp(newXp))
    ensures LevelForXp(newXp) > LevelForXp(oldXp) <==>
      exists k: nat :: 0 < k <= MAX_LEVEL && oldXp < Threshold(k) <= newXp
  {
    hide LevelForXp, EvolutionStage, Threshold;
    var oldLevel, newLevel := LevelForXp(oldXp), LevelForXp(newXp);
    LevelIsGreatest(oldXp, oldLevel);
    LevelIsGreatest(newXp, oldLevel);
    StagesRise(oldLevel, newLevel);
    if newLevel > oldLevel {
      LevelIsGreatest(oldXp, newLevel);
      LevelIsGreatest(newXp, newLevel);
      assert oldXp < Threshold(newLevel) <= newXp;
    }
    if k: nat :| 0 < k <= MAX_LEVEL && oldXp < Threshold(k) <= newXp {
      LevelIsGreatest(oldXp, k);
      LevelIsGreatest(newXp, k);
    }
  }

  lemma StagesRise(from: nat, level: nat)
    requires from <= level
    ensures EvolutionStage(from) <= EvolutionStage(level)
  {
    StageCounts(from);
    StageCounts(level);
  }

  /** The stage is the number of milestones reached. */
  lemma StageCounts(level: nat)
    ensures EvolutionStage(level) == |set i: nat | i < |EVOLUTION_LEVELS| && EVOLUTION_LEVELS[i] <= level|
    ensures EvolutionStage(level) == if level < 5 then 0 else if level < 10 then 1 else if level < 15 then 2 else 3
  {
    var reached := set i: nat | i < |EVOLUTION_LEVELS| && EVOLUTION_LEVELS[i] <= level;
    assert reached == if level < 5 then {} else if level < 10 then {0} else if level < 15 then {0, 1} else {0, 1, 2};
    assert StageUpTo(level, 0) == 0;
    assert StageUpTo(level, 1) == if level >= 5 then 1 else 0;
    assert StageUpTo(level, 2) == if level >= 10 then 2 else StageUpTo(level, 1);
  }

  /** Below the last level the next threshold is still ahead. */
  lemma NextLevelIsAhead(xp: int)
    ensures LevelForXp(xp) < MAX_LEVEL ==> xp < XpForNextLevel(LevelForXp(xp))
    ensures LevelForXp(xp) == MAX_LEVEL ==> XpForNextLevel(LevelForXp(xp)) <= xp
  {
  }

  // --------------------------------------------------------------------- awards

  /** The stored state. Days are numbered; `lastActive` is None before the first. */
  datatype State = State(
    xp: int, level: nat, stage: nat, xpNext: int, streak: nat, lastActive: Option<int>, pets: nat, hatched: bool)

  function StreakOn(s: State, day: int): nat {
    if s.lastActive == Some(day) then s.streak
    else if s.lastActive == Some(day - 1) then s.streak + 1
    else 1
  }

  function Award(s: State, event: Event, day: int): State {
    var xp := s.xp + Gain(event);
    var level := LevelForXp(xp);
    s.(xp := xp, level := level, stage := EvolutionStage(level), xpNext := XpForNextLevel(level),
       streak := StreakOn(s, day), lastActive := Some(day))
  }

  datatype Awarded = Awarded(event: Event, day: int)

  function Run(s: State, awards: seq<Awarded>): State {
    if awards == [] then s
    else Award(Run(s, awards[..|awards| - 1]), awards[|awards| - 1].event, awards[|awards| - 1].day)
  }

  function Gains(awards: seq<Awarded>): nat {
    if awards == [] then 0 else Gains(awards[..|awards| - 1]) + Gain(awards[|awards| - 1].event)
  }

  /** Experience is conserved: what there was and every award. The other fields
      follow from it. */
  lemma {:induction false} XpAddsUp(s: State, awards: seq<Awarded>)
    ensures Run(s, awards).xp == s.xp + Gains(awards)
    ensures awards != [] ==>
      var now := Run(s, awards);
      now.level == LevelForXp(now.xp) && now.stage == EvolutionStage(now.level)
        && now.xpNext == XpForNextLevel(now.level)
  {
    hide LevelForXp, EvolutionStage, XpForNextLevel, Gain;
    if awards != [] { XpAddsUp(s, awards[..|awards| - 1]); }
  }

  /** Over any history, level and stage never go down once they agree with the
      experience. */
  lemma {:induction false} NeverDown(s: State, awards: seq<Awarded>, k: nat)
    requires k <= |awards| && s.level == LevelForXp(s.xp) && s.stage == EvolutionStage(s.level)
    ensures Run(s, awards[..k]).level <= Run(s, awards).level && Run(s, awards[..k]).stage <= Run(s, awards).stage
  {
    hide LevelForXp, EvolutionStage, XpForNextLevel;
    if k == |awards| {
      assert awards[..k] == awards;
    } else {
      var before := awards[..|awards| - 1];
      assert before[..k] == awards[..k];
      NeverDown(s, before, k);
      XpAddsUp(s, before);
      LevelsRise(Run(s, before).xp, Run(s, awards).xp);
    }
  }

  // -------------------------------------------------------------------- streaks

  ghost predicate Ordered(awards: seq<Awarded>) {
    forall i, j :: 0 <= i < j < |awards| ==> awards[i].day <= awards[j].day
  }

  function ActiveDays(awards: seq<Awarded>): set<int> {
    set a | a in awards :: a.day
  }

  /** The `n` days up to `last` are active and the one before them is not. */
  ghost predicate MaximalRun(days: set<int>, last: int, n: nat) {
    n > 0 && (forall d :: last - n < d <= last ==> d in days) && last - n !in days
  }

  lemma RunGrows(days: set<int>, last: int, n: nat, day: int)
    requires MaximalRun(days, last, n) && last <= day && forall d :: d in days ==> d <= last
    ensures MaximalRun(days + {day}, day, if day == last then n else if day == last + 1 then n + 1 else 1)
  {
  }

  lemma DaysMore(awards: seq<Awarded>, a: Awarded)
    ensures ActiveDays(awards + [a]) == ActiveDays(awards) + {a.day}
  {
    assert forall x :: x in awards + [a] <==> x in awards || x == a;
  }

  lemma LastIsLatest(awards: seq<Awarded>, d: int)
    requires Ordered(awards) && awards != [] && d in ActiveDays(awards)
    ensures d <= awards[|awards| - 1].day
  {
    var i :| 0 <= i < |awards| && awards[i].day == d;
  }

  /** With days that never go back, the streak is the length of the maximal run of
      consecutive active days that ends with the last active one. */
  lemma {:induction false} StreakIsMaximalRun(s: State, awards: seq<Awarded>)
    requires s.lastActive == None && Ordered(awards) && awards != []
    ensures var last := awards[|awards| - 1].day;
      Run(s, awards).lastActive == Some(last) && MaximalRun(ActiveDays(awards), last, Run(s, awards).streak)
  {
    hide LevelForXp, EvolutionStage, XpForNextLevel, Gain, ActiveDays, MaximalRun;
    var before, a := awards[..|awards| - 1], awards[|awards| - 1];
    assert awards == before + [a];
    DaysMore(before, a);
    if before == [] {
      FirstDay(a.day);
    } else {
      StreakIsMaximalRun(s, before);
      var last := before[|before| - 1].day;
      forall d | d in ActiveDays(before) ensures d <= last { LastIsLatest(before, d); }
      assert last == awards[|before| - 1].day <= a.day;
      RunGrows(ActiveDays(before), last, Run(s, before).streak, a.day);
    }
  }

  lemma FirstDay(day: int)
    ensures ActiveDays([]) == {} && MaximalRun({} + {day}, day, 1)
  {
  }

  /** There is only one such length. */
  lemma MaximalRunIsUnique(days: set<int>, last: int, n: nat, m: nat)
    requires MaximalRun(days, last, n) && MaximalRun(days, last, m)
    ensures n == m
  {
    assert n < m ==> last - n in days;
    assert m < n ==> last - m in days;
  }

  // --------------------------------------------------------------- achievements

  datatype Achievement =
    FirstHatch | Pet10 | Pet100 | Level5 | Level10 | Level20 | Streak3 | Streak7 | Streak30

  const ACHIEVEMENTS: seq<Achievement> :=
    [FirstHatch, Pet10, Pet100, Level5, Level10, Level20, Streak3, Streak7, Streak30]

  predicate Deserves(s: State, id: Achievement) {
    match id
    case FirstHatch => s.hatched
    case Pet10 => s.pets >= 10
    case Pet100 => s.pets >= 100
    case Level5 => s.level >= 5
    case Level10 => s.level >= 10
    case Level20 => s.level >= 20
    case Streak3 => s.streak >= 3
    case Streak7 => s.streak >= 7
    case Streak30 => s.streak >= 30
  }

  function Rank(id: Achievement): (i: nat)
    ensures i < |ACHIEVEMENTS| && ACHIEVEMENTS[i] == id
  {
    match id
    case FirstHatch => 0
    case Pet10 => 1
    case Pet100 => 2
    case Level5 => 3
    case Level10 => 4
    case Level20 => 5
    case Streak3 => 6
    case Streak7 => 7
    case Streak30 => 8
  }

  lemma RankOf(i: nat)
    requires i < |ACHIEVEMENTS|
    ensures Rank(ACHIEVEMENTS[i]) == i
  {
  }

  /** What `_check_achievements` returns and the table it leaves. */
  ghost predicate Checked(s: State, earned: set<Achievement>, news: seq<Achievement>, now: set<Achievement>) {
    && (forall id :: id in now <==> id in earned || Deserves(s, id))
    && (forall id :: id in news <==> id in now && id !in earned)
    && (forall i, j :: 0 <= i < j < |news| ==> news[i] != news[j])
  }

  /** The table after a history, every award followed by its check. */
  ghost function Earned(s: State, awards: seq<Awarded>): set<Achievement> {
    if awards == [] then {}
    else Earned(s, awards[..|awards| - 1]) + set id: Achievement | Deserves(Run(s, awards), id)
  }

  /** An achievement is in the table exactly when it was deserved after some award,
      however the state went on. */
  lemma {:induction false} EarnedIff(s: State, awards: seq<Awarded>, id: Achievement)
    ensures id in Earned(s, awards) <==> exists k :: 0 < k <= |awards| && Deserves(Run(s, awards[..k]), id)
  {
    hide Run, Deserves;
    if awards != [] {
      var before := awards[..|awards| - 1];
      EarnedIff(s, before, id);
      assert awards[..|awards|] == awards;
      assert forall k :: 0 <= k <= |before| ==> before[..k] == awards[..k];
      if id in Earned(s, awards) && id !in Earned(s, before) {
        assert Deserves(Run(s, awards[..|awards|]), id);
      }
    }
  }

  /** A level's badge is held exactly while the level is: neither is ever lost. */
  lemma LevelBadges(s: State, awards: seq<Awarded>, id: Achievement)
    requires s.level == LevelForXp(s.xp) && s.stage == EvolutionStage(s.level)
    requires id == Level5 || id == Level10 || id == Level20
    ensures id in Earned(s, awards) <==> awards != [] && Deserves(Run(s, awards), id)
  {
    EarnedIff(s, awards, id);
    hide Run, Earned, LevelForXp, EvolutionStage;
    if id in Earned(s, awards) {
      var k :| 0 < k <= |awards| && Deserves(Run(s, awards[..k]), id);
      NeverDown(s, awards, k);
    } else if awards != [] {
      assert awards[..|awards|] == awards;
    }
  }

  /** The stored companion and the table of achievements. */
  class Companion {
    var state: State
    var earned: set<Achievement>

    constructor (s: State)
      ensures state == s && earned == {}
    {
      state, earned := s, {};
    }

    /** `_check_achievements`: all that is deserved is earned, and reported exactly
        once, when it was not yet. */
    method CheckAchievements() returns (news: seq<Achievement>)
      modifies this`earned
      ensures Checked(state, old(earned), news, earned)
      ensures FirstHatch in earned <==> FirstHatch in old(earned) || state.hatched
      ensures Pet10 in earned <==> Pet10 in old(earned) || state.pets >= 10
      ensures Pet100 in earned <==> Pet100 in old(earned) || state.pets >= 100
      ensures Level5 in earned <==> Level5 in old(earned) || state.level >= 5
      ensures Level10 in earned <==> Level10 in old(earned) || state.level >= 10
      ensures Level20 in earned <==> Level20 in old(earned) || state.level >= 20
      ensures Streak3 in earned <==> Streak3 in old(earned) || state.streak >= 3
      ensures Streak7 in earned <==> Streak7 in old(earned) || state.streak >= 7
      ensures Streak30 in earned <==> Streak30 in old(earned) || state.streak >= 30
    {
      news := [];
      var existing := earned;
      var i := 0;
      while i < |ACHIEVEMENTS|
        invariant 0 <= i <= |ACHIEVEMENTS|
        invariant forall id :: id in earned <==> id in existing || (Rank(id) < i && Deserves(state, id))
        invariant forall id :: id in news <==> id !in existing && Rank(id) < i && Deserves(state, id)
        invariant forall j, k :: 0 <= j < k < |news| ==> news[j] != news[k]
      {
        var id := ACHIEVEMENTS[i];
        RankOf(i);
        if Deserves(state, id) && id !in existing {
          earned := earned + {id};
          news := news + [id];
        }
        i := i + 1;
      }
    }

    /** `award_xp`. */
    method AwardXp(event: Event, today: int) returns (leveledUp: bool, news: seq<Achievement>)
      modifies this
      ensures state == Award(old(state), event, today)
      ensures state.xp == old(state).xp + if event in XP_AWARDS then XP_AWARDS[event] else 1
      ensures state.level == LevelForXp(state.xp)
      ensures state.stage == EvolutionStage(state.level) && state.xpNext == XpForNextLevel(state.level)
      ensures state.pets == old(state).pets && state.hatched == old(state).hatched
      ensures state.lastActive == Some(today)
      ensures old(state).lastActive == Some(today) ==> state.streak == old(state).streak
      ensures old(state).lastActive == Some(today - 1) ==> state.streak == old(state).streak + 1
      ensures old(state).lastActive != Some(today) && old(state).lastActive != Some(today - 1) ==> state.streak == 1
      ensures leveledUp <==> exists k: nat :: 0 < k <= MAX_LEVEL && old(state).xp < Threshold(k) <= state.xp
      ensures Checked(state, old(earned), news, earned)
    {
      hide LevelForXp, EvolutionStage, XpForNextLevel, Checked, Deserves;
      var oldXp := state.xp;
      var newXp := oldXp + Gain(event);
      LevelsRise(oldXp, newXp);
      var newLevel := LevelForXp(newXp);
      leveledUp := newLevel > LevelForXp(oldXp);
      state := state.(
        xp := newXp, level := newLevel, stage := EvolutionStage(newLevel), xpNext := XpForNextLevel(newLevel));
      if state.lastActive != Some(today) {
        if state.lastActive == Some(today - 1) {
          state := state.(streak := state.streak + 1);
        } else {
          state := state.(streak := 1);
        }
        state := state.(lastActive := Some(today));
      }
      news := CheckAchievements();
    }
  }
}
