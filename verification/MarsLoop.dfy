/** agents/mars_loop.py: best-of-N drafts, then verify and correct in rounds. The
    agents and the clock are oracles, asked by the number of the call. */
module MarsLoop {
  import opened Wrappers

  datatype Verdict = Verdict(passed: bool, score: real)

  datatype Call<+T> = Returned(value: T) | TimedOut | Raised

  /** `late(k)` is what the k-th check of the overall budget finds. */
  datatype Agents = Agents(
    solve: nat -> Call<string>,
    verify: (nat, string) -> Call<Verdict>,
    correct: (nat, string) -> Call<string>,
    late: nat -> bool)

  /** The counts as given by the caller; None and 0 mean 1. */
  datatype Settings = Settings(maxIter: int, drafts: Option<int>, runs: Option<int>, passes: Option<int>)

  function Clamp(given: Option<int>, most: int): int {
    var n := if given.None? || given.value == 0 then 1 else given.value;
    var capped := if n < most then n else most;
    if capped > 1 then capped else 1
  }

  /** The clamped counts are in range, and a count already in range is kept. */
  lemma ClampKeepsRange(given: Option<int>, most: int)
    requires most >= 1
    ensures 1 <= Clamp(given, most) <= most
    ensures given.Some? && 1 <= given.value <= most ==> Clamp(given, most) == given.value
    ensures Clamp(Some(Clamp(given, most)), most) == Clamp(given, most)
  {
  }

  /** A count as given, within its range: none and 0 mean 1, as does a negative one,
      and too many are the most there may be. */
  ghost predicate CountFor(given: Option<int>, most: int, n: int) {
    match given
    case None => n == 1
    case Some(v) => (v < 1 ==> n == 1) && (1 <= v <= most ==> n == v) && (v > most ==> n == most)
  }

  // ---------------------------------------------------------------- best of N

  datatype Draft = Draft(text: string, verdict: Option<Verdict>)

  /** A draft whose check fails to answer does not pass. */
  function DraftVote(c: Call<Verdict>): Verdict {
    if c.Returned? then c.value else Verdict(false, 0.0)
  }

  function DraftText(c: Call<string>): string {
    if c.Returned? then c.value else ""
  }

  function DraftAt(a: Agents, n: int, i: nat): Draft {
    var text := DraftText(a.solve(i));
    Draft(text, if n > 1 then Some(DraftVote(a.verify(i, text))) else None)
  }

  /** The drafts made: all of them, or those up to the first late check. */
  ghost predicate DraftsMade(a: Agents, n: int, ds: seq<Draft>): (r: bool)
    ensures r ==> ds != [] && (n > 1 ==> forall i :: 0 <= i < |ds| ==> ds[i].verdict.Some?)
  {
    && 1 <= |ds| <= n
    && (forall i :: 0 <= i < |ds| ==> ds[i] == DraftAt(a, n, i) && !a.solve(i).Raised?)
    && (forall i :: 0 <= i < |ds| - 1 ==> !a.late(i)) && (|ds| < n ==> a.late(|ds| - 1))
  }

  /** The solver raised on a draft that the clock let it come to. */
  ghost predicate SolverFails(a: Agents, n: int) {
    exists i: nat :: i < n && a.solve(i).Raised? && forall j: nat :: j < i ==> !a.solve(j).Raised? && !a.late(j)
  }

  /** The solver's answer, or nothing if it took too long; of several drafts each is
      checked by itself, and fails if the check does not answer. */
  ghost predicate DraftIs(a: Agents, n: int, i: nat, d: Draft) {
    && (a.solve(i).Returned? ==> d.text == a.solve(i).value) && (a.solve(i).TimedOut? ==> d.text == "")
    && (n <= 1 ==> d.verdict == None)
    && (n > 1 ==>
          var check := a.verify(i, d.text);
          d.verdict == Some(if check.Returned? then check.value else Verdict(false, 0.0)))
  }

  lemma DraftAtIs(a: Agents, n: int, i: nat)
    ensures DraftIs(a, n, i, DraftAt(a, n, i)) || a.solve(i).Raised?
  {
  }

  method MakeDrafts(a: Agents, n: int) returns (r: Option<seq<Draft>>)
    requires n >= 1
    ensures r.None? ==> SolverFails(a, n)
    ensures r.Some? ==> DraftsMade(a, n, r.value) && !SolverFails(a, n)
    ensures r.Some? ==> forall i :: 0 <= i < |r.value| ==> DraftIs(a, n, i, r.value[i])
  {
    hide DraftIs;
    var ds: seq<Draft> := [];
    while |ds| < n
      invariant |ds| <= n
      invariant forall i :: 0 <= i < |ds| ==> ds[i] == DraftAt(a, n, i) && !a.solve(i).Raised? && !a.late(i)
    {
      var i := |ds|;
      var draft := a.solve(i);
      if draft.Raised? { return None; }
      var text := if draft.TimedOut? then "" else draft.value;
      if n > 1 {
        var check := a.verify(i, text);
        var verdict := if check.Returned? then check.value else Verdict(false, 0.0);
        ds := ds + [Draft(text, Some(verdict))];
      } else {
        ds := ds + [Draft(text, None)];
      }
      if a.late(i) { break; }
    }
    r := Some(ds);
    forall i | 0 <= i < |ds| ensures DraftIs(a, n, i, ds[i]) { DraftAtIs(a, n, i); }
  }

  predicate Better(v: Verdict, w: Verdict) {
    (v.passed && !w.passed) || (v.passed == w.passed && v.score > w.score)
  }

  /** The first of the best drafts: `scored.sort(..., reverse=True)[0]`. */
  function Winner(vs: seq<Verdict>): (w: nat)
    requires vs != []
    ensures w < |vs|
    ensures forall i :: 0 <= i < |vs| ==> !Better(vs[i], vs[w])
    ensures forall i :: 0 <= i < w ==> Better(vs[w], vs[i])
  {
    if |vs| == 1 then 0
    else
      var w := Winner(vs[..|vs| - 1]);
      if Better(vs[|vs| - 1], vs[w]) then |vs| - 1 else w
  }

  /** An arrangement of the drafts, best first, in which equals keep their order:
      what a stable descending sort returns. */
  ghost predicate StableDescending(vs: seq<Verdict>, order: seq<nat>) {
    && |order| == |vs| && (forall i :: 0 <= i < |order| ==> order[i] < |vs|)
    && (forall k: nat :: k < |vs| ==> k in order)
    && (forall i, j :: 0 <= i < j < |order| ==>
          Better(vs[order[i]], vs[order[j]]) || (!Better(vs[order[j]], vs[order[i]]) && order[i] < order[j]))
  }

  /** Whatever the sort, its head is the earliest draft that no draft beats. */
  lemma HeadIsWinner(vs: seq<Verdict>, order: seq<nat>)
    requires vs != [] && StableDescending(vs, order)
    ensures order[0] == Winner(vs)
  {
    var w := Winner(vs);
    assert w in order;
    var i :| 0 <= i < |order| && order[i] == w;
  }

  /** It passes if any draft does, and of those like it none scores higher, and none
      before it as high. */
  lemma WinnerIsBest(vs: seq<Verdict>, i: nat)
    requires i < |vs|
    ensures vs[i].passed ==> vs[Winner(vs)].passed
    ensures vs[i].passed == vs[Winner(vs)].passed ==> vs[i].score <= vs[Winner(vs)].score
    ensures vs[i].passed == vs[Winner(vs)].passed && i < Winner(vs) ==> vs[i].score < vs[Winner(vs)].score
  {
    assert !Better(vs[i], vs[Winner(vs)]);
  }

  function Verdicts(ds: seq<Draft>): seq<Verdict>
    requires forall i :: 0 <= i < |ds| ==> ds[i].verdict.Some?
  {
    seq(|ds|, i requires 0 <= i < |ds| => ds[i].verdict.value)
  }

  /** The draft the rounds start from. */
  function Chosen(n: int, ds: seq<Draft>): Draft
    requires ds != [] && (n > 1 ==> forall i :: 0 <= i < |ds| ==> ds[i].verdict.Some?)
  {
    if n > 1 then ds[Winner(Verdicts(ds))] else ds[0]
  }

  /** The first draft, or the best of several: it passes if any does, and scores
      highest of those like it. */
  ghost predicate BestOf(n: int, ds: seq<Draft>, w: nat) {
    && w < |ds| && (n <= 1 ==> w == 0)
    && (n > 1 ==> ds[w].verdict.Some?)
    && (n > 1 ==> forall i :: 0 <= i < |ds| && ds[i].verdict.Some? ==>
          NoBetter(ds[i].verdict.value, ds[w].verdict.value, i < w))
  }

  predicate NoBetter(v: Verdict, best: Verdict, sooner: bool) {
    && (v.passed ==> best.passed) && (v.passed == best.passed ==> v.score <= best.score)
    && (v.passed == best.passed && sooner ==> v.score < best.score)
  }

  lemma ChosenIsBest(n: int, ds: seq<Draft>) returns (w: nat)
    requires ds != [] && (n > 1 ==> forall i :: 0 <= i < |ds| ==> ds[i].verdict.Some?)
    ensures BestOf(n, ds, w) && Chosen(n, ds) == ds[w]
  {
    w := if n > 1 then Winner(Verdicts(ds)) else 0;
    if n > 1 {
      forall i | 0 <= i < |ds| ensures NoBetter(ds[i].verdict.value, ds[w].verdict.value, i < w) {
        WinnerIsBest(Verdicts(ds), i);
      }
    }
  }

  // ------------------------------------------------------------------ verifying

  /** A single check that fails to answer passes with 0.7. */
  function SingleVote(c: Call<Verdict>): Verdict {
    if c.Returned? then c.value else Verdict(true, 0.7)
  }

  /** In a consensus a timeout is a fail, an error a pass. */
  function ConsensusVote(c: Call<Verdict>): Verdict {
    match c
    case Returned(v) => v
    case TimedOut => Verdict(false, 0.0)
    case Raised => Verdict(true, 0.7)
  }

  function Votes(a: Agents, text: string, from: nat, n: nat): seq<Verdict> {
    seq(n, i requires 0 <= i < n => ConsensusVote(a.verify(from + i, text)))
  }

  function Passes(vs: seq<Verdict>): nat {
    if vs == [] then 0 else Passes(vs[..|vs| - 1]) + if vs[|vs| - 1].passed then 1 else 0
  }

  function Total(vs: seq<Verdict>): real {
    if vs == [] then 0.0 else Total(vs[..|vs| - 1]) + vs[|vs| - 1].score
  }

  function Majority(vs: seq<Verdict>): Verdict
    requires vs != []
  {
    Verdict(Passes(vs) as real > |vs| as real / 2.0, Total(vs) / |vs| as real)
  }

  function Fails(vs: seq<Verdict>): nat {
    if vs == [] then 0 else Fails(vs[..|vs| - 1]) + if vs[|vs| - 1].passed then 0 else 1
  }

  lemma OneMore(x: real, n: nat)
    ensures x * (n + 1) as real == x * n as real + x
  {
  }

  lemma {:induction false} PassOrFail(vs: seq<Verdict>)
    ensures Passes(vs) + Fails(vs) == |vs|
  {
    if vs != [] { PassOrFail(vs[..|vs| - 1]); }
  }

  lemma {:induction false} VotesAddUp(vs: seq<Verdict>, low: real, high: real)
    requires forall i :: 0 <= i < |vs| ==> low <= vs[i].score <= high
    ensures low * |vs| as real <= Total(vs) <= high * |vs| as real
  {
    if vs != [] {
      VotesAddUp(vs[..|vs| - 1], low, high);
      OneMore(low, |vs| - 1);
      OneMore(high, |vs| - 1);
    }
  }

  lemma MoreThanHalf(p: nat, f: nat)
    ensures p as real > (p + f) as real / 2.0 <==> p > f
  {
  }

  lemma AverageTimes(total: real, n: real)
    requires n > 0.0
    ensures total / n * n == total
  {
  }

  /** A consensus passes exactly with more passes than fails, so a tie fails, and its
      score is the mean of its votes'. */
  lemma MajorityIs(vs: seq<Verdict>)
    requires vs != []
    ensures Majority(vs).passed <==> Passes(vs) > Fails(vs)
    ensures Majority(vs).score * |vs| as real == Total(vs)
  {
    PassOrFail(vs);
    MoreThanHalf(Passes(vs), Fails(vs));
    AverageTimes(Total(vs), |vs| as real);
    hide Passes, Fails, Total;
  }

  /** So its score is one that its votes' bounds allow. */
  lemma MajorityRules(vs: seq<Verdict>, low: real, high: real)
    requires vs != [] && forall i :: 0 <= i < |vs| ==> low <= vs[i].score <= high
    ensures Majority(vs).passed <==> Passes(vs) > Fails(vs)
    ensures low <= Majority(vs).score <= high
    ensures Majority(vs).score * |vs| as real == Total(vs)
  {
    MajorityIs(vs);
    VotesAddUp(vs, low, high);
    AverageBetween(Total(vs), |vs| as real, low, high);
    hide Passes, Fails, Total;
  }

  lemma AverageBetween(total: real, n: real, low: real, high: real)
    requires n > 0.0 && low * n <= total <= high * n
    ensures low <= total / n <= high
  {
    assert total / n * n == total;
  }

  function Judgement(a: Agents, runs: int, text: string, from: nat): Verdict
    requires runs >= 1
  {
    if runs > 1 then Majority(Votes(a, text, from, runs)) else SingleVote(a.verify(from, text))
  }

  ghost predicate VoteIs(c: Call<Verdict>, v: Verdict) {
    match c
    case Returned(w) => v == w
    case TimedOut => v == Verdict(false, 0.0)
    case Raised => v == Verdict(true, 0.7)
  }

  /** The verdict of `runs` checks of the text, the first of them number `from`: a
      single one as it answers, or else a pass with 0.7; of several the majority,
      with their mean as its score. */
  ghost predicate JudgedBy(a: Agents, runs: int, text: string, from: nat, v: Verdict) {
    if runs == 1 then v == if a.verify(from, text).Returned? then a.verify(from, text).value else Verdict(true, 0.7)
    else exists votes: seq<Verdict> ::
      && |votes| == runs && (forall i :: 0 <= i < runs ==> VoteIs(a.verify(from + i, text), votes[i]))
      && (v.passed <==> Passes(votes) > Fails(votes)) && v.score * runs as real == Total(votes)
  }

  lemma JudgementIs(a: Agents, runs: int, text: string, from: nat)
    requires runs >= 1
    ensures JudgedBy(a, runs, text, from, Judgement(a, runs, text, from))
  {
    if runs > 1 {
      var votes := Votes(a, text, from, runs);
      MajorityIs(votes);
      forall i | 0 <= i < runs ensures VoteIs(a.verify(from + i, text), votes[i]) {
        assert votes[i] == ConsensusVote(a.verify(from + i, text));
      }
    }
  }

  method Judge(a: Agents, runs: int, text: string, from: nat) returns (v: Verdict)
    requires runs >= 1
    ensures v == Judgement(a, runs, text, from)
    ensures JudgedBy(a, runs, text, from, v)
  {
    hide JudgedBy;
    JudgementIs(a, runs, text, from);
    if runs == 1 {
      var c := a.verify(from, text);
      return if c.Returned? then c.value else Verdict(true, 0.7);
    }
    var total, passed, i := 0.0, 0, 0;
    ghost var votes := Votes(a, text, from, runs);
    while i < runs
      invariant 0 <= i <= runs
      invariant total == Total(votes[..i]) && passed == Passes(votes[..i])
    {
      var c := a.verify(from + i, text);
      var vote := if c.Returned? then c.value else if c.TimedOut? then Verdict(false, 0.0) else Verdict(true, 0.7);
      assert votes[..i + 1][..i] == votes[..i] && votes[i] == vote;
      total := total + vote.score;
      if vote.passed { passed := passed + 1; }
      i := i + 1;
    }
    assert votes[..runs] == votes;
    v := Verdict(passed as real > runs as real / 2.0, total / runs as real);
  }

  // ----------------------------------------------------------------- correcting

  /** The text after `n` passes of the corrector, if all of them answer. */
  function Corrected(a: Agents, text: string, from: nat, n: nat): Option<string> {
    if n == 0 then Some(text)
    else
      var before := Corrected(a, text, from, n - 1);
      if before.None? then None
      else
        var c := a.correct(from + n - 1, before.value);
        if c.Returned? then Some(c.value) else None
  }

  /** The text after the passes that answered. */
  function CorrectedSoFar(a: Agents, text: string, from: nat, n: nat): string {
    if Corrected(a, text, from, n).Some? then Corrected(a, text, from, n).value
    else if n == 0 then text else CorrectedSoFar(a, text, from, n - 1)
  }

  lemma {:induction false} NoneStays(a: Agents, text: string, from: nat, n: nat, m: nat)
    requires n <= m && Corrected(a, text, from, n) == None
    ensures Corrected(a, text, from, m) == None
    ensures CorrectedSoFar(a, text, from, m) == CorrectedSoFar(a, text, from, n)
  {
    if n < m { NoneStays(a, text, from, n, m - 1); }
  }

  /** Each pass of the corrector was given what the one before it answered. */
  ghost predicate Chained(a: Agents, from: nat, texts: seq<string>) {
    forall i :: 0 < i < |texts| ==> a.correct(from + i - 1, texts[i - 1]) == Returned(texts[i])
  }

  /** `n` passes lead from the one text to the other. */
  ghost predicate PassesLead(a: Agents, text: string, from: nat, n: nat, revised: string) {
    exists texts: seq<string> :: |texts| == n + 1 && texts[0] == text && texts[n] == revised && Chained(a, from, texts)
  }

  lemma {:induction false} CorrectedIsChained(a: Agents, text: string, from: nat, n: nat) returns (texts: seq<string>)
    requires Corrected(a, text, from, n).Some?
    ensures |texts| == n + 1 && texts[0] == text && Some(texts[n]) == Corrected(a, text, from, n)
      && Chained(a, from, texts)
  {
    if n == 0 {
      texts := [text];
    } else {
      var before := CorrectedIsChained(a, text, from, n - 1);
      texts := before + [Corrected(a, text, from, n).value];
    }
  }

  method Correct(a: Agents, passes: int, text: string, from: nat) returns (ok: bool, revised: string, used: nat)
    requires passes >= 1
    ensures ok <==> Corrected(a, text, from, passes).Some?
    ensures revised == CorrectedSoFar(a, text, from, passes)
    ensures 1 <= used <= passes && (ok ==> used == passes)
    ensures ok ==> PassesLead(a, text, from, passes, revised)
    ensures !ok ==> PassesLead(a, text, from, used - 1, revised) && !a.correct(from + used - 1, revised).Returned?
  {
    revised, used := text, 0;
    while used < passes
      invariant 0 <= used <= passes
      invariant Corrected(a, text, from, used) == Some(revised)
    {
      var c := a.correct(from + used, revised);
      used := used + 1;
      if !c.Returned? {
        NoneStays(a, text, from, used, passes);
        ghost var texts := CorrectedIsChained(a, text, from, used - 1);
        return false, revised, used;
      }
      revised := c.value;
    }
    ghost var texts := CorrectedIsChained(a, text, from, passes);
    ok := true;
  }

  // ------------------------------------------------------------------ the rounds

  /** A verdict and the text it is about. */
  datatype Round = Round(text: string, verdict: Verdict)

  datatype LoopResult = LoopResult(
    response: string, iterations: nat, solverScore: real, correctorInvoked: bool, finalScore: real)

  datatype Counts = Counts(n: int, runs: int, passes: int, maxIter: int)

  /** Each count from its own setting, in its own range. */
  function CountsOf(s: Settings): (c: Counts)
    ensures CountFor(s.drafts, 10, c.n) && CountFor(s.runs, 10, c.runs) && CountFor(s.passes, 5, c.passes)
    ensures c.maxIter == s.maxIter
  {
    Counts(Clamp(s.drafts, 10), Clamp(s.runs, 10), Clamp(s.passes, 5), s.maxIter)
  }

  ghost predicate InRange(c: Counts) {
    1 <= c.n <= 10 && 1 <= c.runs <= 10 && 1 <= c.passes <= 5
  }

  /** The calls made in `k` rounds of `n`. */
  function Calls(k: nat, n: int): (r: int)
    requires n >= 1
    ensures r >= k
  {
    if k == 0 then 0 else Calls(k - 1, n) + n
  }

  /** How often the verifier was asked before the round. */
  function AskedBefore(c: Counts, ds: seq<Draft>, attempt: nat): nat
    requires InRange(c)
  {
    if c.n == 1 then Calls(attempt, c.runs)
    else if c.runs > 1 then |ds| + Calls(attempt, c.runs)
    else |ds| + if attempt == 0 then 0 else attempt - 1
  }

  /** The winner's own check counts for the first round of a single-run verifier, */
  predicate Prechecked(c: Counts, attempt: nat) {
    c.n > 1 && c.runs == 1 && attempt == 0
  }

  /** every other round asks anew. */
  function RoundVerdict(a: Agents, c: Counts, ds: seq<Draft>, attempt: nat, text: string): Verdict
    requires InRange(c) && DraftsMade(a, c.n, ds)
  {
    if Prechecked(c, attempt) then Chosen(c.n, ds).verdict.value
    else Judgement(a, c.runs, text, AskedBefore(c, ds, attempt))
  }

  /** What the corrector makes of the text of the round. */
  function Revision(a: Agents, c: Counts, round: Round, attempt: nat): Option<string>
    requires InRange(c)
  {
    Corrected(a, round.text, Calls(attempt, c.passes), c.passes)
  }

  ghost predicate RoundMade(a: Agents, c: Counts, ds: seq<Draft>, rounds: seq<Round>, i: nat)
    requires InRange(c) && DraftsMade(a, c.n, ds) && i < |rounds|
  {
    && i < c.maxIter && !a.late(|ds| + i)
    && rounds[i].verdict == RoundVerdict(a, c, ds, i, rounds[i].text)
    && if i == 0 then rounds[i].text == Chosen(c.n, ds).text
       else !rounds[i - 1].verdict.passed && Revision(a, c, rounds[i - 1], i - 1) == Some(rounds[i].text)
  }

  /** The rounds made: each verdict is on the text of the last correction, and only
      a failed one, within the attempts and the budget, is followed by another. */
  ghost predicate RoundsMade(a: Agents, c: Counts, ds: seq<Draft>, rounds: seq<Round>) {
    && InRange(c) && DraftsMade(a, c.n, ds)
    && forall i :: 0 <= i < |rounds| ==> RoundMade(a, c, ds, rounds, i)
  }

  function Reward(attempt: nat): real {
    if attempt == 0 then 1.0
    else
      var reward := 1.0 - attempt as real * 0.3;
      if reward > 0.0 then reward else 0.0
  }

  /** Passing late earns less, and from the fifth attempt on nothing. */
  lemma RewardFalls(attempt: nat)
    ensures Reward(attempt) > 0.0 <==> attempt <= 3
    ensures attempt <= 3 ==> Reward(attempt) == 1.0 - 0.3 * attempt as real
    ensures Reward(attempt + 1) <= Reward(attempt)
  {
  }

  datatype Ending = Passed | Exhausted | OutOfTime | CorrectorFailed

  /** The text that the rounds so far leave to the next one. */
  ghost predicate LeavesText(a: Agents, c: Counts, ds: seq<Draft>, rounds: seq<Round>, text: string)
    requires InRange(c) && DraftsMade(a, c.n, ds)
  {
    if rounds == [] then text == Chosen(c.n, ds).text
    else
      var k := |rounds| - 1;
      !rounds[k].verdict.passed && Revision(a, c, rounds[k], k) == Some(text)
  }

  /** How the loop ended, and the text it ended with. */
  ghost predicate EndsWith(a: Agents, c: Counts, ds: seq<Draft>, rounds: seq<Round>, ending: Ending, text: string)
    requires InRange(c) && DraftsMade(a, c.n, ds)
  {
    var k := |rounds|;
    match ending
    case Passed => k > 0 && rounds[k - 1].verdict.passed && text == rounds[k - 1].text
    case Exhausted =>
      k >= c.maxIter &&
      if k == 0 then text == Chosen(c.n, ds).text else !rounds[k - 1].verdict.passed && text == rounds[k - 1].text
    case OutOfTime => k < c.maxIter && a.late(|ds| + k) && LeavesText(a, c, ds, rounds, text)
    case CorrectorFailed =>
      && 0 < k < c.maxIter && !rounds[k - 1].verdict.passed && Revision(a, c, rounds[k - 1], k - 1) == None
      && text == CorrectedSoFar(a, rounds[k - 1].text, Calls(k - 1, c.passes), c.passes)
  }

  lemma RoundAdded(a: Agents, c: Counts, ds: seq<Draft>, rounds: seq<Round>, text: string, v: Verdict)
    requires RoundsMade(a, c, ds, rounds) && LeavesText(a, c, ds, rounds, text)
    requires |rounds| < c.maxIter && !a.late(|ds| + |rounds|) && v == RoundVerdict(a, c, ds, |rounds|, text)
    ensures RoundsMade(a, c, ds, rounds + [Round(text, v)])
  {
    hide DraftsMade, RoundVerdict, Revision;
    var more := rounds + [Round(text, v)];
    forall i | 0 <= i < |more| ensures RoundMade(a, c, ds, more, i) {
      if i < |rounds| { assert RoundMade(a, c, ds, rounds, i); }
    }
  }

  lemma AskedNext(c: Counts, ds: seq<Draft>, attempt: nat)
    requires InRange(c)
    ensures AskedBefore(c, ds, attempt + 1) ==
      AskedBefore(c, ds, attempt) + if Prechecked(c, attempt) then 0 else c.runs
    ensures AskedBefore(c, ds, 0) == if c.n > 1 then |ds| else 0
    ensures Calls(attempt + 1, c.passes) == Calls(attempt, c.passes) + c.passes && Calls(0, c.passes) == 0
  {
  }

  method JudgeRound(a: Agents, c: Counts, ds: seq<Draft>, attempt: nat, response: string, asked: nat)
    returns (v: Verdict, next: nat)
    requires InRange(c) && DraftsMade(a, c.n, ds) && asked == AskedBefore(c, ds, attempt)
    ensures v == RoundVerdict(a, c, ds, attempt, response) && next == AskedBefore(c, ds, attempt + 1)
  {
    hide DraftsMade, Judgement, AskedBefore;
    AskedNext(c, ds, attempt);
    if attempt == 0 && c.n > 1 && c.runs == 1 {
      return Chosen(c.n, ds).verdict.value, asked;
    }
    v := Judge(a, c.runs, response, asked);
    next := asked + c.runs;
  }

  /** The clock is late before the next round, or there is no next round to make. */
  lemma EndsBeforeRound(a: Agents, c: Counts, ds: seq<Draft>, rounds: seq<Round>, text: string)
    requires InRange(c) && DraftsMade(a, c.n, ds) && LeavesText(a, c, ds, rounds, text)
    ensures |rounds| < c.maxIter && a.late(|ds| + |rounds|) ==> EndsWith(a, c, ds, rounds, OutOfTime, text)
    ensures rounds == [] && c.maxIter <= 0 ==> EndsWith(a, c, ds, rounds, Exhausted, text)
  {
    hide DraftsMade, Chosen, Corrected;
  }

  /** The round's verdict ends the loop, or the corrector does, or it goes on. */
  lemma EndsAfterRound(a: Agents, c: Counts, ds: seq<Draft>, rounds: seq<Round>, text: string, v: Verdict)
    requires InRange(c) && DraftsMade(a, c.n, ds) && |rounds| < c.maxIter
    ensures var more, from := rounds + [Round(text, v)], Calls(|rounds|, c.passes);
      && (v.passed ==> EndsWith(a, c, ds, more, Passed, text))
      && (!v.passed && |more| == c.maxIter ==> EndsWith(a, c, ds, more, Exhausted, text))
      && (!v.passed && |more| < c.maxIter ==>
            match Corrected(a, text, from, c.passes)
            case None => EndsWith(a, c, ds, more, CorrectorFailed, CorrectedSoFar(a, text, from, c.passes))
            case Some(revised) =>
              LeavesText(a, c, ds, more, revised) && revised == CorrectedSoFar(a, text, from, c.passes))
  {
    hide DraftsMade, Chosen, Corrected, Calls;
  }

  lemma NoRounds(a: Agents, c: Counts, ds: seq<Draft>)
    requires InRange(c) && DraftsMade(a, c.n, ds)
    ensures RoundsMade(a, c, ds, []) && LeavesText(a, c, ds, [], Chosen(c.n, ds).text)
  {
    hide DraftsMade, Chosen;
  }

  /** One attempt: verify, and unless that ends the loop, correct. */
  method Attempt(a: Agents, c: Counts, ds: seq<Draft>, rounds: seq<Round>, response: string, asked: nat,
      corrections: nat)
    returns (v: Verdict, next: nat, ending: Option<Ending>, revised: string, used: nat)
    requires InRange(c) && DraftsMade(a, c.n, ds)
    requires RoundsMade(a, c, ds, rounds) && LeavesText(a, c, ds, rounds, response)
    requires |rounds| < c.maxIter && !a.late(|ds| + |rounds|)
    requires asked == AskedBefore(c, ds, |rounds|) && corrections == Calls(|rounds|, c.passes)
    ensures RoundsMade(a, c, ds, rounds + [Round(response, v)])
    ensures ending.Some? ==>
      ending.value != OutOfTime && EndsWith(a, c, ds, rounds + [Round(response, v)], ending.value, revised)
    ensures ending.None? ==>
      && LeavesText(a, c, ds, rounds + [Round(response, v)], revised)
      && next == AskedBefore(c, ds, |rounds| + 1) && used == c.passes
    ensures if |rounds| + 1 < c.maxIter && !v.passed then 1 <= used <= c.passes else used == 0
    ensures ending == Some(Passed) ==> v.passed
    ensures ending.None? ==> |rounds| + 1 < c.maxIter
  {
    hide DraftsMade, Corrected, CorrectedSoFar, Calls, AskedBefore, RoundsMade, RoundVerdict, Chosen, EndsWith,
      LeavesText;
    revised, used := response, 0;
    v, next := JudgeRound(a, c, ds, |rounds|, response, asked);
    RoundAdded(a, c, ds, rounds, response, v);
    EndsAfterRound(a, c, ds, rounds, response, v);
    if v.passed {
      ending := Some(Passed);
    } else if |rounds| == c.maxIter - 1 {
      ending := Some(Exhausted);
    } else {
      var ok: bool;
      ok, revised, used := Correct(a, c.passes, response, corrections);
      ending := if ok then None else Some(CorrectorFailed);
    }
  }

  /** Steps 2 and 3 of `run`: what was made, and how it ended. */
  method RunRounds(a: Agents, c: Counts, ds: seq<Draft>)
    returns (r: LoopResult, rounds: seq<Round>, ending: Ending, corrections: nat)
    requires InRange(c) && DraftsMade(a, c.n, ds)
    ensures RoundsMade(a, c, ds, rounds) && EndsWith(a, c, ds, rounds, ending, r.response)
    ensures Reported(c, rounds, ending, corrections, r)
  {
    hide DraftsMade, Calls, AskedBefore, RoundsMade, RoundMade, Chosen, Reward, EndsWith, LeavesText, Winner, Verdicts;
    var response, iterations, finalScore, asked := Chosen(c.n, ds).text, 1, 0.0, if c.n > 1 then |ds| else 0;
    rounds, corrections := [], 0;
    AskedNext(c, ds, 0);
    NoRounds(a, c, ds);
    var attempt := 0;
    while attempt < c.maxIter
      invariant attempt == |rounds| && (attempt > 0 ==> attempt < c.maxIter) && iterations == attempt + 1
      invariant RoundsMade(a, c, ds, rounds) && LeavesText(a, c, ds, rounds, response)
      invariant corrections == Calls(attempt, c.passes) && asked == AskedBefore(c, ds, attempt)
      invariant finalScore == if rounds == [] then 0.0 else rounds[|rounds| - 1].verdict.score
    {
      CallsGrow(attempt, c.maxIter - 1, c.passes);
      AskedNext(c, ds, attempt);
      if a.late(|ds| + attempt) {
        EndsBeforeRound(a, c, ds, rounds, response);
        r := LoopResult(response, iterations, 0.0, corrections > 0, finalScore);
        return r, rounds, OutOfTime, corrections;
      }
      var v, next, ended, revised, used := Attempt(a, c, ds, rounds, response, asked, corrections);
      CallsGrow(attempt + 1, c.maxIter - 1, c.passes);
      rounds := rounds + [Round(response, v)];
      response, asked, corrections, finalScore := revised, next, corrections + used, v.score;
      if ended.Some? {
        var solverScore := if ended.value == Passed then Reward(attempt) else 0.0;
        r := LoopResult(response, iterations, solverScore, corrections > 0, finalScore);
        return r, rounds, ended.value, corrections;
      }
      iterations := iterations + 1;
      attempt := attempt + 1;
    }
    EndsBeforeRound(a, c, ds, rounds, response);
    r := LoopResult(response, iterations, 0.0, false, finalScore);
    ending := Exhausted;
  }

  lemma {:induction false} CallsGrow(k: nat, m: int, n: int)
    requires n >= 1
    ensures k <= m ==> Calls(k, n) <= Calls(m, n)
    decreases m
  {
    if k < m { CallsGrow(k, m - 1, n); }
  }

  /** What the settings mean for the rounds, each count for its own part: the first
      text is that of the best draft; a round is judged by as many checks as there
      are runs, unless the winner's own check stands for it; and as many passes as
      are set lead to the text of the next. */
  ghost predicate AsSet(a: Agents, s: Settings, ds: seq<Draft>, rounds: seq<Round>) {
    exists n, runs, passes ::
      && CountFor(s.drafts, 10, n) && CountFor(s.runs, 10, runs) && CountFor(s.passes, 5, passes) && 1 <= passes
      && |ds| <= n && (forall i :: 0 <= i < |ds| ==> DraftIs(a, n, i, ds[i]))
      && (forall k :: 0 <= k < |rounds| ==> RoundAsSet(a, n, runs, passes, ds, rounds, k))
  }

  ghost predicate RoundAsSet(a: Agents, n: int, runs: int, passes: nat, ds: seq<Draft>, rounds: seq<Round>, k: nat)
    requires k < |rounds|
  {
    && (k == 0 ==> exists w: nat :: BestOf(n, ds, w) && Begins(n, runs, ds[w], rounds[0]))
    && (k > 0 || n == 1 || runs > 1 ==> exists from: nat :: JudgedBy(a, runs, rounds[k].text, from, rounds[k].verdict))
    && (k > 0 ==>
          var was := rounds[k - 1].text;
          exists from: nat :: PassesLead(a, was, from, passes, rounds[k].text))
  }

  /** The first round is about the draft, and of several drafts and a single run it
      has its verdict too. */
  ghost predicate Begins(n: int, runs: int, d: Draft, round: Round) {
    round.text == d.text && (n > 1 && runs == 1 ==> d.verdict == Some(round.verdict))
  }

  lemma RoundIsAsSet(a: Agents, c: Counts, ds: seq<Draft>, rounds: seq<Round>, k: nat)
    requires RoundsMade(a, c, ds, rounds) && k < |rounds|
    ensures c.passes >= 0 && RoundAsSet(a, c.n, c.runs, c.passes, ds, rounds, k)
  {
    assert RoundMade(a, c, ds, rounds, k);
    var w := ChosenIsBest(c.n, ds);
    JudgementIs(a, c.runs, rounds[k].text, AskedBefore(c, ds, k));
    if k > 0 {
      var from := Calls(k - 1, c.passes);
      var texts := CorrectedIsChained(a, rounds[k - 1].text, from, c.passes);
      assert PassesLead(a, rounds[k - 1].text, from, c.passes, rounds[k].text);
    }
    hide DraftsMade, Chosen, Judgement, JudgedBy, BestOf, Corrected, PassesLead, Calls, AskedBefore;
  }

  lemma RunIsAsSet(a: Agents, s: Settings, ds: seq<Draft>, rounds: seq<Round>)
    requires RoundsMade(a, CountsOf(s), ds, rounds)
    ensures AsSet(a, s, ds, rounds)
  {
    var c := CountsOf(s);
    forall i | 0 <= i < |ds| ensures DraftIs(a, c.n, i, ds[i]) { DraftAtIs(a, c.n, i); }
    forall k | 0 <= k < |rounds| ensures RoundAsSet(a, c.n, c.runs, c.passes, ds, rounds, k) {
      RoundIsAsSet(a, c, ds, rounds, k);
    }
    hide RoundAsSet, DraftIs, DraftAt, CountFor, CountsOf;
  }

  /** `run`: None is the result of a failed solver (no iterations, no scores). */
  method Run(a: Agents, s: Settings)
    returns (r: Option<LoopResult>, ds: seq<Draft>, rounds: seq<Round>, ending: Ending, corrections: nat)
    ensures r == None <==> SolverFails(a, CountsOf(s).n)
    ensures r.Some? ==>
      && RoundsMade(a, CountsOf(s), ds, rounds)
      && EndsWith(a, CountsOf(s), ds, rounds, ending, r.value.response)
    ensures r.Some? ==> Reported(CountsOf(s), rounds, ending, corrections, r.value)
    ensures r.Some? ==> AsSet(a, s, ds, rounds)
  {
    hide AsSet;
    var c := CountsOf(s);
    rounds, ending, corrections := [], Exhausted, 0;
    var drafts := MakeDrafts(a, c.n);
    if drafts.None? { return None, [], rounds, ending, corrections; }
    ds := drafts.value;
    var result: LoopResult;
    result, rounds, ending, corrections := RunRounds(a, c, ds);
    RunIsAsSet(a, s, ds, rounds);
    r := Some(result);
  }

  /** What the result reports of the rounds made. */
  ghost predicate Reported(c: Counts, rounds: seq<Round>, ending: Ending, corrections: nat, r: LoopResult)
    requires InRange(c)
  {
    && r.solverScore == (if ending == Passed && rounds != [] then Reward(|rounds| - 1) else 0.0)
    && r.finalScore == (if rounds == [] then 0.0 else rounds[|rounds| - 1].verdict.score)
    && r.iterations == (if ending == OutOfTime || rounds == [] then |rounds| + 1 else |rounds|)
    && (r.correctorInvoked <==> corrections > 0)
    && corrections <= (if c.maxIter > 1 then Calls(c.maxIter - 1, c.passes) else 0)
  }

  lemma {:induction false} CallsMultiply(k: nat, n: int)
    requires n >= 1
    ensures Calls(k, n) == k * n
  {
    if k > 0 { CallsMultiply(k - 1, n); }
  }

  /** A positive solver score means that the returned text is exactly the one whose
      verdict came last and passed, with that verdict's score, after as many
      rounds as the score says; and the corrector is called at most
      `max(0, max_iter - 1)` times its passes. */
  lemma ScoreVouchesForResponse(a: Agents, c: Counts, ds: seq<Draft>, rounds: seq<Round>, ending: Ending,
      corrections: nat, r: LoopResult)
    requires RoundsMade(a, c, ds, rounds) && EndsWith(a, c, ds, rounds, ending, r.response)
      && Reported(c, rounds, ending, corrections, r)
    ensures r.solverScore > 0.0 <==> ending == Passed && |rounds| <= 4
    ensures r.solverScore > 0.0 ==>
      var last := rounds[|rounds| - 1];
      && last.verdict.passed && r.response == last.text && r.finalScore == last.verdict.score
      && r.iterations == |rounds| && r.solverScore == 1.0 - 0.3 * (r.iterations - 1) as real
      && last.verdict == RoundVerdict(a, c, ds, |rounds| - 1, r.response)
    ensures corrections <= (if c.maxIter > 1 then (c.maxIter - 1) * c.passes else 0)
  {
    if rounds != [] {
      RewardFalls(|rounds| - 1);
      assert RoundMade(a, c, ds, rounds, |rounds| - 1);
    }
    if c.maxIter > 1 { CallsMultiply(c.maxIter - 1, c.passes); }
    hide Reward, RoundVerdict, DraftsMade;
  }

  // ------------------------------------------------- passing without an answer

  /** What a check of the verifier comes to. */
  datatype Reply = Approval | Rejection | Timeout | Error

  function ReplyOf(c: Call<Verdict>): Reply {
    match c
    case Returned(v) => if v.passed then Approval else Rejection
    case TimedOut => Timeout
    case Raised => Error
  }

  function Count(checks: seq<Call<Verdict>>, reply: Reply): nat {
    if checks == [] then 0
    else Count(checks[..|checks| - 1], reply) + if ReplyOf(checks[|checks| - 1]) == reply then 1 else 0
  }

  function Checks(a: Agents, text: string, from: nat, n: nat): seq<Call<Verdict>> {
    seq(n, i requires 0 <= i < n => a.verify(from + i, text))
  }

  /** The checks that the verdict of a round comes from. */
  function RoundChecks(a: Agents, c: Counts, ds: seq<Draft>, attempt: nat, text: string): seq<Call<Verdict>>
    requires InRange(c) && DraftsMade(a, c.n, ds)
  {
    if Prechecked(c, attempt) then Checks(a, text, Winner(Verdicts(ds)), 1)
    else Checks(a, text, AskedBefore(c, ds, attempt), c.runs)
  }

  lemma {:induction false} VotesCount(a: Agents, text: string, from: nat, n: nat)
    ensures var votes, checks := Votes(a, text, from, n), Checks(a, text, from, n);
      && Passes(votes) == Count(checks, Approval) + Count(checks, Error)
      && Fails(votes) == Count(checks, Rejection) + Count(checks, Timeout)
  {
    if n > 0 {
      VotesCount(a, text, from, n - 1);
      var votes, checks := Votes(a, text, from, n), Checks(a, text, from, n);
      assert votes[..n - 1] == Votes(a, text, from, n - 1) && votes[n - 1] == ConsensusVote(checks[n - 1]);
      assert checks[..n - 1] == Checks(a, text, from, n - 1);
    }
  }

  lemma OneCheck(a: Agents, text: string, from: nat, reply: Reply)
    ensures Checks(a, text, from, 1) == [a.verify(from, text)]
    ensures Count(Checks(a, text, from, 1), reply) == if ReplyOf(a.verify(from, text)) == reply then 1 else 0
  {
    assert Checks(a, text, from, 1)[..0] == [];
  }

  lemma {:induction false} NoReply(checks: seq<Call<Verdict>>)
    ensures Count(checks, Approval) + Count(checks, Rejection) == 0 <==>
      forall i :: 0 <= i < |checks| ==> !checks[i].Returned?
  {
    if checks != [] {
      var before := checks[..|checks| - 1];
      NoReply(before);
      assert forall i :: 0 <= i < |before| ==> before[i] == checks[i];
    }
  }

  /** The replies with which a round passes. */
  predicate PassingReplies(c: Counts, attempt: nat, checks: seq<Call<Verdict>>) {
    if Prechecked(c, attempt) then Count(checks, Approval) > 0
    else if c.runs == 1 then Count(checks, Rejection) == 0
    else Count(checks, Approval) + Count(checks, Error) > Count(checks, Rejection) + Count(checks, Timeout)
  }

  lemma JudgementIff(a: Agents, c: Counts, text: string, from: nat)
    requires InRange(c)
    ensures Judgement(a, c.runs, text, from).passed <==>
      if c.runs == 1 then Count(Checks(a, text, from, 1), Rejection) == 0
      else
        var checks := Checks(a, text, from, c.runs);
        Count(checks, Approval) + Count(checks, Error) > Count(checks, Rejection) + Count(checks, Timeout)
  {
    OneCheck(a, text, from, Rejection);
    VotesCount(a, text, from, c.runs);
    PassOrFail(Votes(a, text, from, c.runs));
  }

  /** A round passes exactly with those replies. */
  lemma RoundPassesIff(a: Agents, c: Counts, ds: seq<Draft>, rounds: seq<Round>, k: nat)
    requires RoundsMade(a, c, ds, rounds) && k < |rounds|
    ensures rounds[k].verdict.passed <==> PassingReplies(c, k, RoundChecks(a, c, ds, k, rounds[k].text))
  {
    assert RoundMade(a, c, ds, rounds, k);
    if Prechecked(c, k) {
      var w := Winner(Verdicts(ds));
      assert ds[w] == DraftAt(a, c.n, w);
      OneCheck(a, rounds[k].text, w, Approval);
    } else {
      JudgementIff(a, c, rounds[k].text, AskedBefore(c, ds, k));
    }
    hide Judgement, Checks, Count, Winner, Verdicts, AskedBefore;
  }

  /** The solver is rewarded exactly when the last of at most four rounds passed. */
  lemma RewardedIff(a: Agents, c: Counts, ds: seq<Draft>, rounds: seq<Round>, ending: Ending, corrections: nat,
      r: LoopResult)
    requires RoundsMade(a, c, ds, rounds) && EndsWith(a, c, ds, rounds, ending, r.response)
      && Reported(c, rounds, ending, corrections, r)
    requires rounds != []
    ensures var k := |rounds| - 1;
      r.solverScore > 0.0 <==> k <= 3 && PassingReplies(c, k, RoundChecks(a, c, ds, k, rounds[k].text))
  {
    hide RoundsMade, DraftsMade, Corrected, CorrectedSoFar, Calls, Chosen, PassingReplies, RoundChecks, Reward;
    RewardFalls(|rounds| - 1);
    RoundPassesIff(a, c, ds, rounds, |rounds| - 1);
  }

  lemma SilentScore(a: Agents, c: Counts, ds: seq<Draft>, rounds: seq<Round>, k: nat)
    requires RoundsMade(a, c, ds, rounds) && k < |rounds|
    requires forall i :: 0 <= i < |RoundChecks(a, c, ds, k, rounds[k].text)| ==>
      !RoundChecks(a, c, ds, k, rounds[k].text)[i].Returned?
    ensures rounds[k].verdict.score <= 0.7
  {
    var text := rounds[k].text;
    var checks := RoundChecks(a, c, ds, k, text);
    assert RoundMade(a, c, ds, rounds, k);
    assert !checks[0].Returned?;
    if Prechecked(c, k) {
      assert ds[Winner(Verdicts(ds))] == DraftAt(a, c.n, Winner(Verdicts(ds)));
    } else if c.runs > 1 {
      var votes := Votes(a, text, AskedBefore(c, ds, k), c.runs);
      forall i | 0 <= i < |votes| ensures 0.0 <= votes[i].score <= 0.7 {
        assert votes[i] == ConsensusVote(checks[i]) && !checks[i].Returned?;
      }
      MajorityRules(votes, 0.0, 0.7);
    }
    hide Winner, Verdicts, AskedBefore, Majority;
  }

  /** When no check of the last round answered, the solver is rewarded all the same
      exactly if the round was not the winner's own check and, in a consensus,
      errors outnumber timeouts; the final score is then at most 0.7. */
  lemma RewardWithoutAnswer(a: Agents, c: Counts, ds: seq<Draft>, rounds: seq<Round>, ending: Ending, corrections: nat,
      r: LoopResult)
    requires RoundsMade(a, c, ds, rounds) && EndsWith(a, c, ds, rounds, ending, r.response)
      && Reported(c, rounds, ending, corrections, r)
    requires rounds != []
    ensures var k := |rounds| - 1;
      var checks := RoundChecks(a, c, ds, k, rounds[k].text);
      (forall i :: 0 <= i < |checks| ==> !checks[i].Returned?) ==>
        && (r.solverScore > 0.0 <==>
              k <= 3 && !Prechecked(c, k) && (c.runs == 1 || Count(checks, Error) > Count(checks, Timeout)))
        && r.finalScore <= 0.7
  {
    assert InRange(c) && DraftsMade(a, c.n, ds);
    hide RoundsMade, DraftsMade, EndsWith, RoundChecks, Count, Reward;
    var k := |rounds| - 1;
    var checks := RoundChecks(a, c, ds, k, rounds[k].text);
    RewardedIff(a, c, ds, rounds, ending, corrections, r);
    NoReply(checks);
    if forall i :: 0 <= i < |checks| ==> !checks[i].Returned? { SilentScore(a, c, ds, rounds, k); }
  }

  /** One draft, one attempt, and a verifier that never answers. */
  const SILENT: Agents := Agents(_ => Returned("a"), (_, _) => TimedOut, (_, _) => Raised, _ => false)

  const ONCE: Counts := Counts(1, 1, 1, 1)

  /** Whatever run answers the contracts, the draft nobody judged gets the full
      reward. */
  lemma SilentVerifierPasses(ds: seq<Draft>, rounds: seq<Round>, ending: Ending, corrections: nat, r: LoopResult)
    requires RoundsMade(SILENT, ONCE, ds, rounds) && EndsWith(SILENT, ONCE, ds, rounds, ending, r.response)
    requires Reported(ONCE, rounds, ending, corrections, r)
    ensures CountsOf(Settings(1, None, None, None)) == ONCE && r == LoopResult("a", 1, 1.0, false, 0.7)
  {
    var made := [Round("a", Verdict(true, 0.7))];
    assert ds == [Draft("a", None)] by { assert |ds| == 1; }
    SilentRun();
    RunIsDetermined(SILENT, ONCE, ds, rounds, ending, r.response, made, Passed, "a");
  }

  lemma SilentRun()
    ensures var ds, rounds := [Draft("a", None)], [Round("a", Verdict(true, 0.7))];
      RoundsMade(SILENT, ONCE, ds, rounds) && EndsWith(SILENT, ONCE, ds, rounds, Passed, "a")
  {
    var ds, rounds := [Draft("a", None)], [Round("a", Verdict(true, 0.7))];
    assert DraftAt(SILENT, 1, 0) == ds[0];
    assert Calls(0, 1) == 0;
    assert RoundMade(SILENT, ONCE, ds, rounds, 0);
  }

  // ------------------------------------------------- passes since the last verdict

  /** How many passes of the corrector have answered, of at most `n`. */
  function Answered(a: Agents, text: string, from: nat, n: nat): (m: nat)
    ensures m <= n && Corrected(a, text, from, m).Some?
    ensures m < n ==> Corrected(a, text, from, m + 1).None?
  {
    if n == 0 || Corrected(a, text, from, n).Some? then n else Answered(a, text, from, n - 1)
  }

  lemma {:induction false} SoFarIsAnswered(a: Agents, text: string, from: nat, n: nat)
    ensures Corrected(a, text, from, Answered(a, text, from, n)) == Some(CorrectedSoFar(a, text, from, n))
  {
    if n > 0 && Corrected(a, text, from, n).None? { SoFarIsAnswered(a, text, from, n - 1); }
  }

  /** The passes that have answered between the last verdict and the result. */
  function PassesSince(a: Agents, c: Counts, last: Round, attempt: nat, ending: Ending): nat
    requires InRange(c)
  {
    match ending
    case Passed => 0
    case Exhausted => 0
    case OutOfTime => c.passes
    case CorrectorFailed => Answered(a, last.text, Calls(attempt, c.passes), c.passes)
  }

  /** What the final score is about: the text of the last verdict. The response is
      what the passes answered since have made of it; it is that text itself, with
      none in between, exactly when the loop passed or was exhausted, or the first
      pass of the corrector did not answer. */
  lemma ScoreIsAboutResponse(a: Agents, c: Counts, ds: seq<Draft>, rounds: seq<Round>, ending: Ending, corrections: nat,
      r: LoopResult)
    requires RoundsMade(a, c, ds, rounds) && EndsWith(a, c, ds, rounds, ending, r.response)
      && Reported(c, rounds, ending, corrections, r)
    requires rounds != []
    ensures var k := |rounds| - 1;
      var from, since := Calls(k, c.passes), PassesSince(a, c, rounds[k], k, ending);
      && r.finalScore == rounds[k].verdict.score
      && Corrected(a, rounds[k].text, from, since) == Some(r.response)
      && (since == 0 ==> r.response == rounds[k].text)
      && (since > 0 ==> !rounds[k].verdict.passed && r.solverScore == 0.0)
      && (since == 0 <==>
            ending == Passed || ending == Exhausted
              || (ending == CorrectorFailed && !a.correct(from, rounds[k].text).Returned?))
  {
    hide DraftsMade, Chosen, Calls, RoundVerdict, Reward;
    var k := |rounds| - 1;
    var from := Calls(k, c.passes);
    SoFarIsAnswered(a, rounds[k].text, from, c.passes);
    NoneAnswered(a, rounds[k].text, from, c.passes);
  }

  lemma NoneAnswered(a: Agents, text: string, from: nat, n: nat)
    requires n > 0
    ensures Corrected(a, text, from, 0) == Some(text)
    ensures Answered(a, text, from, n) == 0 <==> !a.correct(from, text).Returned?
  {
    FirstPass(a, text, from);
    var m := Answered(a, text, from, n);
    if m >= 1 && Corrected(a, text, from, 1).None? { NoneStays(a, text, from, 1, m); }
  }

  lemma FirstPass(a: Agents, text: string, from: nat)
    ensures Corrected(a, text, from, 0) == Some(text)
    ensures Corrected(a, text, from, 1).Some? <==> a.correct(from, text).Returned?
  {
    assert Corrected(a, text, from, 0) == Some(text);
  }

  // ------------------------------------------------------- the run is determined

  lemma {:induction false} SameRounds(a: Agents, c: Counts, ds: seq<Draft>, rounds: seq<Round>, others: seq<Round>,
      i: nat)
    requires RoundsMade(a, c, ds, rounds) && RoundsMade(a, c, ds, others) && i < |rounds| && i < |others|
    ensures rounds[i] == others[i]
  {
    hide DraftsMade, Chosen, RoundVerdict, Revision;
    assert RoundMade(a, c, ds, rounds, i) && RoundMade(a, c, ds, others, i);
    if i > 0 { SameRounds(a, c, ds, rounds, others, i - 1); }
  }

  lemma NoLonger(a: Agents, c: Counts, ds: seq<Draft>, rounds: seq<Round>, ending: Ending, text: string,
      others: seq<Round>)
    requires RoundsMade(a, c, ds, rounds) && RoundsMade(a, c, ds, others) && EndsWith(a, c, ds, rounds, ending, text)
    ensures |others| <= |rounds|
  {
    var k := |rounds|;
    if k < |others| {
      assert RoundMade(a, c, ds, others, k);
      if k > 0 { SameRounds(a, c, ds, rounds, others, k - 1); }
      hide DraftsMade, Chosen, RoundVerdict, Revision, RoundsMade;
      assert false;
    }
  }

  /** The contracts leave no choice: the agents determine the rounds, the ending and
      the response. */
  lemma RunIsDetermined(a: Agents, c: Counts, ds: seq<Draft>,
      rounds: seq<Round>, ending: Ending, text: string, others: seq<Round>, otherEnding: Ending, otherText: string)
    requires RoundsMade(a, c, ds, rounds) && EndsWith(a, c, ds, rounds, ending, text)
    requires RoundsMade(a, c, ds, others) && EndsWith(a, c, ds, others, otherEnding, otherText)
    ensures rounds == others && ending == otherEnding && text == otherText
  {
    NoLonger(a, c, ds, rounds, ending, text, others);
    NoLonger(a, c, ds, others, otherEnding, otherText, rounds);
    forall i | 0 <= i < |rounds| ensures rounds[i] == others[i] { SameRounds(a, c, ds, rounds, others, i); }
    hide DraftsMade, Chosen, RoundsMade, Corrected, CorrectedSoFar;
  }

  // -------------------------------------------------------------- an unverified run

  /** One draft "a", scored 0.5; one correction to "b"; and then the clock is late. */
  const LATE: Agents := Agents(
    _ => Returned("a"), (_, _) => Returned(Verdict(false, 0.5)), (_, _) => Returned("b"), k => k == 2)

  const TWICE: Counts := Counts(1, 1, 1, 2)

  const UNVERIFIED: LoopResult := LoopResult("b", 2, 0.0, true, 0.5)

  /** Whatever run answers the contracts, the response is "b" and the score that of "a". */
  lemma LateRunIsUnverified(ds: seq<Draft>, rounds: seq<Round>, ending: Ending, text: string)
    requires RoundsMade(LATE, TWICE, ds, rounds) && EndsWith(LATE, TWICE, ds, rounds, ending, text)
    ensures ds == [Draft("a", None)] && rounds == [Round("a", Verdict(false, 0.5))] && ending == OutOfTime
      && text == "b"
  {
    var made := [Round("a", Verdict(false, 0.5))];
    assert ds == [Draft("a", None)] by { assert |ds| == 1; }
    LateRun();
    RunIsDetermined(LATE, TWICE, ds, rounds, ending, text, made, OutOfTime, "b");
  }

  lemma LateRun()
    ensures var ds, rounds := [Draft("a", None)], [Round("a", Verdict(false, 0.5))];
      && CountsOf(Settings(2, None, None, None)) == TWICE && RoundsMade(LATE, TWICE, ds, rounds)
      && EndsWith(LATE, TWICE, ds, rounds, OutOfTime, UNVERIFIED.response)
      && Reported(TWICE, rounds, OutOfTime, 1, UNVERIFIED)
  {
    var ds, rounds := [Draft("a", None)], [Round("a", Verdict(false, 0.5))];
    assert DraftAt(LATE, 1, 0) == ds[0];
    assert Calls(0, 1) == 0 && Calls(1, 1) == 1;
    FirstPass(LATE, "a", 0);
    assert RoundMade(LATE, TWICE, ds, rounds, 0);
  }
}
