/** Runs of replay requests on one checkpoint, one after the other and concurrent. */
module ReplayRuns {
  import opened Wrappers
  import opened CheckpointReplay

  datatype Journal = Journal(row: Row, ran: seq<Execution>)

  function Run(row: Row, reqs: seq<Request>): Journal {
    if reqs == [] then Journal(row, [])
    else
      var before := Run(row, reqs[..|reqs| - 1]);
      var served := Serve(before.row, reqs[|reqs| - 1]);
      Journal(served.row, before.ran + served.ran)
  }

  /** The results that were durably recorded, in the order of execution. */
  function Kept(ran: seq<Execution>): seq<CallResult> {
    if ran == [] then []
    else if ran[|ran| - 1].kept then Kept(ran[..|ran| - 1]) + [ran[|ran| - 1].result]
    else Kept(ran[..|ran| - 1])
  }

  /** The checkpoint once the results `done` of its first calls are recorded. */
  function Progress(row: Row, done: seq<CallResult>): Row
    requires |done| <= |row.pending|
    requires |done| == |row.pending| && done != [] ==> row.history.Some?
  {
    if done == [] then row
    else if |done| < |row.pending| then
      row.(status := RecoveryRequired, pending := row.pending[|done|..], results := row.results + done)
    else
      row.(status := ReadyToResume, pending := [], results := [],
           history := Some(row.history.value + [ToolResults(row.results + done)]))
  }

  ghost predicate MatchesPending(row: Row, done: seq<CallResult>) {
    && |done| <= |row.pending|
    && (forall i :: 0 <= i < |done| ==> row.pending[i].Call? && row.pending[i].id == done[i].id)
    && (|done| == |row.pending| && done != [] ==> row.history.Some?)
  }

  ghost predicate HasResult(results: seq<CallResult>, id: CallId) {
    exists k :: 0 <= k < |results| && results[k].id == id
  }

  /** `result` answers the next unrecorded call, which may be run and has no
      recorded result. */
  ghost predicate RanNext(row: Row, before: seq<Execution>, result: CallResult) {
    && |Kept(before)| < |row.pending| && Runnable(row, row.pending[|Kept(before)|])
    && row.pending[|Kept(before)|].id == result.id
    && !HasResult(row.results, result.id) && !HasResult(Kept(before), result.id)
  }

  lemma KeptOne(ran: seq<Execution>, e: Execution)
    ensures Kept(ran + [e]) == if e.kept then Kept(ran) + [e.result] else Kept(ran)
  {
    assert (ran + [e])[..|ran|] == ran;
  }

  lemma RunMore(row: Row, reqs: seq<Request>, req: Request)
    ensures var before := Run(row, reqs);
      Run(row, reqs + [req]) == Journal(Serve(before.row, req).row, before.ran + Serve(before.row, req).ran)
  {
    hide Serve;
    assert (reqs + [req])[..|reqs|] == reqs;
  }

  /** The request runs a tool and its result is durably recorded. */
  predicate Keeps(row: Row, req: Request) {
    Runs(row, req) && req.saved && (|row.pending| > 1 || row.history.Some?)
  }

  lemma ServeShape(row: Row, req: Request)
    ensures Serve(row, req).ran == if Runs(row, req) then [Execution(ResultOf(row, req), Keeps(row, req))] else []
    ensures !Keeps(row, req) ==> Serve(row, req).row == row
  {
    hide Refusal, Prior, Answer, ResultOf;
  }

  lemma ServeProgress(row: Row, done: seq<CallResult>, req: Request)
    requires MatchesPending(row, done)
    ensures var served := Serve(Progress(row, done), req);
      |served.ran| <= 1
      && (served.ran == [] ==> served.row == Progress(row, done))
      && (served.ran != [] ==>
            var e := served.ran[0];
            && |done| < |row.pending| && Runnable(row, row.pending[|done|])
            && row.pending[|done|].id == e.result.id == req.id
            && !HasResult(row.results, req.id) && !HasResult(done, req.id)
            && (!e.kept ==> served.row == Progress(row, done))
            && (e.kept ==> MatchesPending(row, done + [e.result]) && served.row == Progress(row, done + [e.result])))
  {
    hide Refusal, Prior, Replayable, CategoryOf, ReadOnlyMcp, AllowedInPlanMode;
    var now := Progress(row, done);
    RefusalIffNotRunnable(now, req);
    if Runs(now, req) {
      assert now.pending == row.pending[|done|..];
      assert now.results == row.results + done;
      var result := ResultOf(now, req);
      assert forall k :: 0 <= k < |row.results| ==> now.results[k] == row.results[k];
      assert forall k :: 0 <= k < |done| ==> now.results[|row.results| + k] == done[k];
      PriorIff(now.results, req.id);
      assert row.results + done + [result] == row.results + (done + [result]);
      assert now.pending != [] ==> now.pending[1..] == row.pending[|done| + 1..];
    }
  }

  /** The law of replay, for any requests, lost writes included: what is stored is
      always the original checkpoint advanced by the recorded results; nothing
      that ran is answered for another call; and every execution is of the call
      that was then the next unrecorded one. */
  lemma {:induction false} ExecutionLaw(row: Row, reqs: seq<Request>)
    ensures var j := Run(row, reqs);
      && MatchesPending(row, Kept(j.ran)) && j.row == Progress(row, Kept(j.ran))
      && forall i :: 0 <= i < |j.ran| ==> RanNext(row, j.ran[..i], j.ran[i].result)
  {
    if reqs != [] {
      var before, req := Run(row, reqs[..|reqs| - 1]), reqs[|reqs| - 1];
      ExecutionLaw(row, reqs[..|reqs| - 1]);
      ServeProgress(row, Kept(before.ran), req);
      hide Serve, Progress, Kept;
      var served := Serve(before.row, req);
      var j := Run(row, reqs);
      assert j == Journal(served.row, before.ran + served.ran);
      if served.ran == [] {
        assert j.ran == before.ran;
      } else {
        assert served.ran == [served.ran[0]];
        KeptOne(before.ran, served.ran[0]);
      }
      forall i | 0 <= i < |j.ran| ensures RanNext(row, j.ran[..i], j.ran[i].result) {
        if i < |before.ran| {
          assert j.ran[..i] == before.ran[..i];
        } else {
          assert j.ran[..i] == before.ran;
        }
      }
    }
  }

  ghost predicate AllKept(ran: seq<Execution>) {
    forall i :: 0 <= i < |ran| ==> ran[i].kept
  }

  lemma {:induction false} KeptAll(ran: seq<Execution>)
    requires AllKept(ran)
    ensures |Kept(ran)| == |ran| && forall i :: 0 <= i < |ran| ==> Kept(ran)[i] == ran[i].result
  {
    if ran != [] {
      KeptAll(ran[..|ran| - 1]);
    }
  }

  /** Requests whose row could be written, on a history that can be restored,
      keep every execution. */
  lemma {:induction false} DurableKeepsAll(row: Row, reqs: seq<Request>)
    requires row.history.Some? && forall i :: 0 <= i < |reqs| ==> reqs[i].saved
    ensures AllKept(Run(row, reqs).ran)
  {
    if reqs != [] {
      DurableKeepsAll(row, reqs[..|reqs| - 1]);
      ExecutionLaw(row, reqs[..|reqs| - 1]);
    }
  }

  lemma ProgressShape(row: Row, done: seq<CallResult>)
    requires MatchesPending(row, done) && row.status != ReadyToResume
    ensures var now := Progress(row, done);
      && (0 < |done| < |row.pending| ==>
            now.status == RecoveryRequired && now.pending == row.pending[|done|..] && now.results == row.results + done)
      && (now.status == ReadyToResume <==> 0 < |done| == |row.pending|)
      && (now.status == ReadyToResume ==>
            row.history.Some? && now.history == Some(row.history.value + [ToolResults(row.results + done)]))
  {
  }

  function Results(ran: seq<Execution>): seq<CallResult> {
    seq(|ran|, i requires 0 <= i < |ran| => ran[i].result)
  }

  /** Exactly once, in order: with durable writes the executed calls are the first
      recorded ones; the recorded results and the pending calls make up the
      original list until the last one, and then, and only then, the checkpoint
      is ready to resume, with one result a call in its history. */
  lemma DurableReplay(row: Row, reqs: seq<Request>)
    requires row.history.Some? && row.status != ReadyToResume
    requires forall i :: 0 <= i < |reqs| ==> reqs[i].saved
    ensures var j := Run(row, reqs);
      var n := |j.ran|;
      && n <= |row.pending|
      && (forall i :: 0 <= i < n ==> row.pending[i].Call? && row.pending[i].id == j.ran[i].result.id)
      && (0 < n < |row.pending| ==>
            j.row.status == RecoveryRequired && j.row.pending == row.pending[n..]
              && j.row.results == row.results + Results(j.ran))
      && (j.row.status == ReadyToResume <==> 0 < n == |row.pending|)
      && (j.row.status == ReadyToResume ==>
            j.row.history == Some(row.history.value + [ToolResults(row.results + Results(j.ran))]))
  {
    DurableKeepsAll(row, reqs);
    var j := Run(row, reqs);
    KeptAll(j.ran);
    ExecutionLaw(row, reqs);
    assert Kept(j.ran) == Results(j.ran);
    hide Run, Kept, Progress, Results, Runnable;
    ProgressShape(row, Results(j.ran));
  }

  // ------------------------------------------------------- the results that are kept

  /** Every execution is the work of one request: of the call with that request's id,
      with what its tool gave, output and error flag, under the name recorded for
      the call. */
  lemma {:induction false} ExecutionsAreRequests(row: Row, reqs: seq<Request>, i: nat) returns (k: nat)
    requires i < |Run(row, reqs).ran|
    ensures var e, n := Run(row, reqs).ran[i], |Kept(Run(row, reqs).ran[..i])|;
      && k < |reqs| && reqs[k].confirm && Run(row, reqs[..k]).ran == Run(row, reqs).ran[..i]
      && n < |row.pending| && row.pending[n].Call? && row.pending[n].name.Some?
      && e.result == CallResult(reqs[k].id, row.pending[n].name.value, reqs[k].output, reqs[k].isError)
  {
    var last := |reqs| - 1;
    var before := Run(row, reqs[..last]);
    ServeIs(before.row, reqs[last]);
    hide Serve;
    if i < |before.ran| {
      k := ExecutionsAreRequests(row, reqs[..last], i);
      assert reqs[..last][..k] == reqs[..k] && before.ran[..i] == Run(row, reqs).ran[..i];
    } else {
      k := last;
      assert Run(row, reqs).ran[..i] == before.ran;
      ExecutionLaw(row, reqs[..last]);
      HeadOfProgress(row, Kept(before.ran));
    }
  }

  lemma HeadOfProgress(row: Row, done: seq<CallResult>)
    requires MatchesPending(row, done) && Progress(row, done).pending != []
    ensures |done| < |row.pending| && Progress(row, done).pending[0] == row.pending[|done|]
  {
  }

  lemma {:induction false} KeptAt(ran: seq<Execution>, i: nat)
    requires i < |ran| && ran[i].kept
    ensures var k := |Kept(ran[..i])|;
      k < |Kept(ran)| && Kept(ran)[k] == ran[i].result && Kept(ran)[..k] == Kept(ran[..i])
  {
    var shorter := ran[..|ran| - 1];
    if i < |shorter| {
      KeptAt(shorter, i);
      assert shorter[..i] == ran[..i];
    }
  }

  /** While its checkpoint is not finished, a kept result is the answer to every later
      request for the call, and nothing runs. */
  lemma KeptIsAnswered(row: Row, reqs: seq<Request>, i: nat, again: Request)
    requires i < |Run(row, reqs).ran| && Run(row, reqs).ran[i].kept
    requires again.confirm && again.found && again.id == Run(row, reqs).ran[i].result.id
    requires |Kept(Run(row, reqs).ran)| < |row.pending|
    ensures var j := Run(row, reqs);
      Serve(j.row, again).ran == [] && Serve(j.row, again).row == j.row
      && AnswersWith(j.row, j.ran[i].result, Serve(j.row, again).reply)
  {
    hide Run, Kept, Serve, Prior, AnswersWith, RanNext, HasResult;
    var j := Run(row, reqs);
    ExecutionLaw(row, reqs);
    assert RanNext(row, j.ran[..i], j.ran[i].result);
    FirstKept(row, j.ran, i);
    var k := |row.results| + |Kept(j.ran[..i])|;
    assert j.row.results == row.results + Kept(j.ran);
    PriorIsFirst(j.row.results, k, again.id);
    ServesPrior(j.row, again, k);
  }

  lemma FirstKept(row: Row, ran: seq<Execution>, i: nat)
    requires i < |ran| && ran[i].kept && RanNext(row, ran[..i], ran[i].result)
    ensures var k, results := |row.results| + |Kept(ran[..i])|, row.results + Kept(ran);
      FirstOf(results, k, ran[i].result.id) && results[k] == ran[i].result
  {
    KeptAt(ran, i);
    hide Kept, Runnable;
    var results, before, id := row.results + Kept(ran), Kept(ran[..i]), ran[i].result.id;
    forall m | 0 <= m < |row.results| + |before| ensures results[m].id != id {
      if m >= |row.results| { assert before[m - |row.results|] == results[m]; }
    }
  }

  lemma ServesPrior(row: Row, req: Request, k: nat)
    requires req.confirm && req.found && k < |row.results| && Prior(row.results, req.id) == Some(row.results[k])
    ensures Serve(row, req).ran == [] && Serve(row, req).row == row
    ensures AnswersWith(row, row.results[k], Serve(row, req).reply)
  {
    hide Prior;
  }

  /** Whatever is requested, no tool runs but one of the thirteen that are listed,
      unless its record says whether it may be replayed or where it belongs. */
  lemma OnlyListedToolsRun(row: Row, reqs: seq<Request>, i: nat)
    requires i < |Run(row, reqs).ran|
    ensures var n, name := |Kept(Run(row, reqs).ran[..i])|, Run(row, reqs).ran[i].result.name;
      && n < |row.pending| && row.pending[n].Call?
      && (row.pending[n].flag.None? && row.pending[n].category.None? ==>
            name in {"read_file", "list_directory", "glob", "grep", "write_file", "run_command", "edit_file", "git",
                     "web_search", "web_fetch", "hive.browser.search", "hive.browser.fetch", "Task"})
      && (row.mode == Plan ==>
            name in {"read_file", "list_directory", "glob", "grep", "web_search", "web_fetch", "TodoWrite"})
      && row.pending[n].flag != Some(false) && !row.pending[n].resolved
  {
    hide Run, Kept, Serve, RanNext;
    var k := ExecutionsAreRequests(row, reqs, i);
    ExecutionLaw(row, reqs);
    RanNextIsListed(row, Run(row, reqs).ran[..i], Run(row, reqs).ran[i].result);
  }

  lemma RanNextIsListed(row: Row, before: seq<Execution>, result: CallResult)
    requires RanNext(row, before, result)
    ensures var e := row.pending[|Kept(before)|];
      e.Call? && e.name.Some? && e.flag != Some(false) && !e.resolved
    ensures var e := row.pending[|Kept(before)|];
      && (e.flag.None? && e.category.None? ==>
            e.name.value in {"read_file", "list_directory", "glob", "grep", "write_file", "run_command", "edit_file",
                             "git", "web_search", "web_fetch", "hive.browser.search", "hive.browser.fetch", "Task"})
      && (row.mode == Plan ==>
            e.name.value in {"read_file", "list_directory", "glob", "grep", "web_search", "web_fetch", "TodoWrite"})
  {
    hide Kept;
  }

  // ------------------------------------------------------------- at most once

  /** The execution that recorded the result number `k`. */
  lemma {:induction false} KeptFrom(ran: seq<Execution>, k: nat) returns (i: nat)
    requires k < |Kept(ran)|
    ensures i < |ran| && ran[i].kept && ran[i].result == Kept(ran)[k] && Kept(ran[..i]) == Kept(ran)[..k]
  {
    var shorter := ran[..|ran| - 1];
    if k < |Kept(shorter)| {
      i := KeptFrom(shorter, k);
      assert shorter[..i] == ran[..i];
    } else {
      i := |ran| - 1;
    }
  }

  lemma {:induction false} KeptHas(ran: seq<Execution>, i: nat)
    requires i < |ran| && ran[i].kept
    ensures HasResult(Kept(ran), ran[i].result.id)
  {
    var shorter := ran[..|ran| - 1];
    if i < |shorter| {
      KeptHas(shorter, i);
      var k :| 0 <= k < |Kept(shorter)| && Kept(shorter)[k].id == ran[i].result.id;
      assert Kept(ran)[k].id == ran[i].result.id;
    } else {
      assert Kept(ran)[|Kept(shorter)|].id == ran[i].result.id;
    }
  }

  /** A call whose execution was recorded is never executed again, and no call
      that had a result from the start is: a call runs twice only if its earlier
      executions could not be recorded. */
  lemma NoCallTwice(row: Row, reqs: seq<Request>, i: nat, j: nat)
    requires i < j < |Run(row, reqs).ran|
    ensures var ran := Run(row, reqs).ran;
      && !HasResult(row.results, ran[j].result.id)
      && (ran[i].kept ==> ran[i].result.id != ran[j].result.id)
  {
    ExecutionLaw(row, reqs);
    var ran := Run(row, reqs).ran;
    hide Run, Kept;
    assert RanNext(row, ran[..j], ran[j].result);
    if ran[i].kept {
      KeptHas(ran[..j], i);
    }
  }

  /** A request that would have run the call runs it again exactly when the first
      execution was not recorded: the write failed, or it was the last call and the
      history cannot be restored. */
  lemma RunsAgainIff(row: Row, req: Request, again: Request)
    requires Runs(row, req) && Runs(row, again)
    ensures Runs(Serve(row, req).row, again) <==> !Keeps(row, req)
  {
    hide Prior, Refusal, Answer;
    ServeShape(row, req);
    RefusalIffNotRunnable(row, req);
    RefusalIffNotRunnable(row, again);
    if Keeps(row, req) {
      var after := Serve(row, req).row;
      RefusalIffNotRunnable(after, again);
      PriorIff(after.results, again.id);
      assert |row.pending| > 1 ==> after.results[|row.results|].id == again.id;
    }
  }

  /** `n` requests in a row that run the call without recording it. */
  function Repeated(req: Request, n: nat): seq<Request> {
    seq(n, i => req)
  }

  /** For any number of requests: the call runs on each of them exactly when its
      execution is never recorded. */
  lemma {:induction false} RunsEveryTimeIff(row: Row, req: Request, n: nat)
    requires Runs(row, req) && n >= 2
    ensures |Run(row, Repeated(req, n)).ran| == n <==> !Keeps(row, req)
    ensures !Keeps(row, req) ==> Run(row, Repeated(req, n)).row == row && Kept(Run(row, Repeated(req, n)).ran) == []
    ensures Keeps(row, req) ==> |Run(row, Repeated(req, n)).ran| == 1
  {
    hide Runs, Keeps, Serve;
    RunsAgainIff(row, req, req);
    ServeShape(row, req);
    if Keeps(row, req) { KeptOnce(row, req, n); } else { NeverKept(row, req, n); }
  }

  lemma {:induction false} NeverKept(row: Row, req: Request, n: nat)
    requires Runs(row, req) && !Keeps(row, req)
    ensures var j := Run(row, Repeated(req, n)); j.row == row && |j.ran| == n && Kept(j.ran) == []
  {
    hide Runs, Keeps, Serve, ResultOf;
    if n > 0 {
      NeverKept(row, req, n - 1);
      ServeShape(row, req);
      assert Repeated(req, n)[..n - 1] == Repeated(req, n - 1);
      KeptOne(Run(row, Repeated(req, n - 1)).ran, Execution(ResultOf(row, req), false));
    }
  }

  lemma {:induction false} KeptOnce(row: Row, req: Request, n: nat)
    requires Runs(row, req) && Keeps(row, req) && n > 0
    ensures var j := Run(row, Repeated(req, n)); j.row == Serve(row, req).row && |j.ran| == 1
  {
    hide Runs, Keeps, Serve, ResultOf;
    ServeShape(row, req);
    if n == 1 {
      assert Repeated(req, 1)[..0] == [] && Run(row, []) == Journal(row, []);
    } else {
      KeptOnce(row, req, n - 1);
      RunsAgainIff(row, req, req);
      var after := Serve(row, req).row;
      ServeShape(after, req);
      SilentServe(after, req);
      assert Repeated(req, n)[..n - 1] == Repeated(req, n - 1);
    }
  }

  lemma SilentServe(row: Row, req: Request)
    requires !Runs(row, req)
    ensures Serve(row, req).ran == [] && Serve(row, req).row == row
  {
    hide Prior, Refusal, Answer;
  }

  /** With a history that cannot be restored the last call is never recorded, so it
      runs on every request for it. */
  lemma UnrestorableRunsAgain(row: Row, req: Request, n: nat)
    requires Runs(row, req) && |row.pending| == 1 && row.history == None
    ensures var j := Run(row, Repeated(req, n)); j.row == row && |j.ran| == n && Kept(j.ran) == []
  {
    hide Runs;
    NeverKept(row, req, n);
  }

  // --------------------------------------------------- which checkpoints finish

  /** Every pending call may be run, and each has an id of its own. */
  ghost predicate Finishable(row: Row) {
    && row.pending != [] && row.history.Some?
    && (forall i :: 0 <= i < |row.pending| ==>
          Runnable(row, row.pending[i]) && !HasResult(row.results, row.pending[i].id))
    && (forall i, j :: 0 <= i < j < |row.pending| ==> row.pending[i].id != row.pending[j].id)
  }

  function NextRequest(e: Entry): Request {
    Request(if e.Call? then e.id else "", true, true, true, "", false, true)
  }

  function InOrder(pending: seq<Entry>): seq<Request> {
    seq(|pending|, i requires 0 <= i < |pending| => NextRequest(pending[i]))
  }

  lemma NextRequestRuns(row: Row, done: seq<CallResult>)
    requires Finishable(row) && (row.status == AwaitingTools || row.status == RecoveryRequired)
    requires MatchesPending(row, done) && |done| < |row.pending|
    ensures Runs(Progress(row, done), NextRequest(row.pending[|done|]))
  {
    var now, e := Progress(row, done), row.pending[|done|];
    hide Refusal, ReadOnlyMcp, AllowedInPlanMode, Replayable, CategoryOf;
    RefusalIffNotRunnable(now, NextRequest(e));
    forall k | 0 <= k < |now.results| ensures now.results[k].id != e.id {
      if k < |row.results| {
        assert now.results[k] == row.results[k];
      } else {
        assert row.pending[k - |row.results|].id != row.pending[|done|].id;
      }
    }
    PriorIff(now.results, e.id);
  }

  lemma OneMoreKept(row: Row, reqs: seq<Request>)
    requires Finishable(row) && (row.status == AwaitingTools || row.status == RecoveryRequired)
    requires |Kept(Run(row, reqs).ran)| < |row.pending|
    ensures var n := |Kept(Run(row, reqs).ran)|;
      |Kept(Run(row, reqs + [NextRequest(row.pending[n])]).ran)| == n + 1
  {
    var before := Run(row, reqs);
    ExecutionLaw(row, reqs);
    var req := NextRequest(row.pending[|Kept(before.ran)|]);
    NextRequestRuns(row, Kept(before.ran));
    assert Keeps(before.row, req);
    ServeShape(before.row, req);
    RunMore(row, reqs, req);
    hide *;
    KeptOne(before.ran, Execution(ResultOf(before.row, req), true));
  }

  lemma {:induction false} InOrderProgress(row: Row, n: nat)
    requires n <= |row.pending| && Finishable(row) && (row.status == AwaitingTools || row.status == RecoveryRequired)
    ensures |Kept(Run(row, InOrder(row.pending[..n])).ran)| == n
  {
    hide Run, Kept, Finishable;
    if n > 0 {
      InOrderProgress(row, n - 1);
      OneMoreKept(row, InOrder(row.pending[..n - 1]));
      assert InOrder(row.pending[..n]) == InOrder(row.pending[..n - 1]) + [NextRequest(row.pending[n - 1])];
    } else {
      NothingRan(row);
      assert InOrder(row.pending[..0]) == [];
    }
  }

  lemma NothingRan(row: Row)
    ensures Kept(Run(row, []).ran) == []
  {
  }

  lemma FinishedWasFinishable(row: Row, reqs: seq<Request>)
    requires row.status != ReadyToResume && Run(row, reqs).row.status == ReadyToResume
    ensures Finishable(row)
  {
    ExecutionLaw(row, reqs);
    var ran := Run(row, reqs).ran;
    hide Run, Kept, Runnable;
    assert |Kept(ran)| == |row.pending| > 0;
    forall k | 0 <= k < |row.pending|
      ensures Runnable(row, row.pending[k]) && !HasResult(row.results, row.pending[k].id)
      ensures row.pending[k].id == Kept(ran)[k].id && !HasResult(Kept(ran)[..k], row.pending[k].id)
    {
      var i := KeptFrom(ran, k);
      assert RanNext(row, ran[..i], ran[i].result);
    }
    forall i, j | 0 <= i < j < |row.pending| ensures row.pending[i].id != row.pending[j].id {
      assert Kept(ran)[..j][i].id == row.pending[i].id;
    }
  }

  /** A checkpoint can be replayed to its end, by some requests, exactly when every
      pending call may be run, its history restores, and no two calls share an id. */
  lemma ReplayableIffFinishable(row: Row)
    requires row.status == AwaitingTools || row.status == RecoveryRequired
    ensures (exists reqs :: Run(row, reqs).row.status == ReadyToResume) <==> Finishable(row)
  {
    if Finishable(row) {
      var reqs := InOrder(row.pending);
      assert row.pending[..|row.pending|] == row.pending;
      InOrderProgress(row, |row.pending|);
      ExecutionLaw(row, reqs);
      assert Run(row, reqs).row.status == ReadyToResume;
    }
    if reqs :| Run(row, reqs).row.status == ReadyToResume {
      FinishedWasFinishable(row, reqs);
    }
  }

  // --------------------------------------------------------- concurrent requests

  type ThreadId = nat

  /** Where the handler of one request stands: before the session lock, before the
      read, before the execution, before the write. */
  datatype Phase =
    | Arrived(req: Request)
    | Locked(req: Request)
    | HasRead(req: Request, seen: Row)
    | HasRun(req: Request, seen: Row)

  datatype Machine = Machine(
    row: Row, ran: seq<Execution>, lock: Option<ThreadId>, threads: map<ThreadId, Phase>, done: seq<Request>)

  datatype Action = Arrive(x: ThreadId, req: Request) | Step(x: ThreadId)

  function Finish(m: Machine, x: ThreadId, row: Row, req: Request): Machine {
    m.(row := row, lock := None, threads := m.threads - {x}, done := m.done + [req])
  }

  /** One step of one thread. Nothing but the lock keeps threads apart. */
  function Next(m: Machine, a: Action): Machine {
    match a
    case Arrive(x, req) => if x in m.threads then m else m.(threads := m.threads[x := Arrived(req)])
    case Step(x) =>
      if x !in m.threads then m
      else
        match m.threads[x]
        case Arrived(req) =>
          if m.lock.Some? then m else m.(lock := Some(x), threads := m.threads[x := Locked(req)])
        case Locked(req) => m.(threads := m.threads[x := HasRead(req, m.row)])
        case HasRead(req, seen) =>
          var served := Serve(seen, req);
          if served.ran == [] then Finish(m, x, m.row, req)
          else m.(ran := m.ran + served.ran, threads := m.threads[x := HasRun(req, seen)])
        case HasRun(req, seen) =>
          Finish(m, x, if Keeps(seen, req) then Serve(seen, req).row else m.row, req)
  }

  function After(row: Row, actions: seq<Action>): Machine {
    if actions == [] then Machine(row, [], None, map[], [])
    else Next(After(row, actions[..|actions| - 1]), actions[|actions| - 1])
  }

  /** The requests whose tools have run: those done, and the one between its
      execution and its write. */
  function Carried(m: Machine): seq<Request> {
    if m.lock.Some? && m.lock.value in m.threads && m.threads[m.lock.value].HasRun? then
      m.done + [m.threads[m.lock.value].req]
    else m.done
  }

  ghost predicate OneInside(m: Machine) {
    && (m.lock.Some? ==> m.lock.value in m.threads)
    && (forall x :: x in m.threads && !m.threads[x].Arrived? ==> m.lock == Some(x))
    && (m.lock.Some? ==> !m.threads[m.lock.value].Arrived?)
  }

  ghost predicate Serial(row: Row, m: Machine) {
    && OneInside(m)
    && m.row == Run(row, m.done).row && m.ran == Run(row, Carried(m)).ran
    && (forall x :: x in m.threads && (m.threads[x].HasRead? || m.threads[x].HasRun?) ==> m.threads[x].seen == m.row)
    && (forall x :: x in m.threads && m.threads[x].HasRun? ==> Serve(m.row, m.threads[x].req).ran != [])
  }

  lemma StepStaysSerial(row: Row, m: Machine, x: ThreadId)
    requires Serial(row, m)
    ensures Serial(row, Next(m, Step(x)))
  {
    hide Serve, Run, Runs, ResultOf;
    if x in m.threads && (m.threads[x].HasRead? || m.threads[x].HasRun?) {
      var req := m.threads[x].req;
      RunMore(row, m.done, req);
      ServeShape(m.row, req);
      assert Serve(m.row, req).ran == [] ==> m.ran + Serve(m.row, req).ran == m.ran;
    }
  }

  lemma ArrivalStaysSerial(row: Row, m: Machine, x: ThreadId, req: Request)
    requires Serial(row, m)
    ensures Serial(row, Next(m, Arrive(x, req)))
  {
    hide Serve, Run;
    assert Carried(Next(m, Arrive(x, req))) == Carried(m);
  }

  lemma {:induction false} AlwaysSerial(row: Row, actions: seq<Action>)
    ensures Serial(row, After(row, actions))
  {
    if actions != [] {
      var m, a := After(row, actions[..|actions| - 1]), actions[|actions| - 1];
      AlwaysSerial(row, actions[..|actions| - 1]);
      match a
      case Arrive(x, req) => ArrivalStaysSerial(row, m, x, req);
      case Step(x) => StepStaysSerial(row, m, x);
    }
  }

  /** Whatever the interleaving, at most one request is inside the lock, and the
      stored row and the executions are those of serving the requests one after
      the other in the order in which they left it. */
  lemma SerialReplay(row: Row, actions: seq<Action>)
    ensures var m := After(row, actions);
      && (forall x, y :: x in m.threads && y in m.threads && !m.threads[x].Arrived? && !m.threads[y].Arrived? ==>
            x == y)
      && m.row == Run(row, m.done).row && m.ran == Run(row, Carried(m)).ran
      && (m.threads == map[] ==> m.row == Run(row, m.done).row && m.ran == Run(row, m.done).ran)
  {
    AlwaysSerial(row, actions);
  }

  /** So two requests never consume one call: every execution, in any interleaving,
      is of the call that was then the next unrecorded one. */
  lemma ConcurrentExecutionLaw(row: Row, actions: seq<Action>, i: nat)
    requires i < |After(row, actions).ran|
    ensures var ran := After(row, actions).ran;
      RanNext(row, ran[..i], ran[i].result)
  {
    AlwaysSerial(row, actions);
    ExecutionLaw(row, Carried(After(row, actions)));
  }
}
