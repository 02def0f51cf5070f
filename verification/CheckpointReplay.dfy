/** agents/main.py and agents/dev_harness: replay of the tool calls that an
    interrupted run left recorded in its checkpoint. */
module CheckpointReplay {
  import opened Wrappers

  type CallId = string

  datatype Category = Sandbox | TaskCall | Mcp

  datatype Mode = Default | Plan | AcceptEdits | Bypass

  datatype Status = Running | AwaitingTools | RecoveryRequired | ReadyToResume | Completed | Failed

  /** A recorded call. `name` is None when what was recorded is not a string;
      `resolved` stands for an approval state completed, denied or failed. */
  datatype Entry =
    | Call(
        id: CallId, name: Option<string>, argsOk: bool, category: Option<Category>, resolved: bool, flag: Option<bool>)
    | Malformed

  datatype CallResult = CallResult(id: CallId, name: string, output: string, isError: bool)

  datatype Turn = ToolResults(items: seq<CallResult>) | OtherTurn(content: string)

  /** `history` is None when `History.from_checkpoint` refuses what is stored. */
  datatype Row = Row(
    status: Status, pending: seq<Entry>, results: seq<CallResult>, history: Option<seq<Turn>>, mode: Mode,
    containerOk: bool)

  /** A request and what the outside does for it: `found` is whether the row could
      be read, `output` and `isError` what the tool gives if it is run, `saved`
      whether the row could be written. */
  datatype Request = Request(
    id: CallId, confirm: bool, isAdmin: bool, found: bool, output: string, isError: bool, saved: bool)

  datatype Reply =
    | Replayed(result: CallResult, status: Status, next: Option<CallId>)
    | Refused(code: nat)

  // ---------------------------------------------------------------- the policy

  predicate ReadOnlyMcp(n: string) {
    n == "web_search" || n == "web_fetch" || n == "hive.browser.search" || n == "hive.browser.fetch"
  }

  predicate ReplayableSandbox(n: string) {
    || n == "read_file" || n == "list_directory" || n == "glob" || n == "grep"
    || n == "write_file" || n == "run_command" || n == "edit_file" || n == "git"
  }

  predicate AllowedInPlanMode(n: string) {
    || n == "read_file" || n == "list_directory" || n == "glob" || n == "grep"
    || n == "web_search" || n == "web_fetch" || n == "TodoWrite"
  }

  function CategoryOf(call: Entry): Category
    requires call.Call?
  {
    if call.category.Some? then call.category.value
    else if call.name.None? then Sandbox
    else if call.name.value == "Task" then TaskCall
    else if ReadOnlyMcp(call.name.value) || "hive." <= call.name.value then Mcp
    else Sandbox
  }

  predicate Replayable(call: Entry)
    requires call.Call?
  {
    if call.flag.Some? then call.flag.value
    else if call.name.None? then false
    else
      match CategoryOf(call)
      case TaskCall => call.name.value == "Task"
      case Mcp => ReadOnlyMcp(call.name.value)
      case Sandbox => ReplayableSandbox(call.name.value)
  }

  /** `validate_next` after its first three tests, which the handler has made. */
  predicate PolicyOk(call: Entry, id: CallId, mode: Mode, isAdmin: bool)
    requires call.Call?
  {
    && call.id == id
    && !call.resolved
    && Replayable(call)
    && !(mode == Bypass && !isAdmin)
    && (CategoryOf(call) == Mcp ==> call.name.Some? && ReadOnlyMcp(call.name.value))
  }

  /** The checks between the recorded results and the execution, in their order. */
  function Refusal(row: Row, req: Request): Option<nat> {
    if row.status != AwaitingTools && row.status != RecoveryRequired then Some(409)
    else if row.pending == [] || row.pending[0] == Malformed then Some(409)
    else
      var call := row.pending[0];
      if !PolicyOk(call, req.id, row.mode, req.isAdmin) then Some(409)
      else if call.id != req.id then Some(409)
      else if call.name.None? || !call.argsOk then Some(409)
      else if row.mode == Bypass && !req.isAdmin then Some(403)
      else if row.mode == Plan && !AllowedInPlanMode(call.name.value) then Some(403)
      else if !row.containerOk then Some(409)
      else None
  }

  /** What makes a recorded call runnable for an administrator, whatever was asked. */
  predicate Runnable(row: Row, e: Entry) {
    && e.Call? && !e.resolved && Replayable(e) && e.name.Some? && e.argsOk && row.containerOk
    && (CategoryOf(e) == Mcp ==> ReadOnlyMcp(e.name.value))
    && (row.mode == Plan ==> AllowedInPlanMode(e.name.value))
  }

  /** The two tests that repeat the policy's refuse nothing more: a 403 is always
      plan mode's, and nothing is run out of the recorded order. */
  lemma RefusalIffNotRunnable(row: Row, req: Request)
    ensures Refusal(row, req) == None <==>
      && (row.status == AwaitingTools || row.status == RecoveryRequired)
      && row.pending != [] && Runnable(row, row.pending[0])
      && row.pending[0].id == req.id && (row.mode == Bypass ==> req.isAdmin)
    ensures Refusal(row, req) == Some(403) ==>
      row.mode == Plan && row.pending != [] && row.pending[0].Call? && row.pending[0].id == req.id
  {
    hide ReadOnlyMcp, ReplayableSandbox, AllowedInPlanMode, CategoryOf;
  }

  // --------------------------------------------------------------- the handler

  /** The first recorded result of the call. */
  function Prior(results: seq<CallResult>, id: CallId): Option<CallResult> {
    if results == [] then None
    else if results[0].id == id then Some(results[0])
    else Prior(results[1..], id)
  }

  lemma {:induction false} PriorIff(results: seq<CallResult>, id: CallId)
    ensures Prior(results, id).Some? <==> exists i :: 0 <= i < |results| && results[i].id == id
    ensures Prior(results, id).Some? ==> Prior(results, id).value in results && Prior(results, id).value.id == id
  {
    if results != [] {
      PriorIff(results[1..], id);
      if results[0].id != id {
        if i :| 0 <= i < |results| && results[i].id == id {
          assert results[1..][i - 1].id == id;
        }
        if j :| 0 <= j < |results| - 1 && results[1..][j].id == id {
          assert results[j + 1].id == id;
        }
      }
    }
  }

  /** The answer names the next pending call; an entry that is not a record makes
      the handler fail while it does. */
  function Answer(result: CallResult, status: Status, pending: seq<Entry>): Reply {
    if pending == [] then Replayed(result, status, None)
    else if pending[0] == Malformed then Refused(500)
    else Replayed(result, status, Some(pending[0].id))
  }

  predicate Runs(row: Row, req: Request) {
    req.confirm && req.found && Prior(row.results, req.id) == None && Refusal(row, req) == None
  }

  function ResultOf(row: Row, req: Request): CallResult
    requires Runs(row, req)
  {
    CallResult(row.pending[0].id, row.pending[0].name.value, req.output, req.isError)
  }

  /** The row after the head of the pending list has run, or None when its
      history cannot be restored. */
  function Advanced(row: Row, result: CallResult): Option<Row>
    requires row.pending != []
  {
    if |row.pending| > 1 then
      Some(row.(status := RecoveryRequired, pending := row.pending[1..], results := row.results + [result]))
    else if row.history == None then None
    else
      Some(row.(status := ReadyToResume, pending := [], results := [],
                history := Some(row.history.value + [ToolResults(row.results + [result])])))
  }

  /** A tool call that was run, and whether that was durably recorded. */
  datatype Execution = Execution(result: CallResult, kept: bool)

  datatype Served = Served(row: Row, ran: seq<Execution>, reply: Reply)

  /** One request: the row as stored afterwards, what was run, and the answer. */
  function Serve(row: Row, req: Request): Served {
    if !req.confirm then Served(row, [], Refused(400))
    else if !req.found then Served(row, [], Refused(404))
    else
      var prior := Prior(row.results, req.id);
      if prior.Some? then Served(row, [], Answer(prior.value, row.status, row.pending))
      else
        var refusal := Refusal(row, req);
        if refusal.Some? then Served(row, [], Refused(refusal.value))
        else
          var result := ResultOf(row, req);
          var after := Advanced(row, result);
          if after == None then Served(row, [Execution(result, false)], Refused(409))
          else if !req.saved then Served(row, [Execution(result, false)], Refused(503))
          else Served(after.value, [Execution(result, true)], Answer(result, after.value.status, after.value.pending))
  }

  // ------------------------------------------------- what one request comes to

  /** Running the head call with the request's own output and error flag: what is
      stored if it is kept, and what is answered. */
  ghost predicate RanHead(was: Row, req: Request, now: Row, e: Execution, reply: Reply) {
    && was.pending != [] && was.pending[0].Call? && was.pending[0].id == req.id && was.pending[0].name.Some?
    && e.result == CallResult(req.id, was.pending[0].name.value, req.output, req.isError)
    && (e.kept <==> req.saved && (|was.pending| > 1 || was.history.Some?))
    && (!e.kept ==> now == was && reply == Refused(if |was.pending| == 1 && was.history.None? then 409 else 503))
    && (e.kept && |was.pending| > 1 ==>
          && now == was.(status := RecoveryRequired, pending := was.pending[1..], results := was.results + [e.result])
          && AnswersWith(now, e.result, reply))
    && (e.kept && |was.pending| == 1 ==>
          && now == Row(ReadyToResume, [], [], Some(was.history.value + [ToolResults(was.results + [e.result])]),
                        was.mode, was.containerOk)
          && AnswersWith(now, e.result, reply))
  }

  /** The answer carries the result, the status and the call that is next; an entry
      that is not a record makes the handler fail while it answers. */
  ghost predicate AnswersWith(now: Row, result: CallResult, reply: Reply) {
    if now.pending != [] && now.pending[0].Malformed? then reply == Refused(500)
    else
      && reply.Replayed? && reply.result == result && reply.status == now.status
      && reply.next == if now.pending == [] then None else Some(now.pending[0].id)
  }

  /** The first result recorded for the call. */
  ghost predicate FirstOf(results: seq<CallResult>, k: nat, id: CallId) {
    k < |results| && results[k].id == id && forall j :: 0 <= j < k ==> results[j].id != id
  }

  /** Running nothing: a refusal, or the first result recorded for the call again. */
  ghost predicate RanNothing(was: Row, req: Request, reply: Reply) {
    if !req.confirm then reply == Refused(400)
    else if !req.found then reply == Refused(404)
    else if exists i :: 0 <= i < |was.results| && was.results[i].id == req.id then
      exists k: nat :: FirstOf(was.results, k, req.id) && AnswersWith(was, was.results[k], reply)
    else reply == Refused(409) || (reply == Refused(403) && was.mode == Plan)
  }

  lemma {:induction false} PriorIsFirst(results: seq<CallResult>, k: nat, id: CallId)
    requires FirstOf(results, k, id)
    ensures Prior(results, id) == Some(results[k])
  {
    if k > 0 {
      assert results[0].id != id && forall j :: 0 <= j < k - 1 ==> results[1..][j] == results[j + 1];
      PriorIsFirst(results[1..], k - 1, id);
    }
  }

  lemma {:induction false} PriorPosition(results: seq<CallResult>, id: CallId) returns (k: nat)
    requires Prior(results, id).Some?
    ensures FirstOf(results, k, id) && Prior(results, id) == Some(results[k])
  {
    if results[0].id == id {
      k := 0;
    } else {
      var j := PriorPosition(results[1..], id);
      k := j + 1;
      assert forall i :: 0 < i < k ==> results[i] == results[1..][i - 1];
    }
  }

  lemma AnswerIs(row: Row, result: CallResult)
    ensures AnswersWith(row, result, Answer(result, row.status, row.pending))
  {
  }

  lemma RefusalCodes(row: Row, req: Request)
    ensures Refusal(row, req).Some? ==>
      Refusal(row, req) == Some(409) || (Refusal(row, req) == Some(403) && row.mode == Plan)
  {
    hide ReadOnlyMcp, ReplayableSandbox, AllowedInPlanMode, CategoryOf, Replayable;
  }

  /** Every request runs the head call, records it and answers so, or runs nothing. */
  lemma ServeIs(row: Row, req: Request)
    ensures var served := Serve(row, req);
      if served.ran == [] then served.row == row && RanNothing(row, req, served.reply)
      else
        && |served.ran| == 1 && req.confirm && req.found
        && (forall i :: 0 <= i < |row.results| ==> row.results[i].id != req.id)
        && RanHead(row, req, served.row, served.ran[0], served.reply)
  {
    hide Prior, Refusal, Answer, AnswersWith, FirstOf, Runnable;
    PriorIff(row.results, req.id);
    RefusalCodes(row, req);
    RefusalIffNotRunnable(row, req);
    HeadIsNamed(row);
    if req.confirm && req.found {
      if Prior(row.results, req.id).Some? {
        var k := PriorPosition(row.results, req.id);
        AnswerIs(row, row.results[k]);
      } else if Refusal(row, req) == None {
        var after := Advanced(row, ResultOf(row, req));
        if after.Some? { AnswerIs(after.value, ResultOf(row, req)); }
      }
    }
  }

  lemma HeadIsNamed(row: Row)
    ensures row.pending != [] && Runnable(row, row.pending[0]) ==> row.pending[0].Call? && row.pending[0].name.Some?
  {
  }

  /** The stored row of one session, and the tools run for it. */
  class Session {
    var status: Status
    var pending: seq<Entry>
    var results: seq<CallResult>
    var history: Option<seq<Turn>>
    const mode: Mode
    const containerOk: bool
    ghost var ran: seq<Execution>

    constructor (row: Row)
      ensures Stored() == row && ran == []
    {
      status, pending, results, history := row.status, row.pending, row.results, row.history;
      mode, containerOk := row.mode, row.containerOk;
      ran := [];
    }

    function Stored(): Row
      reads this
    {
      Row(status, pending, results, history, mode, containerOk)
    }

    /** `replay_dev_checkpoint_tool`, inside its session lock. */
    method Replay(req: Request) returns (reply: Reply)
      modifies this
      ensures var served := Serve(old(Stored()), req);
        Stored() == served.row && ran == old(ran) + served.ran && reply == served.reply
      ensures ran == old(ran) ==> Stored() == old(Stored()) && RanNothing(old(Stored()), req, reply)
      ensures ran != old(ran) ==>
        && req.confirm && req.found && |ran| == |old(ran)| + 1 && ran[..|old(ran)|] == old(ran)
        && RanHead(old(Stored()), req, Stored(), ran[|old(ran)|], reply)
    {
      hide RanHead, RanNothing;
      ServeIs(Stored(), req);
      if !req.confirm { return Refused(400); }
      if !req.found { return Refused(404); }
      var i := 0;
      while i < |results|
        invariant 0 <= i <= |results|
        invariant Stored() == old(Stored()) && ran == old(ran)
        invariant Prior(results, req.id) == Prior(results[i..], req.id)
      {
        if results[i].id == req.id { return Answer(results[i], status, pending); }
        i := i + 1;
      }
      var refusal := Refusal(Stored(), req);
      if refusal.Some? { return Refused(refusal.value); }
      var result := CallResult(pending[0].id, pending[0].name.value, req.output, req.isError);
      var replayed := results + [result];
      var rest := pending[1..];
      if rest != [] {
        ran := ran + [Execution(result, req.saved)];
        if !req.saved { return Refused(503); }
        status, pending, results := RecoveryRequired, rest, replayed;
      } else {
        ran := ran + [Execution(result, history.Some? && req.saved)];
        if history.None? { return Refused(409); }
        if !req.saved { return Refused(503); }
        status, pending, results, history := ReadyToResume, [], [], Some(history.value + [ToolResults(replayed)]);
      }
      reply := Answer(result, status, pending);
    }
  }
}
