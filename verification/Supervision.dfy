/** agents/daemon_registry.py: the failure count of a supervised worker. */
module Supervision {

  datatype DaemonState = Pending | Running | Stopped | Failed

  /** How many calls at the end of the history failed. */
  function Trailing(history: seq<bool>): (n: nat)
    ensures n <= |history|
  {
    if history == [] || history[|history| - 1] then 0 else Trailing(history[..|history| - 1]) + 1
  }

  /** `n` failures at the end, and no failure just in front of them. */
  ghost predicate EndsInFailures(history: seq<bool>, n: nat) {
    && n <= |history| && (forall i :: |history| - n <= i < |history| ==> !history[i])
    && (n < |history| ==> history[|history| - n - 1])
  }

  lemma {:induction false} TrailingIff(history: seq<bool>, n: nat)
    ensures Trailing(history) == n <==> EndsInFailures(history, n)
  {
    if history != [] {
      var before := history[..|history| - 1];
      if n > 0 { TrailingIff(before, n - 1); }
      if !history[|history| - 1] && n > 0 {
        assert EndsInFailures(history, n) <==> EndsInFailures(before, n - 1);
      }
    }
  }

  function Limit(maxFailures: int): int {
    if maxFailures > 1 then maxFailures else 1
  }

  /** A worker and its loop. `calls` are the handler's outcomes since the start. */
  class Worker {
    var state: DaemonState
    var failureCount: nat
    var stopRequested: bool
    const maxFailures: int
    ghost var calls: seq<bool>

    constructor (maxFailures: int)
      ensures state == Pending && failureCount == 0 && this.maxFailures == maxFailures && calls == []
    {
      state, failureCount, stopRequested, calls := Pending, 0, false, [];
      this.maxFailures := maxFailures;
    }

    /** What holds between the calls of a loop that has not ended by itself. */
    ghost predicate Counts()
      reads this
    {
      && failureCount == Trailing(calls)
      && (forall k :: 0 <= k <= |calls| ==> Trailing(calls[..k]) < Limit(maxFailures))
      && (state == Running || (state == Stopped && stopRequested))
    }

    /** `start`: a running worker is left alone, any other begins to count anew. */
    method Start()
      modifies this
      ensures old(state) == Running ==>
        state == Running && failureCount == old(failureCount) && calls == old(calls)
          && stopRequested == old(stopRequested)
      ensures old(state) != Running ==>
        state == Running && failureCount == 0 && calls == [] && !stopRequested && Counts()
    {
      if state == Running { return; }
      stopRequested := false;
      failureCount := 0;
      calls := [];
      state := Running;
    }

    /** `stop`, at any time between two steps of the loop. */
    method Stop()
      modifies this`state, this`stopRequested
      ensures state == if old(state) == Running then Stopped else old(state)
      ensures stopRequested == (old(stopRequested) || old(state) == Running)
      ensures old(Counts()) ==> Counts()
    {
      if state != Running { return; }
      stopRequested := true;
      state := Stopped;
    }

    /** One turn of the loop: the handler succeeds or raises. A worker stopped while
        its handler runs can still end as failed. */
    method Turn(ok: bool) returns (ended: bool)
      requires Counts()
      modifies this
      ensures calls == old(calls) + [ok] && failureCount == Trailing(calls) && stopRequested == old(stopRequested)
      ensures ended <==> Trailing(calls) >= Limit(maxFailures)
      ensures ended <==> state == Failed
      ensures ended ==> failureCount == Limit(maxFailures)
      ensures !ended ==> Counts() && state == old(state)
    {
      ghost var before := calls;
      calls := calls + [ok];
      assert calls[..|before|] == before;
      forall k | 0 <= k <= |before| ensures Trailing(calls[..k]) < Limit(maxFailures) {
        assert calls[..k] == before[..k];
      }
      assert before[..|before|] == before && calls[..|calls|] == calls;
      if ok {
        failureCount := 0;
      } else {
        failureCount := failureCount + 1;
        if failureCount >= maxFailures {
          state := Failed;
          return true;
        }
      }
      ended := false;
    }

    /** `_worker_loop` over the next handler outcomes; `stops[i]` says whether the
        worker is stopped before call `i` is due. The worker is failed exactly
        when the trailing failures first reach the limit. */
    method Loop(outcomes: seq<bool>, stops: seq<bool>) returns (made: nat)
      requires |stops| == |outcomes| && state == Running && !stopRequested && calls == [] && Counts()
      modifies this
      ensures made <= |outcomes| && calls == outcomes[..made] && failureCount == Trailing(calls)
      ensures forall i :: 0 <= i < made ==> !stops[i]
      ensures forall k :: 0 <= k < made ==> Trailing(outcomes[..k]) < Limit(maxFailures)
      ensures state == Failed <==> Trailing(outcomes[..made]) >= Limit(maxFailures)
      ensures made < |outcomes| ==> state == Failed || (stops[made] && state == Stopped)
      ensures state != Failed ==> (state == Running <==> made == |outcomes|)
    {
      made := 0;
      while made < |outcomes|
        invariant 0 <= made <= |outcomes|
        invariant Counts() && state == Running && !stopRequested && calls == outcomes[..made]
        invariant forall i :: 0 <= i < made ==> !stops[i]
      {
        ghost var before := calls;
        if stops[made] { Stop(); }
        if stopRequested { break; }
        var ended := Turn(outcomes[made]);
        assert outcomes[..made + 1] == before + [outcomes[made]];
        made := made + 1;
        if ended {
          forall k | 0 <= k < made ensures Trailing(outcomes[..k]) < Limit(maxFailures) {
            assert outcomes[..k] == before[..k];
          }
          return;
        }
      }
      forall k | 0 <= k <= made ensures Trailing(outcomes[..k]) < Limit(maxFailures) {
        assert outcomes[..k] == calls[..k];
      }
    }
  }
}
