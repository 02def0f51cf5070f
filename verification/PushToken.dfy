/** agents/publish_state.py: the confirm token of a push preview, one Redis key a
    task, consumed by confirms that race with each other and with new previews. */
module PushToken {
  import opened Wrappers

  type Token = string
  type ThreadId = nat

  /** What the Redis client offers a confirm: EVAL, or GET with GETDEL, or neither. */
  datatype Client = Lua | GetDel | Plain

  /** A confirm that saw its token and has yet to remove it. */
  datatype Seen = Seen(expected: Token, client: Client)

  /** The key, the confirms between their two commands, and the history: tokens
      issued, accepted, and lost (overwritten, expired, or removed unaccepted). */
  datatype Store = Store(
    stored: Option<Token>, seen: map<ThreadId, Seen>, issued: seq<Token>, accepted: seq<Token>, lost: seq<Token>)

  const START := Store(None, map[], [], [], [])

  /** Each action is one Redis command. */
  datatype Action =
    | Preview(token: Token)
    | Expire
    | Confirm(x: ThreadId, expected: Token, client: Client)
    | Remove(x: ThreadId)

  function AsSeq(o: Option<Token>): seq<Token> {
    if o.Some? then [o.value] else []
  }

  /** Tokens are random: a preview never issues one twice. */
  function Next(s: Store, a: Action): Store {
    match a
    case Preview(token) =>
      if token in s.issued then s
      else s.(stored := Some(token), issued := s.issued + [token], lost := s.lost + AsSeq(s.stored))
    case Expire => s.(stored := None, lost := s.lost + AsSeq(s.stored))
    case Confirm(x, expected, client) =>
      if x in s.seen || s.stored != Some(expected) then s
      else if client == Lua then s.(stored := None, accepted := s.accepted + [expected])
      else s.(seen := s.seen[x := Seen(expected, client)])
    case Remove(x) =>
      if x !in s.seen then s
      else
        var expected, left := s.seen[x].expected, s.seen - {x};
        var done := s.(seen := left, stored := None);
        if s.stored == Some(expected) then done.(accepted := s.accepted + [expected])
        else if s.seen[x].client == Plain then
          done.(accepted := s.accepted + [expected], lost := s.lost + AsSeq(s.stored))
        else done.(lost := s.lost + AsSeq(s.stored))
  }

  function After(actions: seq<Action>): Store {
    if actions == [] then START else Next(After(actions[..|actions| - 1]), actions[|actions| - 1])
  }

  // ------------------------------------------------------------- conservation

  /** Every issued token is at one place: accepted, lost, or still in the key. */
  ghost predicate Conserved(s: Store) {
    forall t: Token :: multiset(s.issued)[t] == Places(s, t)
  }

  function Places(s: Store, t: Token): nat {
    multiset(s.accepted)[t] + multiset(s.lost)[t] + multiset(AsSeq(s.stored))[t]
  }

  /** The plain fallback removes and accepts, whatever the key holds by then. */
  ghost predicate AcceptsBlindly(s: Store, a: Action) {
    a.Remove? && a.x in s.seen && s.seen[a.x].client == Plain && s.stored != Some(s.seen[a.x].expected)
  }

  /** What a step issues, accepts and loses, against the key. */
  lemma Moves(s: Store, a: Action) returns (issued: seq<Token>, accepted: seq<Token>, lost: seq<Token>)
    requires !AcceptsBlindly(s, a)
    ensures var n := Next(s, a);
      n.issued == s.issued + issued && n.accepted == s.accepted + accepted && n.lost == s.lost + lost
    ensures issued + AsSeq(s.stored) == accepted + lost + AsSeq(Next(s, a).stored) ||
      (lost == AsSeq(s.stored) && accepted == [] && issued == AsSeq(Next(s, a).stored))
  {
    issued, accepted, lost := [], [], [];
    match a
    case Preview(token) => if token !in s.issued { issued, lost := [token], AsSeq(s.stored); }
    case Expire => lost := AsSeq(s.stored);
    case Confirm(x, expected, client) =>
      if x !in s.seen && s.stored == Some(expected) && client == Lua { accepted := [expected]; }
    case Remove(x) =>
      if x in s.seen {
        if s.stored == Some(s.seen[x].expected) { accepted := [s.seen[x].expected]; } else { lost := AsSeq(s.stored); }
      }
  }

  lemma Conserves(s: Store, a: Action)
    requires Conserved(s) && !AcceptsBlindly(s, a)
    ensures Conserved(Next(s, a))
  {
    var issued, accepted, lost := Moves(s, a);
    hide Next, AcceptsBlindly, AsSeq;
    var n := Next(s, a);
    forall t: Token ensures multiset(n.issued)[t] == Places(n, t) {
      assert multiset(issued + AsSeq(s.stored))[t] == multiset(issued)[t] + multiset(AsSeq(s.stored))[t];
      assert multiset(s.issued)[t] == Places(s, t);
    }
  }

  lemma BlindAddsOne(s: Store, a: Action)
    requires AcceptsBlindly(s, a)
    ensures var n := Next(s, a);
      n.issued == s.issued && Places(n, s.seen[a.x].expected) == Places(s, s.seen[a.x].expected) + 1
  {
    assert multiset(AsSeq(None)) == multiset{};
  }

  /** A step conserves the tokens exactly when it is not a blind acceptance. */
  lemma ConservedIff(s: Store, a: Action)
    requires Conserved(s)
    ensures Conserved(Next(s, a)) <==> !AcceptsBlindly(s, a)
  {
    if AcceptsBlindly(s, a) {
      BlindAddsOne(s, a);
      hide Next, Places;
      assert multiset(s.issued)[s.seen[a.x].expected] == Places(s, s.seen[a.x].expected);
    } else {
      Conserves(s, a);
    }
  }

  /** A step adds at least as much to the places of a token as to its issue. */
  lemma SurplusGrows(s: Store, a: Action, t: Token)
    ensures Places(Next(s, a), t) - multiset(Next(s, a).issued)[t] >= Places(s, t) - multiset(s.issued)[t]
  {
    if AcceptsBlindly(s, a) {
      BlindAddsOne(s, a);
    } else {
      var issued, accepted, lost := Moves(s, a);
      hide Next, AcceptsBlindly, AsSeq;
      assert multiset(issued + AsSeq(s.stored))[t] == multiset(issued)[t] + multiset(AsSeq(s.stored))[t];
    }
  }

  ghost predicate NoBlindStep(actions: seq<Action>) {
    forall k :: 0 <= k < |actions| ==> !AcceptsBlindly(After(actions[..k]), actions[k])
  }

  lemma {:induction false} NeverShort(actions: seq<Action>, t: Token)
    ensures Places(After(actions), t) >= multiset(After(actions).issued)[t]
  {
    if actions != [] {
      NeverShort(actions[..|actions| - 1], t);
      SurplusGrows(After(actions[..|actions| - 1]), actions[|actions| - 1], t);
    }
  }

  /** What one token has too much, it keeps. */
  lemma SurplusStays(s: Store, a: Action)
    requires !Conserved(s) && forall t: Token :: Places(s, t) >= multiset(s.issued)[t]
    ensures !Conserved(Next(s, a))
  {
    hide Places, Next;
    var t: Token :| multiset(s.issued)[t] != Places(s, t);
    SurplusGrows(s, a, t);
  }

  lemma NoBlindStepSplit(actions: seq<Action>)
    requires actions != []
    ensures var before, a := actions[..|actions| - 1], actions[|actions| - 1];
      NoBlindStep(actions) <==> NoBlindStep(before) && !AcceptsBlindly(After(before), a)
  {
    hide AcceptsBlindly, After;
    var before, last := actions[..|actions| - 1], |actions| - 1;
    if NoBlindStep(before) && !AcceptsBlindly(After(before), actions[last]) {
      forall k | 0 <= k < |actions| ensures !AcceptsBlindly(After(actions[..k]), actions[k]) {
        if k < last { assert before[..k] == actions[..k]; }
      }
    }
    if NoBlindStep(actions) {
      forall k | 0 <= k < last ensures !AcceptsBlindly(After(before[..k]), before[k]) {
        assert before[..k] == actions[..k];
      }
    }
  }

  lemma NothingPlaced()
    ensures Conserved(START)
  {
  }

  /** A run conserves its tokens exactly when none of its steps accepts blindly:
      no later step makes up for one that did. */
  lemma {:induction false} RunConservedIff(actions: seq<Action>)
    ensures Conserved(After(actions)) <==> NoBlindStep(actions)
  {
    hide After, Next, AcceptsBlindly, Places;
    if actions == [] {
      NothingYet();
      NothingPlaced();
    } else {
      var before, a := actions[..|actions| - 1], actions[|actions| - 1];
      RunConservedIff(before);
      NoBlindStepSplit(actions);
      AfterOne(before, a);
      assert before + [a] == actions;
      if Conserved(After(before)) {
        ConservedIff(After(before), a);
      } else {
        forall t: Token ensures Places(After(before), t) >= multiset(After(before).issued)[t] { NeverShort(before, t); }
        SurplusStays(After(before), a);
      }
    }
  }

  ghost predicate Atomic(actions: seq<Action>) {
    forall k :: 0 <= k < |actions| && actions[k].Confirm? ==> actions[k].client != Plain
  }

  ghost predicate Inv(s: Store) {
    && Conserved(s)
    && (forall t: Token :: multiset(s.issued)[t] <= 1)
    && (forall x: ThreadId :: x in s.seen ==> s.seen[x].client == GetDel)
  }

  lemma IssuedOnce(s: Store, a: Action)
    requires Inv(s) && (a.Confirm? ==> a.client != Plain)
    ensures forall t: Token :: multiset(Next(s, a).issued)[t] <= 1
    ensures forall x: ThreadId :: x in Next(s, a).seen ==> Next(s, a).seen[x].client == GetDel
    ensures !AcceptsBlindly(s, a)
  {
    hide Conserved;
    if a.Preview? && a.token !in s.issued {
      assert multiset(s.issued)[a.token] == 0;
    }
  }

  lemma {:induction false} AlwaysInv(actions: seq<Action>)
    requires Atomic(actions)
    ensures Inv(After(actions))
  {
    if actions != [] {
      var before, a := actions[..|actions| - 1], actions[|actions| - 1];
      AlwaysInv(before);
      ConservedIff(After(before), a);
      IssuedOnce(After(before), a);
      hide Next, Conserved, After;
      assert After(actions) == Next(After(before), a) by { AfterOne(before, a); assert before + [a] == actions; }
    }
  }

  /** With the script or GETDEL, in any interleaving of previews, expiries and
      confirms: each token is accepted at most once, only if it was issued, and
      every preview is accounted for, so there are no more pushes than previews. */
  lemma AcceptedOnce(actions: seq<Action>, t: Token)
    requires Atomic(actions)
    ensures var s := After(actions);
      && multiset(s.issued)[t] <= 1
      && multiset(s.issued)[t] == multiset(s.accepted)[t] + multiset(s.lost)[t] + (if s.stored == Some(t) then 1 else 0)
      && |s.accepted| + |s.lost| + (if s.stored.Some? then 1 else 0) == |s.issued|
  {
    AlwaysInv(actions);
    var s := After(actions);
    assert multiset(s.issued)[t] == Places(s, t);
    assert multiset(s.issued) == multiset(s.accepted) + multiset(s.lost) + multiset(AsSeq(s.stored)) by {
      forall u: Token
        ensures multiset(s.issued)[u] == (multiset(s.accepted) + multiset(s.lost) + multiset(AsSeq(s.stored)))[u]
      {
        assert multiset(s.issued)[u] == Places(s, u);
      }
    }
    assert |multiset(s.issued)| == |multiset(s.accepted)| + |multiset(s.lost)| + |multiset(AsSeq(s.stored))|;
  }

  lemma AfterOne(actions: seq<Action>, a: Action)
    ensures After(actions + [a]) == Next(After(actions), a)
  {
    assert (actions + [a])[..|actions|] == actions;
  }

  /** Without either, two confirms of one preview can both be accepted. */
  lemma PlainAcceptsTwice(t: Token)
    ensures var s := After([Preview(t)] + [Confirm(0, t, Plain)] + [Confirm(1, t, Plain)] + [Remove(0)] + [Remove(1)]);
      s.issued == [t] && s.accepted == [t, t]
  {
    hide After;
    NothingYet();
    AfterOne([], Preview(t));
    assert [] + [Preview(t)] == [Preview(t)];
    AfterOne([Preview(t)], Confirm(0, t, Plain));
    AfterOne([Preview(t)] + [Confirm(0, t, Plain)], Confirm(1, t, Plain));
    AfterOne([Preview(t)] + [Confirm(0, t, Plain)] + [Confirm(1, t, Plain)], Remove(0));
    AfterOne([Preview(t)] + [Confirm(0, t, Plain)] + [Confirm(1, t, Plain)] + [Remove(0)], Remove(1));
  }

  lemma NothingYet()
    ensures After([]) == START
  {
  }

  // ------------------------------------------------------------ a newer token

  lemma AfterLast(actions: seq<Action>)
    requires actions != []
    ensures After(actions) == Next(After(actions[..|actions| - 1]), actions[|actions| - 1])
  {
  }

  /** The preview made a new token. */
  ghost predicate Issues(actions: seq<Action>, j: nat)
    requires j < |actions|
  {
    actions[j].Preview? && actions[j].token !in After(actions[..j]).issued
  }

  /** The GET of the confirm on thread `x`: the step that last put it in `seen`. */
  function GotAt(actions: seq<Action>, x: ThreadId): nat {
    if actions == [] then 0
    else
      var before := actions[..|actions| - 1];
      if x in After(actions).seen && x !in After(before).seen then |actions| - 1 else GotAt(before, x)
  }

  /** A preview since that GET made the token that is in the key now. */
  ghost predicate Overtaken(actions: seq<Action>, x: ThreadId) {
    exists j :: GotAt(actions, x) < j < |actions| && Issues(actions, j)
      && After(actions).stored == Some(actions[j].token)
  }

  /** The key holds the last token issued; every confirm in between read one. */
  ghost predicate Traced(s: Store) {
    && (forall i, j :: 0 <= i < j < |s.issued| ==> s.issued[i] != s.issued[j])
    && (s.stored.Some? ==> s.issued != [] && s.stored.value == s.issued[|s.issued| - 1])
    && (forall x: ThreadId :: x in s.seen ==> s.seen[x].expected in s.issued)
  }

  lemma {:induction false} AlwaysTraced(actions: seq<Action>)
    ensures Traced(After(actions))
  {
    if actions != [] {
      AlwaysTraced(actions[..|actions| - 1]);
    }
  }

  lemma IssuedSooner(actions: seq<Action>, j: nat)
    requires actions != [] && j < |actions| - 1
    ensures Issues(actions, j) <==> Issues(actions[..|actions| - 1], j)
  {
    assert actions[..|actions| - 1][..j] == actions[..j];
  }

  /** What one more step does to the key. */
  lemma StoredAfter(s: Store, a: Action, x: ThreadId)
    requires x in s.seen && x in Next(s, a).seen
    ensures var n := Next(s, a);
      && n.seen[x] == s.seen[x]
      && if a.Preview? && a.token !in s.issued then n.stored == Some(a.token)
         else n.stored == s.stored || n.stored == None
  {
  }

  lemma SameOvertaken(actions: seq<Action>, x: ThreadId)
    requires actions != [] && !Issues(actions, |actions| - 1)
    requires var before := actions[..|actions| - 1];
      GotAt(actions, x) == GotAt(before, x) && After(actions).stored == After(before).stored
    ensures Overtaken(actions, x) <==> Overtaken(actions[..|actions| - 1], x)
  {
    hide After, GotAt;
    var before := actions[..|actions| - 1];
    forall j | 0 <= j < |before| ensures Issues(actions, j) <==> Issues(before, j) { IssuedSooner(actions, j); }
    if Overtaken(before, x) {
      var j :| GotAt(before, x) < j < |before| && Issues(before, j) && After(before).stored == Some(before[j].token);
      assert Issues(actions, j);
    }
  }

  lemma StaysOvertaken(actions: seq<Action>, x: ThreadId)
    requires actions != [] && x in After(actions).seen && x in After(actions[..|actions| - 1]).seen
    requires var s := After(actions[..|actions| - 1]);
      && Traced(s) && GotAt(actions[..|actions| - 1], x) < |actions| - 1
      && (Overtaken(actions[..|actions| - 1], x) <==> s.stored.Some? && s.stored.value != s.seen[x].expected)
    ensures var s := After(actions);
      Overtaken(actions, x) <==> s.stored.Some? && s.stored.value != s.seen[x].expected
  {
    var before, last := actions[..|actions| - 1], |actions| - 1;
    AfterLast(actions);
    StoredAfter(After(before), actions[last], x);
    hide After, Next;
    assert GotAt(actions, x) == GotAt(before, x);
    assert Issues(actions, last) <==> actions[last].Preview? && actions[last].token !in After(before).issued;
    hide GotAt, Issues;
    if Issues(actions, last) {
      assert Overtaken(actions, x);
    } else if After(actions).stored == After(before).stored {
      SameOvertaken(actions, x);
    }
  }

  /** The token that a GET found is the one in the key at the removal exactly when
      no newer one is there. */
  lemma {:induction false} FoundOrOvertaken(actions: seq<Action>, x: ThreadId)
    requires x in After(actions).seen
    ensures var s, got := After(actions), GotAt(actions, x);
      && got < |actions| && actions[got] == Confirm(x, s.seen[x].expected, s.seen[x].client)
      && After(actions[..got]).stored == Some(s.seen[x].expected)
    ensures var s := After(actions);
      Overtaken(actions, x) <==> s.stored.Some? && s.stored.value != s.seen[x].expected
  {
    var before, a := actions[..|actions| - 1], actions[|actions| - 1];
    AfterLast(actions);
    if x in After(before).seen {
      FoundOrOvertaken(before, x);
      AlwaysTraced(before);
      StaysOvertaken(actions, x);
      StoredAfter(After(before), a, x);
      assert before[..GotAt(before, x)] == actions[..GotAt(before, x)];
    }
  }

  lemma LostByOne(s: Store, a: Action)
    requires a.Confirm? || a.Remove?
    ensures var n := Next(s, a);
      if a.Remove? && a.x in s.seen && s.stored.Some? && s.stored.value != s.seen[a.x].expected then
        && n.stored == None && n.lost == s.lost + [s.stored.value]
        && n.accepted == s.accepted + if s.seen[a.x].client == Plain then [s.seen[a.x].expected] else []
      else n.lost == s.lost
  {
  }

  /** The second token was issued after the first, and is the last. */
  ghost predicate Later(issued: seq<Token>, first: Token, second: Token) {
    exists i :: 0 <= i < |issued| - 1 && issued[i] == first && issued[|issued| - 1] == second
  }

  lemma NewerIsLater(s: Store, x: ThreadId)
    requires Traced(s) && x in s.seen && s.stored.Some? && s.stored.value != s.seen[x].expected
    ensures Later(s.issued, s.seen[x].expected, s.stored.value)
  {
    var i :| 0 <= i < |s.issued| && s.issued[i] == s.seen[x].expected;
  }

  /** Over any run, a confirm loses a token exactly when a preview fell between its
      GET and its removal and its token is still in the key: then GETDEL or DELETE
      takes that token, issued after the one that the GET found, and GETDEL accepts
      neither. */
  lemma ConfirmLoses(actions: seq<Action>, a: Action)
    requires a.Confirm? || a.Remove?
    ensures var s := After(actions);
      var n := Next(s, a);
      && (n.lost != s.lost <==> a.Remove? && a.x in s.seen && Overtaken(actions, a.x))
      && (n.lost != s.lost ==>
            && s.stored.Some? && n.stored == None && n.lost == s.lost + [s.stored.value]
            && n.accepted == s.accepted + (if s.seen[a.x].client == Plain then [s.seen[a.x].expected] else [])
            && Later(s.issued, s.seen[a.x].expected, s.stored.value))
  {
    hide *;
    var s := After(actions);
    AlwaysTraced(actions);
    LostByOne(s, a);
    if a.Remove? && a.x in s.seen {
      FoundOrOvertaken(actions, a.x);
      if s.stored.Some? && s.stored.value != s.seen[a.x].expected { NewerIsLater(s, a.x); }
    }
  }

  /** So a GETDEL destroys the newer preview's token, and neither is ever accepted:
      both are lost. */
  lemma NewerTokenLost(t: Token, u: Token)
    requires t != u
    ensures var s := After([Preview(t)] + [Confirm(0, t, GetDel)] + [Preview(u)] + [Remove(0)]);
      s == Store(None, map[], [t, u], [], [t, u])
  {
    hide After;
    NothingYet();
    AfterOne([], Preview(t));
    assert [] + [Preview(t)] == [Preview(t)];
    AfterOne([Preview(t)], Confirm(0, t, GetDel));
    AfterOne([Preview(t)] + [Confirm(0, t, GetDel)], Preview(u));
    AfterOne([Preview(t)] + [Confirm(0, t, GetDel)] + [Preview(u)], Remove(0));
    var none: map<ThreadId, Seen> := map[];
    assert map[0 := Seen(t, GetDel)] - {0} == none && none[0 := Seen(t, GetDel)] == map[0 := Seen(t, GetDel)];
    assert After([Preview(t)] + [Confirm(0, t, GetDel)]) == Store(Some(t), map[0 := Seen(t, GetDel)], [t], [], []);
    assert After([Preview(t)] + [Confirm(0, t, GetDel)] + [Preview(u)]) ==
      Store(Some(u), map[0 := Seen(t, GetDel)], [t, u], [], [t]);
  }

  // ------------------------------------------------------------------ the code

  /** One Redis key. */
  class Key {
    var stored: Option<Token>

    constructor ()
      ensures stored == None
    {
      stored := None;
    }

    /** SET of a new preview's token. */
    method Set(token: Token)
      modifies this
      ensures stored == Some(token)
    {
      stored := Some(token);
    }

    /** The Lua script: GET, compare and DEL in one command. */
    method Eval(expected: Token) returns (consumed: bool)
      modifies this
      ensures consumed <==> old(stored) == Some(expected)
      ensures stored == if consumed then None else old(stored)
    {
      consumed := stored == Some(expected);
      if consumed { stored := None; }
    }

    method Take() returns (value: Option<Token>)
      modifies this
      ensures value == old(stored) && stored == None
    {
      value := stored;
      stored := None;
    }

    /** `consume_push_confirm` with nobody in between: on every kind of client it
        accepts exactly the stored token, removes what it accepts, and leaves
        the key alone when it refuses. */
    method ConsumePushConfirm(expected: Token, client: Client) returns (consumed: bool)
      modifies this
      ensures consumed <==> old(stored) == Some(expected)
      ensures stored == if consumed then None else old(stored)
    {
      if client == Lua {
        consumed := Eval(expected);
        return;
      }
      var actual := stored;
      if actual != Some(expected) { return false; }
      if client == GetDel {
        var taken := Take();
        return taken == Some(expected);
      }
      stored := None;
      consumed := true;
    }
  }

  /** The interleaved machine, left alone between the two commands, is that method. */
  lemma AloneIsTheMethod(s: Store, x: ThreadId, expected: Token, client: Client)
    requires x !in s.seen
    ensures var n := Next(Next(s, Confirm(x, expected, client)), Remove(x));
      && (s.stored == Some(expected) ==> n.stored == None && n.accepted == s.accepted + [expected])
      && (s.stored != Some(expected) ==> n.stored == s.stored && n.accepted == s.accepted)
      && n.seen == s.seen && n.issued == s.issued && n.lost == s.lost
  {
    if client != Lua && s.stored == Some(expected) {
      assert s.seen[x := Seen(expected, client)] - {x} == s.seen;
    }
  }
}
