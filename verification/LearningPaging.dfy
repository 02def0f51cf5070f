/** Reading a job's event log page by page while it grows. */
module LearningPaging {
  import opened LearningContract
  import opened LearningStore
  import opened LearningRuns
  import IntSets
  import Concurrent = LearningConcurrency

  ghost predicate HasEvents(db: Tables, id: Uuid, from: int, end: int) {
    forall q :: from <= q < end ==> EventKey(id, q) in db.events
  }

  /** Event `q` of a job as `list_events` returns it, if there is one. */
  function EventAt(db: Tables, id: Uuid, q: int): Event {
    var key := EventKey(id, q);
    if key in db.events then Event(id, q, db.events[key].kind, db.events[key].phase, db.events[key].payload)
    else Event(id, q, "", PhaseQueued, NoPayload)
  }

  /** Events `from`..`end - 1`, in order. */
  function Slice(db: Tables, id: Uuid, from: int, end: int): seq<Event> {
    if end <= from then [] else seq(end - from, (k: int) => EventAt(db, id, from + k))
  }

  function Min2(a: int, b: int): int { if a < b then a else b }

  function Max2(a: int, b: int): int { if a < b then b else a }

  lemma {:induction false} FirstRowsIsSlice(db: Tables, id: Uuid, owner: string, n: int, after: int, limit: nat)
    requires n >= -1 && LogIs(db, id, owner, n) && after >= -1
    ensures HasEvents(db, id, after + 1, Min2(after + 1 + limit, n + 1))
    ensures FirstRows(db, id, owner, after, limit) == Slice(db, id, after + 1, Min2(after + 1 + limit, n + 1))
    decreases limit
  {
    NextIsAfterLog(db, id, owner, n);
    var candidates := VisibleAfter(db, id, owner, after);
    if limit > 0 {
      if after < n {
        assert after + 1 in candidates;
        assert IntSets.Min(candidates) == after + 1;
        FirstRowsIsSlice(db, id, owner, n, after + 1, limit - 1);
        assert EventKey(id, after + 1) in db.events;
        var end := Min2(after + 1 + limit, n + 1);
        assert Slice(db, id, after + 1, end) == [EventAt(db, id, after + 1)] + Slice(db, id, after + 2, end);
      } else {
        assert candidates == {};
      }
    }
  }

  /** The same for any `after`: below -1 it asks for everything. */
  lemma RowsAfterAnything(db: Tables, id: Uuid, owner: string, n: int, after: int, limit: nat)
    requires n >= -1 && LogIs(db, id, owner, n) && limit > 0
    ensures var from := Max2(after, -1) + 1;
      var end := Min2(from + limit, n + 1);
      HasEvents(db, id, from, end) && FirstRows(db, id, owner, after, limit) == Slice(db, id, from, end)
  {
    FirstRowsIsSlice(db, id, owner, n, Max2(after, -1), limit);
    if after < -1 {
      NextIsAfterLog(db, id, owner, n);
      assert VisibleAfter(db, id, owner, after) == VisibleAfter(db, id, owner, -1);
    }
  }

  /** One page, whatever the arguments: the next events after `after` in order,
      at least one if there is one, at most 2000. */
  lemma PageIsSlice(db: Tables, id: Uuid, after: int, limit: int)
    requires JobsInv(db) && id in db.jobs
    ensures var job := db.jobs[id];
      var from := Max2(after, -1) + 1;
      var end := Min2(from + BoundedLimit(limit), job.eventCursor + 1);
      HasEvents(db, id, from, end) && Page(db, id, job.id.owner, after, limit) == Slice(db, id, from, end)
  {
    assert JobInv(db, id);
    var bounded: nat := BoundedLimit(limit);
    RowsAfterAnything(db, id, db.jobs[id].id.owner, db.jobs[id].eventCursor, after, bounded);
  }

  lemma SliceJoins(db: Tables, id: Uuid, from: int, mid: int, end: int)
    requires from <= mid <= end
    ensures Slice(db, id, from, mid) + Slice(db, id, mid, end) == Slice(db, id, from, end)
      && |Slice(db, id, from, end)| == end - from
  {
    var whole := Slice(db, id, from, end);
    assert whole == Slice(db, id, from, mid) + Slice(db, id, mid, end);
  }

  lemma SliceKept(before: Tables, after: Tables, id: Uuid, from: int, end: int)
    requires Extends(before, after) && HasEvents(before, id, from, end)
    ensures HasEvents(after, id, from, end) && Slice(before, id, from, end) == Slice(after, id, from, end)
  {
    forall q | from <= q < end ensures EventAt(before, id, q) == EventAt(after, id, q) {
      assert EventKey(id, q) in before.events;
    }
    assert Slice(before, id, from, end) == Slice(after, id, from, end);
  }

  /** A client that reads pages of one job: page `i` is read in state `at[i]` of
      a growing history, with `limits[i]`, and passes the last number it saw. */
  function Collected(states: seq<Tables>, id: Uuid, owner: string, pages: seq<PageRequest>): seq<Event>
    requires forall i :: 0 <= i < |pages| ==> pages[i].at < |states|
  {
    if pages == [] then []
    else
      var before := Collected(states, id, owner, pages[..|pages| - 1]);
      before + NextPage(states, id, owner, before, pages[|pages| - 1])
  }

  /** One request for a page: the state it meets, and its limit. */
  datatype PageRequest = PageRequest(at: nat, limit: int)

  function NextPage(states: seq<Tables>, id: Uuid, owner: string, before: seq<Event>, p: PageRequest): seq<Event>
    requires p.at < |states|
  {
    Page(states[p.at], id, owner, if before == [] then -1 else before[|before| - 1].seqNo, p.limit)
  }

  /** Page requests in the order the history reaches them, for a job that is there. */
  ghost predicate InOrder(states: seq<Tables>, id: Uuid, owner: string, pages: seq<PageRequest>) {
    && (forall i :: 0 <= i < |pages| ==> pages[i].at < |states| && RowVisible(states[pages[i].at], id, owner))
    && (forall i, j :: 0 <= i < j < |pages| ==> pages[i].at <= pages[j].at)
  }

  /** How many events the job has in state `at`. */
  function Total(states: seq<Tables>, id: Uuid, at: nat): int {
    if at < |states| && id in states[at].jobs then states[at].jobs[id].eventCursor + 1 else 0
  }

  lemma TotalGrows(states: seq<Tables>, id: Uuid, i: nat, j: nat)
    requires Growing(states) && i <= j < |states|
    ensures 0 <= Total(states, id, i) <= Total(states, id, j)
  {
    if id in states[i].jobs {
      assert Extends(states[i], states[j]) && JobInv(states[i], id) && JobInv(states[j], id);
      assert EventKey(id, states[i].jobs[id].eventCursor) in states[i].events;
    } else if id in states[j].jobs {
      assert JobInv(states[j], id);
    }
  }

  /** One page asked for after event `m - 1`, seen from the last state. */
  lemma OnePage(states: seq<Tables>, id: Uuid, owner: string, m: nat, p: PageRequest)
    requires Growing(states) && p.at < |states| && RowVisible(states[p.at], id, owner) && m <= Total(states, id, p.at)
    ensures var last, end := states[|states| - 1], Min2(m + BoundedLimit(p.limit), Total(states, id, p.at));
      && NextPage(states, id, owner, Slice(last, id, 0, m), p) == Slice(last, id, m, end)
      && HasEvents(last, id, m, end)
  {
    var last, end := states[|states| - 1], Min2(m + BoundedLimit(p.limit), Total(states, id, p.at));
    assert m > 0 ==> Slice(last, id, 0, m)[m - 1].seqNo == m - 1;
    PageIsSlice(states[p.at], id, m - 1, p.limit);
    SliceKept(states[p.at], last, id, m, end);
  }

  lemma CollectOneMore(states: seq<Tables>, id: Uuid, owner: string, pages: seq<PageRequest>, m: nat)
    requires Growing(states) && states != [] && pages != [] && forall i :: 0 <= i < |pages| ==> pages[i].at < |states|
    requires Collected(states, id, owner, pages[..|pages| - 1]) == Slice(states[|states| - 1], id, 0, m)
    requires var p := pages[|pages| - 1];
      RowVisible(states[p.at], id, owner) && m <= Total(states, id, p.at) && HasEvents(states[|states| - 1], id, 0, m)
    ensures var p, last := pages[|pages| - 1], states[|states| - 1];
      var end := Min2(m + BoundedLimit(p.limit), Total(states, id, p.at));
      && m <= end && |Slice(last, id, 0, end)| == end && HasEvents(last, id, 0, end)
      && Collected(states, id, owner, pages) == Slice(last, id, 0, end)
  {
    hide Growing, NextPage, RowVisible, Slice;
    var p, last := pages[|pages| - 1], states[|states| - 1];
    OnePage(states, id, owner, m, p);
    SliceJoins(last, id, 0, m, Min2(m + BoundedLimit(p.limit), Total(states, id, p.at)));
  }

  /** How many events the client holds: each page reaches the end of the log as
      it then is, unless the page is full. */
  function HeldAfter(states: seq<Tables>, id: Uuid, pages: seq<PageRequest>): int {
    if pages == [] then 0
    else
      var p := pages[|pages| - 1];
      Min2(HeldAfter(states, id, pages[..|pages| - 1]) + BoundedLimit(p.limit), Total(states, id, p.at))
  }

  lemma NothingHeld(states: seq<Tables>, id: Uuid, owner: string)
    requires states != []
    ensures Collected(states, id, owner, []) == Slice(states[|states| - 1], id, 0, 0)
      && HasEvents(states[|states| - 1], id, 0, 0)
  {
  }

  /** Paging through a log that may grow between pages: what the client holds is
      always the beginning of the final log, complete, in order and without
      repeats. */
  lemma {:induction false} PagingIsAPrefix(states: seq<Tables>, id: Uuid, owner: string, pages: seq<PageRequest>)
    requires Growing(states) && states != [] && InOrder(states, id, owner, pages)
    ensures 0 <= HeldAfter(states, id, pages)
    ensures pages != [] ==> HeldAfter(states, id, pages) <= Total(states, id, pages[|pages| - 1].at)
    ensures HasEvents(states[|states| - 1], id, 0, HeldAfter(states, id, pages))
    ensures Collected(states, id, owner, pages) == Slice(states[|states| - 1], id, 0, HeldAfter(states, id, pages))
  {
    hide Growing, Collected, RowVisible, Extends, JobInv;
    if pages == [] {
      NothingHeld(states, id, owner);
    } else {
      var p := pages[|pages| - 1];
      var earlier := pages[..|pages| - 1];
      assert InOrder(states, id, owner, earlier);
      PagingIsAPrefix(states, id, owner, earlier);
      var m := HeldAfter(states, id, earlier);
      TotalGrows(states, id, p.at, p.at);
      if earlier != [] {
        assert earlier[|earlier| - 1] == pages[|pages| - 2];
        TotalGrows(states, id, earlier[|earlier| - 1].at, p.at);
      }
      CollectOneMore(states, id, owner, pages, m);
    }
  }

  /** The pages read when the log of the job had all the events it has in the end. */
  function LatePages(states: seq<Tables>, id: Uuid, pages: seq<PageRequest>): nat
    requires states != []
  {
    if pages == [] then 0
    else
      var late := Total(states, id, pages[|pages| - 1].at) == Total(states, id, |states| - 1);
      LatePages(states, id, pages[..|pages| - 1]) + if late then 1 else 0
  }

  lemma {:induction false} NoLatePage(states: seq<Tables>, id: Uuid, pages: seq<PageRequest>)
    requires states != [] && forall i :: 0 <= i < |pages| ==>
      Total(states, id, pages[i].at) < Total(states, id, |states| - 1)
    ensures LatePages(states, id, pages) == 0
  {
    if pages != [] { NoLatePage(states, id, pages[..|pages| - 1]); }
  }

  /** Each such page adds an event until all are held. */
  lemma {:induction false} LatePagesAdvance(states: seq<Tables>, id: Uuid, owner: string, pages: seq<PageRequest>)
    requires Growing(states) && states != [] && InOrder(states, id, owner, pages)
    ensures var total := Total(states, id, |states| - 1);
      Min2(LatePages(states, id, pages), total) <= HeldAfter(states, id, pages) <= total
  {
    hide Growing, RowVisible, Total;
    var n := |states| - 1;
    if pages == [] {
      TotalGrows(states, id, n, n);
    } else {
      var before, p := pages[..|pages| - 1], pages[|pages| - 1];
      assert InOrder(states, id, owner, before);
      LatePagesAdvance(states, id, owner, before);
      TotalGrows(states, id, p.at, n);
      if Total(states, id, p.at) < Total(states, id, n) {
        forall i | 0 <= i < |pages| ensures Total(states, id, pages[i].at) < Total(states, id, n) {
          TotalGrows(states, id, pages[i].at, p.at);
        }
        NoLatePage(states, id, pages);
        PagingIsAPrefix(states, id, owner, pages);
      }
    }
  }

  /** Paging over any run of the store; and as many pages as there are events, read
      after the job's log has stopped growing, reach its end, whatever was read
      before and whatever happens to other jobs. */
  lemma PagingOverARun(rs: seq<Request>, id: Uuid, owner: string, pages: seq<PageRequest>)
    requires InOrder(States(rs), id, owner, pages)
    ensures var held := HeldAfter(States(rs), id, pages);
      && held >= 0 && HasEvents(After(rs), id, 0, held)
      && Collected(States(rs), id, owner, pages) == Slice(After(rs), id, 0, held)
      && (LatePages(States(rs), id, pages) >= Total(States(rs), id, |rs|) ==> held == Total(States(rs), id, |rs|))
  {
    RunsGrow(rs);
    var states := States(rs);
    PagingIsAPrefix(states, id, owner, pages);
    assert rs[..|rs|] == rs;
    LatePagesAdvance(states, id, owner, pages);
  }

  /** The same while calls run side by side: each page shows the tables that are
      committed when it is read, whatever is under way. */
  lemma ConcurrentPaging(actions: seq<Concurrent.Action>, id: Uuid, owner: string, pages: seq<PageRequest>)
    requires InOrder(Concurrent.Committed(actions), id, owner, pages)
    ensures var states, last := Concurrent.Committed(actions), Concurrent.Interleaved(actions).db;
      var held := HeldAfter(states, id, pages);
      && held >= 0 && HasEvents(last, id, 0, held)
      && Collected(states, id, owner, pages) == Slice(last, id, 0, held)
      && (LatePages(states, id, pages) >= Total(states, id, |actions|) ==> held == Total(states, id, |actions|))
  {
    hide Concurrent.Interleaved, Growing;
    Concurrent.CommittedGrow(actions);
    var states := Concurrent.Committed(actions);
    assert actions[..|actions|] == actions;
    PagingIsAPrefix(states, id, owner, pages);
    LatePagesAdvance(states, id, owner, pages);
  }
}
