/** The turns of a run: the nested drain loop of `run_forever` in
    src/engine/loop_core.rs.

    Callbacks and other threads are a script: each pass of the drain loop
    consumes one event that says what happened around the item it runs. A turn
    whose script ends early is `Unfinished`, so that every result below also
    speaks of the middle of a turn that never ends. */
module TurnDiscipline {
  import opened GenerationMerge
  import opened Sequences

  const MAX_READY_ITEMS_PER_TURN: nat := 1024

  datatype Item = Stop(id: nat) | Work(id: nat)

  datatype Event = Event(
    seen: bool,                 // the ready flag as the loop thread reads it
    local: seq<Item>,           // scheduled on the loop thread by the item
    remote: seq<Marked<Item>>,  // pushed by other threads before the next pass
    requestStop: bool,          // somebody asks the loop to stop
    fails: bool)                // the callback's error propagates

  datatype TurnEnd = Finished | Failed | Unfinished

  /** A turn and what happens around it: the timers collected first, then
      after the drain a signal handler that raised, and what the reactor and
      other threads queue until the next turn. */
  datatype TurnScript = TurnScript(
    timers: seq<Item>,
    events: seq<Event>,
    signalError: bool,
    local: seq<Item>,
    remote: seq<Marked<Item>>,
    requestStop: bool)

  datatype RunEnd = Returned | Raised | StillRunning

  // ----- A turn as a function of its script -----

  /** The queues of the loop thread and its stop flags. */
  datatype Queues = Queues(
    batch: seq<Item>,
    local: seq<Item>,
    taken: nat,
    pending: seq<Marked<Item>>,
    stopRequested: bool,
    stopping: bool)

  /** The next generation, taken into the empty batch. */
  function Formed(s: Queues, e: Event): (s': Queues) {
    if e.seen then
      s.(batch := Merge(s.local, s.taken, s.pending), local := [], taken := s.taken + |s.local|, pending := [])
    else
      s.(batch := s.local, local := [], taken := s.taken + |s.local|)
  }

  /** Before an item: a new generation only if none was begun in this count, or
      a stop is pending. */
  function Filled(s: Queues, processed: nat, e: Event): (s': Queues) {
    if s.batch == [] && (processed == 0 || s.stopRequested) then Formed(s, e) else s
  }

  function Executed(s: Queues, e: Event): (s': Queues)
    requires s.batch != []
  {
    var stop := s.batch[0].Stop?;
    s.(batch := s.batch[1..], local := s.local + e.local, pending := s.pending + e.remote,
       stopRequested := e.requestStop || (s.stopRequested && !stop), stopping := s.stopping || stop)
  }

  predicate Throws(item: Item, e: Event) {
    e.fails && item.Work?
  }

  datatype TurnResult = TurnResult(ran: seq<Item>, end: TurnEnd, left: Queues)

  function Prepend(items: seq<Item>, r: TurnResult): (r': TurnResult) {
    r.(ran := items + r.ran)
  }

  function Drained(s: Queues, processed: nat, events: seq<Event>): (r: TurnResult)
    decreases |events|
  {
    if events == [] then TurnResult([], Unfinished, s)
    else
      var f := Filled(s, processed, events[0]);
      if f.batch == [] then TurnResult([], Finished, f)
      else
        var front, x := f.batch[0], Executed(f, events[0]);
        if Throws(front, events[0]) then TurnResult([front], Failed, x)
        else if processed + 1 < MAX_READY_ITEMS_PER_TURN then
          Prepend([front], Drained(x, processed + 1, events[1..]))
        else if !x.stopping then TurnResult([front], Finished, x)
        else Prepend([front], Drained(x, 0, events[1..]))
  }

  datatype PassResult = PassResult(ran: seq<Item>, next: nat, end: TurnEnd, left: Queues)

  /** One pass of the drain loop. */
  function Passed(s: Queues, processed: nat, e: Event): (r: PassResult) {
    var f := Filled(s, processed, e);
    if f.batch == [] then PassResult([], processed, Finished, f)
    else
      var ran, x := [f.batch[0]], Executed(f, e);
      if Throws(f.batch[0], e) then PassResult(ran, processed, Failed, x)
      else if processed + 1 < MAX_READY_ITEMS_PER_TURN then PassResult(ran, processed + 1, Unfinished, x)
      else PassResult(ran, 0, if x.stopping then Unfinished else Finished, x)
  }

  // ----- What a turn runs -----

  ghost predicate HasStop(items: seq<Item>) {
    exists i :: 0 <= i < |items| && items[i].Stop?
  }

  ghost predicate NoStopRequest(events: seq<Event>) {
    forall i :: 0 <= i < |events| ==> !events[i].requestStop
  }

  /** No stop is pending or in effect, and none is requested meanwhile. */
  ghost predicate Unstopped(s: Queues, events: seq<Event>) {
    !s.stopping && !s.stopRequested && NoStopRequest(events)
  }

  /** What the rest of the budget reaches. */
  function Reach(items: seq<Item>, processed: nat): (r: seq<Item>) {
    if processed + |items| <= MAX_READY_ITEMS_PER_TURN || processed > MAX_READY_ITEMS_PER_TURN then items
    else items[..MAX_READY_ITEMS_PER_TURN - processed]
  }

  lemma StopTail(items: seq<Item>)
    requires items != [] && !items[0].Stop?
    ensures HasStop(items) <==> HasStop(items[1..])
  {
    if HasStop(items) {
      var i :| 0 <= i < |items| && items[i].Stop?;
      assert items[1..][i - 1].Stop?;
    }
  }

  lemma ReachTail(items: seq<Item>, processed: nat)
    requires items != [] && processed + 1 < MAX_READY_ITEMS_PER_TURN
    ensures Reach(items, processed) != [] && Reach(items, processed)[0] == items[0]
    ensures Reach(items, processed)[1..] == Reach(items[1..], processed + 1)
  {
  }

  /** Without a Stop within reach the drain stays inside its batch and stops at
      the budget. */
  lemma {:induction false} BudgetedBatch(s: Queues, processed: nat, events: seq<Event>)
    requires Unstopped(s, events) && processed < MAX_READY_ITEMS_PER_TURN && (processed > 0 || s.batch != [])
    requires !HasStop(Reach(s.batch, processed))
    ensures var r := Drained(s, processed, events);
            && r.ran + r.left.batch == s.batch
            && |r.ran| <= |Reach(s.batch, processed)|
            && (r.end.Finished? ==> r.ran == Reach(s.batch, processed))
    decreases |events|
  {
    if events != [] && s.batch != [] {
      var x, front := Executed(s, events[0]), s.batch[0];
      assert Reach(s.batch, processed)[0] == front && !front.Stop?;
      assert s.batch == [front] + x.batch;
      if processed + 1 < MAX_READY_ITEMS_PER_TURN && !Throws(front, events[0]) {
        ReachTail(s.batch, processed);
        StopTail(Reach(s.batch, processed));
        BudgetedBatch(x, processed + 1, events[1..]);
        PrependFront(s.batch, Drained(x, processed + 1, events[1..]));
        assert Reach(s.batch, processed) == [front] + Reach(x.batch, processed + 1);
      } else if processed + 1 == MAX_READY_ITEMS_PER_TURN {
        assert Reach(s.batch, processed) == [front];
      }
    }
  }

  /** No item of the batch throws. */
  predicate Clean(batch: seq<Item>, events: seq<Event>) {
    |batch| <= |events| && forall i :: 0 <= i < |batch| ==> !Throws(batch[i], events[i])
  }

  /** The queues after the whole batch has run. */
  function RunAll(s: Queues, events: seq<Event>): (s': Queues)
    requires |s.batch| <= |events|
    decreases |s.batch|
  {
    if s.batch == [] then s else RunAll(Executed(s, events[0]), events[1..])
  }

  /** With a Stop in effect or within reach the whole batch runs, unless an
      item throws or the script ends, and the drain goes on behind it with the
      budget counted modulo its size. */
  ghost predicate RunsThrough(s: Queues, events: seq<Event>, r: TurnResult, behind: TurnResult) {
    if Clean(s.batch, events) then
      var s' := RunAll(s, events);
      s'.stopping && s'.batch == [] && !s'.stopRequested && r == Prepend(s.batch, behind)
    else r.ran + r.left.batch == s.batch && !r.end.Finished?
  }

  /** The drain behind the batch. */
  ghost function Behind(s: Queues, processed: nat, events: seq<Event>): (r: TurnResult)
    requires Clean(s.batch, events)
  {
    Drained(RunAll(s, events), (processed + |s.batch|) % MAX_READY_ITEMS_PER_TURN, events[|s.batch|..])
  }

  lemma {:induction false} StoppedBatch(s: Queues, processed: nat, events: seq<Event>)
    requires !s.stopRequested && NoStopRequest(events) && processed < MAX_READY_ITEMS_PER_TURN
    requires s.stopping || HasStop(Reach(s.batch, processed))
    ensures var r := Drained(s, processed, events);
            RunsThrough(s, events, r, if Clean(s.batch, events) then Behind(s, processed, events) else r)
    decreases |events|
  {
    var r := Drained(s, processed, events);
    if s.batch == [] {
      assert events[0..] == events;
      PrependNone(r);
    } else if events != [] && !Throws(s.batch[0], events[0]) {
      var x, next := Executed(s, events[0]), (processed + 1) % MAX_READY_ITEMS_PER_TURN;
      StoppedFront(s, processed, events);
      StoppedBatch(x, next, events[1..]);
      CleanTail(s.batch, events);
      var d := Drained(x, next, events[1..]);
      if Clean(s.batch, events) {
        BehindTail(s, processed, events);
        StoppedJoin(s, events, r, d, Behind(s, processed, events));
      } else {
        StoppedJoin(s, events, r, d, d);
      }
    } else if events != [] {
      assert s.batch == [s.batch[0]] + s.batch[1..];
    }
  }

  lemma BehindTail(s: Queues, processed: nat, events: seq<Event>)
    requires s.batch != [] && Clean(s.batch, events) && Clean(s.batch[1..], events[1..])
    ensures Behind(Executed(s, events[0]), (processed + 1) % MAX_READY_ITEMS_PER_TURN, events[1..])
            == Behind(s, processed, events)
  {
    BudgetWraps(processed, |s.batch| - 1);
    assert events[1..][|s.batch| - 1..] == events[|s.batch|..];
  }

  lemma StoppedJoin(s: Queues, events: seq<Event>, r: TurnResult, d: TurnResult, behind: TurnResult)
    requires s.batch != [] && events != [] && !Throws(s.batch[0], events[0])
    requires RunsThrough(Executed(s, events[0]), events[1..], d, behind) && r == Prepend([s.batch[0]], d)
    ensures RunsThrough(s, events, r, if Clean(s.batch, events) then behind else r)
  {
    CleanTail(s.batch, events);
    PrependFront(s.batch, d);
    PrependTwice(s.batch, behind);
  }

  lemma PrependNone(r: TurnResult)
    ensures Prepend([], r) == r
  {
    assert [] + r.ran == r.ran;
  }

  lemma PrependFront(batch: seq<Item>, r: TurnResult)
    requires batch != []
    ensures r.ran + r.left.batch == batch[1..] ==> ([batch[0]] + r.ran) + r.left.batch == batch
  {
    assert ([batch[0]] + r.ran) + r.left.batch == [batch[0]] + (r.ran + r.left.batch);
  }

  lemma PrependTwice(batch: seq<Item>, r: TurnResult)
    requires batch != []
    ensures Prepend([batch[0]], Prepend(batch[1..], r)) == Prepend(batch, r)
  {
    assert [batch[0]] + (batch[1..] + r.ran) == batch + r.ran;
  }

  lemma CleanTail(batch: seq<Item>, events: seq<Event>)
    requires batch != [] && events != [] && !Throws(batch[0], events[0])
    ensures Clean(batch, events) <==> Clean(batch[1..], events[1..])
  {
    if Clean(batch[1..], events[1..]) {
      forall i | 0 <= i < |batch| ensures !Throws(batch[i], events[i]) {
        assert i > 0 ==> !Throws(batch[1..][i - 1], events[1..][i - 1]);
      }
    }
  }

  lemma BudgetWraps(processed: nat, n: nat)
    ensures ((processed + 1) % MAX_READY_ITEMS_PER_TURN + n) % MAX_READY_ITEMS_PER_TURN
            == (processed + (n + 1)) % MAX_READY_ITEMS_PER_TURN
  {
  }

  /** One item of such a batch. */
  lemma StoppedFront(s: Queues, processed: nat, events: seq<Event>)
    requires !s.stopRequested && NoStopRequest(events) && processed < MAX_READY_ITEMS_PER_TURN
    requires s.batch != [] && events != [] && !Throws(s.batch[0], events[0])
    requires s.stopping || HasStop(Reach(s.batch, processed))
    ensures var x, next := Executed(s, events[0]), (processed + 1) % MAX_READY_ITEMS_PER_TURN;
            && !x.stopRequested && NoStopRequest(events[1..])
            && (x.stopping || (next > 0 && HasStop(Reach(x.batch, next))))
            && Drained(s, processed, events) == Prepend([s.batch[0]], Drained(x, next, events[1..]))
  {
    var x := Executed(s, events[0]);
    if processed + 1 < MAX_READY_ITEMS_PER_TURN {
      ReachTail(s.batch, processed);
      if !s.batch[0].Stop? && !s.stopping {
        StopTail(Reach(s.batch, processed));
      }
    } else {
      assert |Reach(s.batch, processed)| <= 1;
    }
  }

  /** A turn with no stop pending, in effect or requested, and no Stop in the
      generation it starts with, runs at most 1024 items of it and nothing
      else; if it finishes, it ran all of it or exactly 1024 items. */
  lemma QuietTurn(s: Queues, events: seq<Event>)
    requires Unstopped(s, events) && events != [] && !HasStop(Filled(s, 0, events[0]).batch)
    ensures var r, first := Drained(s, 0, events), Filled(s, 0, events[0]).batch;
            && r.ran + r.left.batch == first
            && |r.ran| <= MAX_READY_ITEMS_PER_TURN
            && (r.end.Finished? ==> r.ran == Reach(first, 0))
  {
    var f := Filled(s, 0, events[0]);
    if f.batch != [] {
      assert Drained(s, 0, events) == Drained(f, 0, events);
      NoStopWithin(f.batch, 0);
      BudgetedBatch(f, 0, events);
    }
  }

  lemma NoStopWithin(items: seq<Item>, processed: nat)
    ensures HasStop(Reach(items, processed)) ==> HasStop(items)
  {
    if HasStop(Reach(items, processed)) {
      var i :| 0 <= i < |Reach(items, processed)| && Reach(items, processed)[i].Stop?;
      assert items[i].Stop?;
    }
  }

  /** When such a turn goes beyond the generation it starts with: a Stop is
      among its first 1024 items, its size is a multiple of 1024, none of its
      items throws, and something is queued behind it. */
  ghost predicate TakesAnother(s: Queues, events: seq<Event>)
    requires events != []
  {
    var f := Filled(s, 0, events[0]);
    && f.batch != [] && HasStop(Reach(f.batch, 0)) && |f.batch| % MAX_READY_ITEMS_PER_TURN == 0
    && |events| > |f.batch| && Clean(f.batch, events)
    && Formed(RunAll(f, events), events[|f.batch|]).batch != []
  }

  /** Although a Stop may run, a turn with none pending or requested stays in
      one generation except exactly then. If it finishes after a Stop among the
      first 1024 items, it ran the whole generation, however long. */
  lemma OneGeneration(s: Queues, events: seq<Event>)
    requires Unstopped(s, events) && events != []
    ensures var r, first := Drained(s, 0, events), Filled(s, 0, events[0]).batch;
            && (r.ran + r.left.batch == first <==> !TakesAnother(s, events))
            && (TakesAnother(s, events) ==> first < r.ran)
            && (r.end.Finished? && HasStop(Reach(first, 0)) ==> first <= r.ran && r.left.stopping)
  {
    var f := Filled(s, 0, events[0]);
    var r := Drained(s, 0, events);
    if f.batch == [] {
    } else if !HasStop(Reach(f.batch, 0)) {
      assert r == Drained(f, 0, events);
      BudgetedBatch(f, 0, events);
    } else {
      assert r == Drained(f, 0, events);
      StoppedBatch(f, 0, events);
      if Clean(f.batch, events) {
        BehindGeneration(f, events);
      }
    }
  }

  /** What the drain does behind a generation that ran through after a Stop. */
  lemma BehindGeneration(f: Queues, events: seq<Event>)
    requires Clean(f.batch, events) && f.batch != [] && NoStopRequest(events)
    requires RunAll(f, events).stopping && RunAll(f, events).batch == [] && !RunAll(f, events).stopRequested
    ensures var d := Drained(RunAll(f, events), |f.batch| % MAX_READY_ITEMS_PER_TURN, events[|f.batch|..]);
            && (d.ran == [] ==> d.left.batch == [])
            && (d.ran != [] <==>
                  && |f.batch| % MAX_READY_ITEMS_PER_TURN == 0 && |events| > |f.batch|
                  && Formed(RunAll(f, events), events[|f.batch|]).batch != [])
            && (d.end.Finished? ==> d.left.stopping)
  {
    var left := events[|f.batch|..];
    StopsShow(RunAll(f, events), |f.batch| % MAX_READY_ITEMS_PER_TURN, left);
    assert left != [] ==> left[0] == events[|f.batch|];
  }

  /** What was scheduled stays queued while the batch runs. */
  lemma {:induction false} LocalStays(s: Queues, events: seq<Event>)
    requires |s.batch| <= |events|
    ensures s.local <= RunAll(s, events).local
    decreases |s.batch|
  {
    if s.batch != [] {
      LocalStays(Executed(s, events[0]), events[1..]);
    }
  }

  /** A turn that takes a second generation: 1024 items with a Stop in front,
      the first of which schedules one more. */
  lemma SecondGeneration()
    ensures exists s: Queues, events: seq<Event> ::
              && Unstopped(s, events) && events != [] && s.batch == []
              && |Filled(s, 0, events[0]).batch| == MAX_READY_ITEMS_PER_TURN
              && Filled(s, 0, events[0]).batch < Drained(s, 0, events).ran
  {
    var items := seq(MAX_READY_ITEMS_PER_TURN, i => if i == 0 then Stop(0) else Work(1));
    var s := Queues([], items, 0, [], false, false);
    var idle, first := Event(false, [], [], false, false), Event(false, [Work(5000)], [], false, false);
    var events := seq(MAX_READY_ITEMS_PER_TURN + 1, i => if i == 0 then first else idle);
    var f := Filled(s, 0, events[0]);
    assert f == s.(batch := items, local := [], taken := MAX_READY_ITEMS_PER_TURN);
    assert Reach(items, 0)[0].Stop?;
    var x := Executed(f, events[0]);
    assert x.local == [Work(5000)];
    LocalStays(x, events[1..]);
    assert Formed(RunAll(f, events), events[|f.batch|]).batch == RunAll(f, events).local;
    assert TakesAnother(s, events);
    OneGeneration(s, events);
  }

  /** Stopping means that a Stop ran, and then a turn ends normally only with
      an empty batch. */
  lemma {:induction false} StopsShow(s: Queues, processed: nat, events: seq<Event>)
    ensures var r := Drained(s, processed, events);
            && (r.left.stopping <==> s.stopping || HasStop(r.ran))
            && (r.end.Finished? && r.left.stopping ==> r.left.batch == [])
    decreases |events|
  {
    if events != [] {
      var p := Passed(s, processed, events[0]);
      if p.end.Unfinished? {
        StopsShow(p.left, p.next, events[1..]);
        var d := Drained(p.left, p.next, events[1..]);
        assert Drained(s, processed, events) == Prepend(p.ran, d);
        StopFront(p.ran[0], d.ran);
      } else if p.ran != [] {
        StopFront(p.ran[0], []);
      }
    }
  }

  lemma StopFront(item: Item, items: seq<Item>)
    ensures HasStop([item] + items) <==> item.Stop? || HasStop(items)
  {
    assert ([item] + items)[1..] == items;
    assert ([item] + items)[0] == item;
    if !item.Stop? {
      StopTail([item] + items);
    }
  }

  lemma StopJoins(a: seq<Item>, b: seq<Item>)
    ensures HasStop(a + b) <==> HasStop(a) || HasStop(b)
  {
    if HasStop(a) {
      var i :| 0 <= i < |a| && a[i].Stop?;
      assert (a + b)[i].Stop?;
    }
    if HasStop(b) {
      var i :| 0 <= i < |b| && b[i].Stop?;
      assert (a + b)[|a| + i].Stop?;
    }
    if HasStop(a + b) {
      var i :| 0 <= i < |a + b| && (a + b)[i].Stop?;
      if i < |a| {
        assert a[i].Stop?;
      } else {
        assert b[i - |a|].Stop?;
      }
    }
  }

  // ----- Generations -----

  /** The generation a pass takes, if any. */
  function Begun(s: Queues, processed: nat, e: Event): (gs: seq<seq<Item>>) {
    var f := Filled(s, processed, e);
    if s.batch == [] && f.batch != [] then [f.batch] else []
  }

  /** The generations a turn takes, in order. */
  function Generations(s: Queues, processed: nat, events: seq<Event>): (gs: seq<seq<Item>>)
    decreases |events|
  {
    if events == [] then []
    else
      var p := Passed(s, processed, events[0]);
      Begun(s, processed, events[0]) + (if p.end.Unfinished? then Generations(p.left, p.next, events[1..]) else [])
  }

  function Flat(gs: seq<seq<Item>>): (items: seq<Item>) {
    if gs == [] then [] else gs[0] + Flat(gs[1..])
  }

  lemma {:induction false} FlatConcat(a: seq<seq<Item>>, b: seq<seq<Item>>)
    ensures Flat(a + b) == Flat(a) + Flat(b)
  {
    if a == [] {
      assert a + b == b;
    } else {
      FlatConcat(a[1..], b);
      assert (a + b)[1..] == a[1..] + b;
      Reassociate(a[0], Flat(a[1..]), Flat(b));
    }
  }

  lemma PassAccounts(s: Queues, processed: nat, e: Event)
    ensures var p := Passed(s, processed, e);
            p.ran + p.left.batch == s.batch + Flat(Begun(s, processed, e))
  {
    var f := Filled(s, processed, e);
    assert Flat([f.batch]) == f.batch + Flat([]);
    if f.batch != [] {
      assert f.batch == [f.batch[0]] + f.batch[1..];
    }
  }

  /** However a turn goes and whatever the stop flags are, what ran and what is
      left of the batch are the batch it found and every generation it took,
      in order. */
  lemma {:induction false} TurnAccounts(s: Queues, processed: nat, events: seq<Event>)
    ensures var r := Drained(s, processed, events);
            r.ran + r.left.batch == s.batch + Flat(Generations(s, processed, events))
    decreases |events|
  {
    if events != [] {
      var p, begun := Passed(s, processed, events[0]), Begun(s, processed, events[0]);
      PassAccounts(s, processed, events[0]);
      DrainedPass(s, processed, events);
      if p.end.Unfinished? {
        TurnAccounts(p.left, p.next, events[1..]);
        var d, more := Drained(p.left, p.next, events[1..]), Generations(p.left, p.next, events[1..]);
        FlatConcat(begun, more);
        QueueJoins(p.ran, p.left.batch, s.batch, Flat(begun), d.ran, d.left.batch, Flat(more));
      } else {
        assert begun + [] == begun;
      }
    }
  }

  lemma DrainedPass(s: Queues, processed: nat, events: seq<Event>)
    requires events != []
    ensures var p := Passed(s, processed, events[0]);
            Drained(s, processed, events) ==
            if p.end.Unfinished? then Prepend(p.ran, Drained(p.left, p.next, events[1..]))
            else TurnResult(p.ran, p.end, p.left)
  {
  }

  // ----- A run as a function of its script -----

  datatype RunResult = RunResult(ran: seq<Item>, generations: seq<seq<Item>>, end: RunEnd, left: Queues)

  function PrependRun(ran: seq<Item>, generations: seq<seq<Item>>, r: RunResult): (r': RunResult) {
    r.(ran := ran + r.ran, generations := generations + r.generations)
  }

  /** Between two turns: a first signal error asks for a stop, and the reactor
      and other threads queue their work. */
  function Between(s: Queues, signalled: bool, t: TurnScript): (s': Queues) {
    s.(local := s.local + t.local, pending := s.pending + t.remote,
       stopRequested := s.stopRequested || (!signalled && t.signalError) || t.requestStop)
  }

  function WithTimers(s: Queues, t: TurnScript): (s': Queues) {
    s.(local := s.local + t.timers)
  }

  /** How a turn ends the run, if it does. */
  function Ending(r: TurnResult, signalled: bool): (end: RunEnd) {
    if r.end.Unfinished? then StillRunning
    else if r.end.Failed? || signalled then Raised
    else Returned
  }

  function RunOf(s: Queues, signalled: bool, script: seq<TurnScript>): (r: RunResult)
    decreases |script|
  {
    if script == [] then RunResult([], [], StillRunning, s)
    else
      var begun, t := WithTimers(s, script[0]), script[0];
      var r, taken := Drained(begun, 0, t.events), Generations(begun, 0, t.events);
      if r.end.Finished? && !r.left.stopping then
        PrependRun(r.ran, taken, RunOf(Between(r.left, signalled, t), signalled || t.signalError, script[1..]))
      else RunResult(r.ran, taken, Ending(r, signalled), r.left)
  }

  /** However a run goes, what ran and what is left of the batch are exactly
      the generations it took, in order. */
  lemma {:induction false} RunAccounts(s: Queues, signalled: bool, script: seq<TurnScript>)
    ensures var r := RunOf(s, signalled, script);
            r.ran + r.left.batch == s.batch + Flat(r.generations)
    decreases |script|
  {
    if script != [] {
      var begun, t := WithTimers(s, script[0]), script[0];
      var r, taken := Drained(begun, 0, t.events), Generations(begun, 0, t.events);
      TurnAccounts(begun, 0, t.events);
      if r.end.Finished? && !r.left.stopping {
        var next := Between(r.left, signalled, t);
        RunAccounts(next, signalled || t.signalError, script[1..]);
        var rest := RunOf(next, signalled || t.signalError, script[1..]);
        FlatConcat(taken, rest.generations);
        QueueJoins(r.ran, r.left.batch, s.batch, Flat(taken), rest.ran, rest.left.batch, Flat(rest.generations));
      }
    }
  }

  /** The run is stopping exactly if a Stop ran, and a run that returns is. */
  lemma {:induction false} RunStops(s: Queues, signalled: bool, script: seq<TurnScript>)
    requires !s.stopping
    ensures var r := RunOf(s, signalled, script);
            && (r.left.stopping <==> HasStop(r.ran))
            && (r.end.Returned? ==> r.left.stopping && r.left.batch == [])
    decreases |script|
  {
    if script != [] {
      var begun, t := WithTimers(s, script[0]), script[0];
      var r := Drained(begun, 0, t.events);
      StopsShow(begun, 0, t.events);
      if r.end.Finished? && !r.left.stopping {
        var next := Between(r.left, signalled, t);
        RunStops(next, signalled || t.signalError, script[1..]);
        StopJoins(r.ran, RunOf(next, signalled || t.signalError, script[1..]).ran);
      }
    }
  }

  /** A run that returns has run a Stop and every item of every generation it
      took, in order, the one holding that Stop included. */
  lemma {:induction false} ReturningRun(s: Queues, signalled: bool, script: seq<TurnScript>)
    requires !s.stopping && RunOf(s, signalled, script).end.Returned?
    ensures var r := RunOf(s, signalled, script);
            && r.ran == s.batch + Flat(r.generations) && r.left.batch == []
            && HasStop(r.ran) && r.left.stopping
  {
    RunAccounts(s, signalled, script);
    RunStops(s, signalled, script);
  }

  // ----- The loop -----

  class Drain {
    var batch: seq<Item>
    var local: seq<Item>
    var localTaken: nat
    const pending: PendingReady<Item>
    var stopRequested: bool
    var stopping: bool
    ghost var executed: seq<Item>

    ghost predicate Valid() reads this, pending {
      pending.Valid() && pending.Covered()
    }

    ghost function State(): (s: Queues) reads this, pending {
      Queues(batch, local, localTaken, pending.Contents(), stopRequested, stopping)
    }

    constructor (pending: PendingReady<Item>, localTaken: nat, stopRequested: bool)
      requires pending.Valid() && pending.Covered()
      ensures Valid() && this.pending == pending
      ensures State() == Queues([], [], localTaken, pending.Contents(), stopRequested, false) && executed == []
    {
      this.pending := pending;
      this.localTaken := localTaken;
      this.stopRequested := stopRequested;
      stopping := false;
      batch, local, executed := [], [], [];
    }

    method PushAll(items: seq<Marked<Item>>)
      requires pending.Valid() && pending.Covered()
      modifies pending
      ensures pending.Valid() && pending.Covered() && pending.Contents() == old(pending.Contents()) + items
    {
      for i := 0 to |items|
        invariant pending.Valid() && pending.Covered() && pending.Contents() == old(pending.Contents()) + items[..i]
      {
        pending.Push(items[i].item, items[i].mark);
      }
      assert items[..|items|] == items;
    }

    /** Takes the next generation into the empty batch. */
    method FormGeneration(e: Event)
      requires Valid() && batch == []
      modifies this, pending
      ensures Valid() && executed == old(executed) && State() == Formed(old(State()), e)
    {
      if e.seen {
        batch, local, localTaken := MergeReadyGeneration(local, localTaken, pending);
      } else if local != [] {
        localTaken := localTaken + |local|;
        batch, local := local, batch;
      }
    }

    /** Takes the next generation if the batch is empty and the turn may go on:
        it has run nothing yet, or a stop is pending. */
    method Refill(processed: nat, e: Event) returns (more: bool)
      requires Valid()
      modifies this, pending
      ensures Valid() && executed == old(executed) && State() == Filled(old(State()), processed, e)
      ensures more <==> batch != []
    {
      if batch == [] {
        if processed != 0 && !stopRequested {
          return false;
        }
        FormGeneration(e);
      }
      more := batch != [];
    }

    /** Runs the front item of the batch. */
    method ExecuteFront(e: Event) returns (error: bool)
      requires Valid() && batch != []
      modifies this, pending
      ensures Valid() && State() == Executed(old(State()), e)
      ensures executed == old(executed) + [old(batch)[0]] && error == Throws(old(batch)[0], e)
    {
      ghost var queued := pending.Contents();
      var item := batch[0];
      PushAll(e.remote);
      assert pending.Contents() == queued + e.remote;
      batch, executed := batch[1..], executed + [item];
      if item.Stop? {
        stopRequested, stopping := false, true;
      }
      local := local + e.local;
      stopRequested := stopRequested || e.requestStop;
      error := e.fails && item.Work?;
    }

    /** One pass of the drain loop; it goes on while `end` is `Unfinished`. */
    method Pass(processed: nat, e: Event) returns (ran: seq<Item>, next: nat, end: TurnEnd)
      requires Valid() && processed < MAX_READY_ITEMS_PER_TURN
      modifies this, pending
      ensures Valid() && executed == old(executed) + ran && next < MAX_READY_ITEMS_PER_TURN
      ensures PassResult(ran, next, end, State()) == Passed(old(State()), processed, e)
    {
      ran, next, end := [], processed, Finished;
      var more := Refill(processed, e);
      if !more {
        return;
      }
      ran := [batch[0]];
      var error := ExecuteFront(e);
      if error {
        return ran, processed, Failed;
      }
      next := processed + 1;
      if next >= MAX_READY_ITEMS_PER_TURN {
        next := 0;
        if !stopping {
          return;
        }
      }
      end := Unfinished;
    }

    /** One turn: the nested loop runs what `Drained` says. */
    method Turn(events: seq<Event>) returns (end: TurnEnd, ran: seq<Item>)
      requires Valid()
      modifies this, pending
      ensures Valid() && executed == old(executed) + ran
      ensures TurnResult(ran, end, State()) == Drained(old(State()), 0, events)
    {
      ran := [];
      var processed, k := 0, 0;
      ghost var s, whole := State(), Drained(State(), 0, events);
      TurnBegins(s, events);
      while k < |events|
        invariant 0 <= k <= |events| && 0 <= processed < MAX_READY_ITEMS_PER_TURN
        invariant Valid() && executed == old(executed) + ran && State() == s
        invariant Underway(s, processed, events, k, ran, whole)
      {
        OnePass(s, processed, events, k, ran, whole);
        var more;
        more, processed, end := Pass(processed, events[k]);
        s := State();
        Reassociate(old(executed), ran, more);
        ran := ran + more;
        k := k + 1;
        if !end.Unfinished? {
          return;
        }
      }
      TurnRunsOut(s, processed, events, ran, whole);
      end := Unfinished;
    }

    /** From the end of a turn to the next one. */
    method AwaitNextTurn(t: TurnScript, signalled: bool) returns (signalled': bool)
      requires Valid()
      modifies this, pending
      ensures Valid() && executed == old(executed) && signalled' == (signalled || t.signalError)
      ensures State() == Between(old(State()), signalled, t)
    {
      ghost var s := State();
      PushAll(t.remote);
      assert State() == s.(pending := s.pending + t.remote);
      signalled' := signalled;
      if !signalled && t.signalError {
        signalled', stopRequested := true, true;
      }
      local := local + t.local;
      stopRequested := stopRequested || t.requestStop;
    }

    /** A whole run: it runs, leaves and ends as `RunOf` says. */
    method Run(script: seq<TurnScript>) returns (end: RunEnd)
      requires Valid() && batch == [] && !stopping
      modifies this, pending
      ensures Valid()
      ensures var r := RunOf(old(State()), false, script);
              end == r.end && State() == r.left && executed == old(executed) + r.ran
    {
      var signalled := false;
      ghost var s, ran, taken, whole := State(), [], [], RunOf(State(), false, script);
      RunBegins(s, script);
      for t := 0 to |script|
        invariant Valid() && !stopping && State() == s && executed == old(executed) + ran
        invariant RunUnderway(s, signalled, script, t, ran, taken, whole)
      {
        OneTurn(s, signalled, script, t, ran, taken, whole);
        local := local + script[t].timers;
        taken := taken + Generations(WithTimers(s, script[t]), 0, script[t].events);
        var turn, more := Turn(script[t].events);
        Reassociate(old(executed), ran, more);
        ran := ran + more;
        if turn.Unfinished? {
          return StillRunning;
        }
        if turn.Failed? {
          return Raised;
        }
        if stopping {
          return if signalled then Raised else Returned;
        }
        signalled := AwaitNextTurn(script[t], signalled);
        s := State();
      }
      RunEndsOpen(s, signalled, script, ran, taken, whole);
      end := StillRunning;
    }
  }

  /** `ran` came before event `k`, and `whole` is the turn. */
  ghost predicate Underway(s: Queues, processed: nat, events: seq<Event>, k: nat, ran: seq<Item>, whole: TurnResult) {
    k <= |events| && Prepend(ran, Drained(s, processed, events[k..])) == whole
  }

  lemma TurnBegins(s: Queues, events: seq<Event>)
    ensures Underway(s, 0, events, 0, [], Drained(s, 0, events))
  {
    assert events[0..] == events;
    PrependNone(Drained(s, 0, events));
  }

  lemma TurnRunsOut(s: Queues, processed: nat, events: seq<Event>, ran: seq<Item>, whole: TurnResult)
    requires Underway(s, processed, events, |events|, ran, whole)
    ensures whole == TurnResult(ran, Unfinished, s)
  {
    assert ran + [] == ran;
  }

  /** A pass inside a turn. */
  lemma OnePass(s: Queues, processed: nat, events: seq<Event>, k: nat, ran: seq<Item>, whole: TurnResult)
    requires k < |events| && processed < MAX_READY_ITEMS_PER_TURN && Underway(s, processed, events, k, ran, whole)
    ensures var p := Passed(s, processed, events[k]);
            if p.end.Unfinished? then Underway(p.left, p.next, events, k + 1, ran + p.ran, whole)
            else whole == TurnResult(ran + p.ran, p.end, p.left)
  {
    var p := Passed(s, processed, events[k]);
    assert events[k..][0] == events[k] && events[k..][1..] == events[k + 1..];
    if p.end.Unfinished? {
      var d := Drained(p.left, p.next, events[k + 1..]);
      assert Drained(s, processed, events[k..]) == Prepend(p.ran, d);
      assert ran + (p.ran + d.ran) == (ran + p.ran) + d.ran;
    }
  }

  /** `ran` and `taken` came before turn `t`, and `whole` is the run. */
  ghost predicate RunUnderway(s: Queues, signalled: bool, script: seq<TurnScript>, t: nat,
                              ran: seq<Item>, taken: seq<seq<Item>>, whole: RunResult) {
    t <= |script| && PrependRun(ran, taken, RunOf(s, signalled, script[t..])) == whole
  }

  lemma RunBegins(s: Queues, script: seq<TurnScript>)
    ensures RunUnderway(s, false, script, 0, [], [], RunOf(s, false, script))
  {
    assert script[0..] == script;
    var r := RunOf(s, false, script);
    assert [] + r.ran == r.ran && [] + r.generations == r.generations;
  }

  lemma RunEndsOpen(s: Queues, signalled: bool, script: seq<TurnScript>,
                    ran: seq<Item>, taken: seq<seq<Item>>, whole: RunResult)
    requires RunUnderway(s, signalled, script, |script|, ran, taken, whole)
    ensures whole == RunResult(ran, taken, StillRunning, s)
  {
    assert ran + [] == ran && taken + [] == taken;
  }

  /** A turn inside a run. */
  lemma OneTurn(s: Queues, signalled: bool, script: seq<TurnScript>, t: nat,
                ran: seq<Item>, taken: seq<seq<Item>>, whole: RunResult)
    requires t < |script| && RunUnderway(s, signalled, script, t, ran, taken, whole)
    ensures var begun := WithTimers(s, script[t]);
            var r, gs := Drained(begun, 0, script[t].events), Generations(begun, 0, script[t].events);
            if r.end.Finished? && !r.left.stopping then
              RunUnderway(Between(r.left, signalled, script[t]), signalled || script[t].signalError, script, t + 1,
                          ran + r.ran, taken + gs, whole)
            else whole == RunResult(ran + r.ran, taken + gs, Ending(r, signalled), r.left)
  {
    assert script[t..][0] == script[t] && script[t..][1..] == script[t + 1..];
    var begun := WithTimers(s, script[t]);
    var r, gs := Drained(begun, 0, script[t].events), Generations(begun, 0, script[t].events);
    if r.end.Finished? && !r.left.stopping {
      var next := Between(r.left, signalled, script[t]);
      var rest := RunOf(next, signalled || script[t].signalError, script[t + 1..]);
      Reassociate(ran, r.ran, rest.ran);
      Reassociate(taken, gs, rest.generations);
    }
  }
}
