/** What becomes of the work a run is given (src/engine/loop_core.rs): nothing
    that is queued, scheduled or pushed during turns and between them is lost,
    doubled or reordered, and what stops a run is what the script says. */
module TurnLedger {
  import opened GenerationMerge
  import opened Sequences
  import opened TurnDiscipline

  // ----- What the script supplies -----

  /** Everything these passes scheduled on the loop thread, in order. */
  function LocalLog(events: seq<Event>): (items: seq<Item>) {
    if events == [] then [] else events[0].local + LocalLog(events[1..])
  }

  /** Everything other threads pushed during them, in order. */
  function RemoteLog(events: seq<Event>): (items: seq<Marked<Item>>) {
    if events == [] then [] else events[0].remote + RemoteLog(events[1..])
  }

  /** What is taken out of both queues for one generation. */
  datatype Intake = Intake(local: seq<Item>, taken: nat, pending: seq<Marked<Item>>)

  function Merged(i: Intake): (generation: seq<Item>) {
    Merge(i.local, i.taken, i.pending)
  }

  function Locals(ins: seq<Intake>): (items: seq<Item>) {
    if ins == [] then [] else ins[0].local + Locals(ins[1..])
  }

  function Pendings(ins: seq<Intake>): (items: seq<Marked<Item>>) {
    if ins == [] then [] else ins[0].pending + Pendings(ins[1..])
  }

  /** The generations are the merges of the intakes, each with the count of
      local items taken before it. */
  ghost predicate Merges(gs: seq<seq<Item>>, ins: seq<Intake>, taken: nat)
    decreases |ins|
  {
    if ins == [] then gs == []
    else
      && gs != [] && gs[0] == Merged(ins[0]) && ins[0].taken == taken
      && Merges(gs[1..], ins[1..], taken + |ins[0].local|)
  }

  /** Both queues were `s`'s, then `locals` and `remotes` came in order; the
      generations took what was in front, and the rest is left. */
  ghost predicate Taken(s: Queues, locals: seq<Item>, remotes: seq<Marked<Item>>, gs: seq<seq<Item>>,
                        ins: seq<Intake>, left: Queues) {
    && Merges(gs, ins, s.taken) && left.taken == s.taken + |Locals(ins)|
    && Locals(ins) + left.local == s.local + locals
    && Pendings(ins) + left.pending == s.pending + remotes
  }

  // ----- Joining two stretches -----

  lemma {:induction false} IntakesConcat(a: seq<Intake>, b: seq<Intake>)
    ensures Locals(a + b) == Locals(a) + Locals(b) && Pendings(a + b) == Pendings(a) + Pendings(b)
  {
    if a == [] {
      assert a + b == b;
    } else {
      IntakesConcat(a[1..], b);
      assert (a + b)[1..] == a[1..] + b;
      Reassociate(a[0].local, Locals(a[1..]), Locals(b));
      Reassociate(a[0].pending, Pendings(a[1..]), Pendings(b));
    }
  }

  lemma {:induction false} MergesConcat(gs: seq<seq<Item>>, ins: seq<Intake>, gs': seq<seq<Item>>, ins': seq<Intake>,
                                        taken: nat)
    requires Merges(gs, ins, taken) && Merges(gs', ins', taken + |Locals(ins)|)
    ensures Merges(gs + gs', ins + ins', taken)
    decreases |ins|
  {
    if ins == [] {
      assert gs + gs' == gs' && ins + ins' == ins';
    } else {
      MergesConcat(gs[1..], ins[1..], gs', ins', taken + |ins[0].local|);
      assert (gs + gs')[1..] == gs[1..] + gs' && (ins + ins')[1..] == ins[1..] + ins';
    }
  }

  lemma TakenJoins(s: Queues, locals: seq<Item>, remotes: seq<Marked<Item>>, gs: seq<seq<Item>>, ins: seq<Intake>,
                   mid: Queues, locals': seq<Item>, remotes': seq<Marked<Item>>, gs': seq<seq<Item>>,
                   ins': seq<Intake>, left: Queues)
    requires Taken(s, locals, remotes, gs, ins, mid) && Taken(mid, locals', remotes', gs', ins', left)
    ensures Taken(s, locals + locals', remotes + remotes', gs + gs', ins + ins', left)
  {
    IntakesConcat(ins, ins');
    MergesConcat(gs, ins, gs', ins', s.taken);
    QueueJoins(Locals(ins), mid.local, s.local, locals, Locals(ins'), left.local, locals');
    QueueJoins(Pendings(ins), mid.pending, s.pending, remotes, Pendings(ins'), left.pending, remotes');
  }

  // ----- A turn -----

  lemma OneIntake(i: Intake)
    ensures Locals([i]) == i.local && Pendings([i]) == i.pending && Merges([Merged(i)], [i], i.taken)
  {
    assert Locals([i]) == i.local + Locals([]) && Pendings([i]) == i.pending + Pendings([]);
  }

  /** What a pass takes before its item runs. */
  lemma FilledTaken(s: Queues, processed: nat, e: Event) returns (ins: seq<Intake>)
    ensures Taken(s, [], [], Begun(s, processed, e), ins, Filled(s, processed, e))
  {
    var f := Filled(s, processed, e);
    assert s.local + [] == s.local && s.pending + [] == s.pending;
    if s.batch == [] && f.batch != [] {
      var i := Intake(s.local, s.taken, if e.seen then s.pending else []);
      ins := [i];
      OneIntake(i);
      assert s.local + [] == s.local && s.pending + [] == s.pending && [] + s.pending == s.pending;
    } else {
      ins := [];
      assert [] + f.local == f.local && [] + f.pending == f.pending;
      if s.batch == [] {
        NothingTaken(s, e);
      }
    }
  }

  /** An empty generation means empty queues, as far as they are seen. */
  lemma NothingTaken(s: Queues, e: Event)
    ensures Formed(s, e).batch == [] ==> s.local == [] && (e.seen ==> s.pending == [])
  {
    MergeConserves(s.local, s.taken, s.pending);
    if e.seen && Formed(s, e).batch == [] {
      assert |Merge(s.local, s.taken, s.pending)| == |multiset(s.local) + multiset(Items(s.pending))|;
    }
  }

  lemma ExecutedTaken(f: Queues, e: Event)
    requires f.batch != []
    ensures Taken(f, e.local, e.remote, [], [], Executed(f, e))
  {
    assert [] + (f.local + e.local) == f.local + e.local && [] + (f.pending + e.remote) == f.pending + e.remote;
  }

  lemma LogNext(events: seq<Event>, n: nat)
    requires 0 < n <= |events|
    ensures LocalLog(events[..n]) == events[0].local + LocalLog(events[1..][..n - 1])
    ensures RemoteLog(events[..n]) == events[0].remote + RemoteLog(events[1..][..n - 1])
  {
    assert events[..n][0] == events[0] && events[..n][1..] == events[1..][..n - 1];
  }

  lemma PassTaken(s: Queues, processed: nat, e: Event) returns (ins: seq<Intake>)
    ensures var p := Passed(s, processed, e);
            if p.ran == [] then Taken(s, [], [], Begun(s, processed, e), ins, p.left)
            else Taken(s, e.local, e.remote, Begun(s, processed, e), ins, p.left)
  {
    ins := FilledTaken(s, processed, e);
    var f, gs := Filled(s, processed, e), Begun(s, processed, e);
    if f.batch != [] {
      ExecutedTaken(f, e);
      TakenJoins(s, [], [], gs, ins, f, e.local, e.remote, [], [], Executed(f, e));
      assert [] + e.local == e.local && [] + e.remote == e.remote && gs + [] == gs && ins + [] == ins;
    }
  }

  lemma {:induction false} RanWithin(s: Queues, processed: nat, events: seq<Event>)
    ensures |Drained(s, processed, events).ran| <= |events|
    decreases |events|
  {
    if events != [] {
      DrainedPass(s, processed, events);
      var p := Passed(s, processed, events[0]);
      if p.end.Unfinished? {
        RanWithin(p.left, p.next, events[1..]);
      }
    }
  }

  /** The events of a turn that happened: one for each item that ran. */
  function Happened(s: Queues, events: seq<Event>): (past: seq<Event>) {
    RanWithin(s, 0, events);
    events[..|Drained(s, 0, events).ran|]
  }

  /** The account of a turn. */
  ghost predicate TurnTaken(s: Queues, processed: nat, events: seq<Event>, ins: seq<Intake>) {
    var r := Drained(s, processed, events);
    && |r.ran| <= |events|
    && Taken(s, LocalLog(events[..|r.ran|]), RemoteLog(events[..|r.ran|]),
             Generations(s, processed, events), ins, r.left)
  }

  /** However a turn goes, its generations are merges of what was then queued:
      the local queue and what the items scheduled leave it in order, so does
      the off-thread queue with what was pushed, and the rest is still there. */
  lemma {:induction false} TurnTakes(s: Queues, processed: nat, events: seq<Event>) returns (ins: seq<Intake>)
    ensures TurnTaken(s, processed, events, ins)
    decreases |events|
  {
    if events == [] {
      ins := [];
      assert [] + s.local == s.local + [] && [] + s.pending == s.pending + [];
    } else {
      var p := Passed(s, processed, events[0]);
      ins := PassTaken(s, processed, events[0]);
      if p.end.Unfinished? {
        var more := TurnTakes(p.left, p.next, events[1..]);
        MorePasses(s, processed, events, ins, more);
        ins := ins + more;
      } else {
        DrainedPass(s, processed, events);
        assert Begun(s, processed, events[0]) + [] == Begun(s, processed, events[0]);
        LastPass(events, p.ran);
      }
    }
  }

  lemma MorePasses(s: Queues, processed: nat, events: seq<Event>, ins: seq<Intake>, more: seq<Intake>)
    requires events != [] && Passed(s, processed, events[0]).end.Unfinished?
    requires var p := Passed(s, processed, events[0]);
             && Taken(s, events[0].local, events[0].remote, Begun(s, processed, events[0]), ins, p.left)
             && TurnTaken(p.left, p.next, events[1..], more)
    ensures TurnTaken(s, processed, events, ins + more)
  {
    var p := Passed(s, processed, events[0]);
    var d, gs := Drained(p.left, p.next, events[1..]), Generations(p.left, p.next, events[1..]);
    var past := events[1..][..|d.ran|];
    DrainedPass(s, processed, events);
    TakenJoins(s, events[0].local, events[0].remote, Begun(s, processed, events[0]), ins, p.left,
               LocalLog(past), RemoteLog(past), gs, more, d.left);
    LogNext(events, |d.ran| + 1);
  }

  lemma LastPass(events: seq<Event>, ran: seq<Item>)
    requires events != [] && |ran| <= 1
    ensures LocalLog(events[..|ran|]) == if ran == [] then [] else events[0].local
    ensures RemoteLog(events[..|ran|]) == if ran == [] then [] else events[0].remote
  {
    if ran != [] {
      LogNext(events, 1);
      assert events[0].local + [] == events[0].local && events[0].remote + [] == events[0].remote;
    }
  }

  // ----- A run -----

  /** What a run is given besides its queues: timers, what the items that ran
      scheduled or let in, and what comes between turns, in order. */
  function Given(s: Queues, signalled: bool, script: seq<TurnScript>): (given: (seq<Item>, seq<Marked<Item>>))
    decreases |script|
  {
    if script == [] then ([], [])
    else
      var begun, t := WithTimers(s, script[0]), script[0];
      var r, past := Drained(begun, 0, t.events), Happened(begun, t.events);
      var locals, remotes := t.timers + LocalLog(past), RemoteLog(past);
      if r.end.Finished? && !r.left.stopping then
        var rest := Given(Between(r.left, signalled, t), signalled || t.signalError, script[1..]);
        (locals + (t.local + rest.0), remotes + (t.remote + rest.1))
      else (locals, remotes)
  }

  lemma Arrives(s: Queues, locals: seq<Item>, remotes: seq<Marked<Item>>, left: Queues)
    requires left.taken == s.taken && left.local == s.local + locals && left.pending == s.pending + remotes
    ensures Taken(s, locals, remotes, [], [], left)
  {
    assert [] + left.local == left.local && [] + left.pending == left.pending;
  }

  /** The timers and the turn. */
  lemma FirstTurnTakes(s: Queues, t: TurnScript) returns (ins: seq<Intake>)
    ensures var begun := WithTimers(s, t);
            Taken(s, t.timers + LocalLog(Happened(begun, t.events)), RemoteLog(Happened(begun, t.events)),
                  Generations(begun, 0, t.events), ins, Drained(begun, 0, t.events).left)
  {
    var begun, gs := WithTimers(s, t), Generations(WithTimers(s, t), 0, t.events);
    var past := Happened(begun, t.events);
    assert s.pending + [] == s.pending;
    Arrives(s, t.timers, [], begun);
    ins := TurnTakes(begun, 0, t.events);
    TakenJoins(s, t.timers, [], [], [], begun, LocalLog(past), RemoteLog(past), gs, ins,
               Drained(begun, 0, t.events).left);
    assert [] + RemoteLog(past) == RemoteLog(past) && [] + gs == gs && [] + ins == ins;
  }

  /** Over a whole run, however it goes: its generations are merges of what was
      then queued, and both queues are first in, first out, with nothing lost
      and nothing added. */
  lemma {:induction false} RunTakes(s: Queues, signalled: bool, script: seq<TurnScript>) returns (ins: seq<Intake>)
    ensures var r, given := RunOf(s, signalled, script), Given(s, signalled, script);
            Taken(s, given.0, given.1, r.generations, ins, r.left)
    decreases |script|
  {
    if script == [] {
      ins := [];
      assert s.local + [] == s.local && s.pending + [] == s.pending;
      Arrives(s, [], [], s);
    } else {
      var begun, t := WithTimers(s, script[0]), script[0];
      var r := Drained(begun, 0, t.events);
      ins := FirstTurnTakes(s, t);
      if r.end.Finished? && !r.left.stopping {
        var more := RunTakes(Between(r.left, signalled, t), signalled || t.signalError, script[1..]);
        MoreTurns(s, signalled, script, ins, more);
        ins := ins + more;
      }
    }
  }

  lemma MoreTurns(s: Queues, signalled: bool, script: seq<TurnScript>, ins: seq<Intake>, more: seq<Intake>)
    requires script != []
    requires var begun, t := WithTimers(s, script[0]), script[0];
             var r := Drained(begun, 0, t.events);
             && r.end.Finished? && !r.left.stopping
             && Taken(s, t.timers + LocalLog(Happened(begun, t.events)), RemoteLog(Happened(begun, t.events)),
                      Generations(begun, 0, t.events), ins, r.left)
             && var next, told := Between(r.left, signalled, t), signalled || t.signalError;
                Taken(next, Given(next, told, script[1..]).0, Given(next, told, script[1..]).1,
                      RunOf(next, told, script[1..]).generations, more, RunOf(next, told, script[1..]).left)
    ensures var r, given := RunOf(s, signalled, script), Given(s, signalled, script);
            Taken(s, given.0, given.1, r.generations, ins + more, r.left)
  {
    var begun, t := WithTimers(s, script[0]), script[0];
    var r, past, gs := Drained(begun, 0, t.events), Happened(begun, t.events), Generations(begun, 0, t.events);
    var next, told := Between(r.left, signalled, t), signalled || t.signalError;
    var rest, given := RunOf(next, told, script[1..]), Given(next, told, script[1..]);
    Arrives(r.left, t.local, t.remote, next);
    TakenJoins(r.left, t.local, t.remote, [], [], next, given.0, given.1, rest.generations, more, rest.left);
    assert [] + rest.generations == rest.generations && [] + more == more;
    TakenJoins(s, t.timers + LocalLog(past), RemoteLog(past), gs, ins, r.left,
               t.local + given.0, t.remote + given.1, rest.generations, more, rest.left);
  }

  // ----- Nothing is lost -----

  /** Everything queued. */
  ghost function All(s: Queues): (items: multiset<Item>) {
    multiset(s.batch) + multiset(s.local) + multiset(Items(s.pending))
  }

  lemma ItemsConcat(a: seq<Marked<Item>>, b: seq<Marked<Item>>)
    ensures Items(a + b) == Items(a) + Items(b)
  {
  }

  lemma {:induction false} MergesConserve(gs: seq<seq<Item>>, ins: seq<Intake>, taken: nat)
    requires Merges(gs, ins, taken)
    ensures multiset(Flat(gs)) == multiset(Locals(ins)) + multiset(Items(Pendings(ins)))
    decreases |ins|
  {
    if ins == [] {
      assert Items(Pendings(ins)) == [];
    } else {
      MergesConserve(gs[1..], ins[1..], taken + |ins[0].local|);
      MergeConserves(ins[0].local, ins[0].taken, ins[0].pending);
      ItemsConcat(ins[0].pending, Pendings(ins[1..]));
    }
  }

  lemma TakenConserves(s: Queues, locals: seq<Item>, remotes: seq<Marked<Item>>, gs: seq<seq<Item>>, ins: seq<Intake>,
                       left: Queues, ran: seq<Item>)
    requires Taken(s, locals, remotes, gs, ins, left) && ran + left.batch == s.batch + Flat(gs)
    ensures multiset(ran) + All(left) == All(s) + multiset(locals) + multiset(Items(remotes))
  {
    MergesConserve(gs, ins, s.taken);
    assert multiset(ran + left.batch) == multiset(s.batch + Flat(gs));
    assert multiset(Locals(ins) + left.local) == multiset(s.local + locals);
    assert multiset(Items(Pendings(ins) + left.pending)) == multiset(Items(s.pending + remotes));
    ItemsConcat(Pendings(ins), left.pending);
    ItemsConcat(s.pending, remotes);
    Balance(multiset(ran), multiset(left.batch), multiset(s.batch), multiset(Locals(ins)),
            multiset(Items(Pendings(ins))), multiset(left.local), multiset(s.local), multiset(locals),
            multiset(Items(left.pending)), multiset(Items(s.pending)), multiset(Items(remotes)));
  }

  lemma Balance(ran: multiset<Item>, batch': multiset<Item>, batch: multiset<Item>, a: multiset<Item>,
                b: multiset<Item>, local': multiset<Item>, local: multiset<Item>, locals: multiset<Item>,
                pending': multiset<Item>, pending: multiset<Item>, remotes: multiset<Item>)
    requires ran + batch' == batch + (a + b) && a + local' == local + locals && b + pending' == pending + remotes
    ensures ran + (batch' + local' + pending') == (batch + local + pending) + locals + remotes
  {
    assert ran + (batch' + local' + pending') == (ran + batch') + local' + pending';
    assert (batch + (a + b)) + local' + pending' == batch + (a + local') + (b + pending');
  }

  /** What ran in a turn and what is queued after it are what was queued before
      it and what was scheduled and pushed during it. */
  lemma TurnConserves(s: Queues, events: seq<Event>)
    ensures var r, past := Drained(s, 0, events), Happened(s, events);
            multiset(r.ran) + All(r.left) == All(s) + multiset(LocalLog(past)) + multiset(Items(RemoteLog(past)))
  {
    var ins := TurnTakes(s, 0, events);
    TurnAccounts(s, 0, events);
    var r, past := Drained(s, 0, events), Happened(s, events);
    TakenConserves(s, LocalLog(past), RemoteLog(past), Generations(s, 0, events), ins, r.left, r.ran);
  }

  /** The same for a whole run. */
  lemma RunConserves(s: Queues, signalled: bool, script: seq<TurnScript>)
    ensures var r, given := RunOf(s, signalled, script), Given(s, signalled, script);
            multiset(r.ran) + All(r.left) == All(s) + multiset(given.0) + multiset(Items(given.1))
  {
    var ins := RunTakes(s, signalled, script);
    RunAccounts(s, signalled, script);
    var r, given := RunOf(s, signalled, script), Given(s, signalled, script);
    TakenConserves(s, given.0, given.1, r.generations, ins, r.left, r.ran);
  }

  // ----- What ends a turn and a run -----

  /** A turn fails exactly at the first item whose callback raises. */
  lemma {:induction false} FailsExactly(s: Queues, processed: nat, events: seq<Event>)
    ensures var r := Drained(s, processed, events);
            && |r.ran| <= |events|
            && (r.end.Failed? <==> r.ran != [] && r.ran[|r.ran| - 1].Work? && events[|r.ran| - 1].fails)
            && forall k :: 0 <= k < |r.ran| - 1 ==> !(r.ran[k].Work? && events[k].fails)
    decreases |events|
  {
    if events != [] {
      DrainedPass(s, processed, events);
      var p := Passed(s, processed, events[0]);
      if p.end.Unfinished? {
        FailsExactly(p.left, p.next, events[1..]);
        var d, r := Drained(p.left, p.next, events[1..]), Drained(s, processed, events);
        assert r.ran[1..] == d.ran && r.ran[0] == p.ran[0];
        forall k | 0 <= k < |r.ran| - 1 ensures !(r.ran[k].Work? && events[k].fails) {
          assert k > 0 ==> r.ran[k] == d.ran[k - 1] && events[k] == events[1..][k - 1];
        }
      }
    }
  }

  /** A stop was asked for and no Stop has run since. */
  ghost predicate StopAsked(before: bool, ran: seq<Item>, events: seq<Event>)
    requires |ran| <= |events|
  {
    || (before && !HasStop(ran))
    || exists k :: 0 <= k < |ran| && events[k].requestStop && !HasStop(ran[k + 1..])
  }

  lemma StopAskedNext(before: bool, item: Item, ran: seq<Item>, events: seq<Event>)
    requires |ran| < |events|
    ensures StopAsked(before, [item] + ran, events) <==>
            StopAsked(events[0].requestStop || (before && !item.Stop?), ran, events[1..])
  {
    var all := [item] + ran;
    StopFront(item, ran);
    assert all[1..] == ran;
    if exists k :: 0 <= k < |all| && events[k].requestStop && !HasStop(all[k + 1..]) {
      var k :| 0 <= k < |all| && events[k].requestStop && !HasStop(all[k + 1..]);
      if k > 0 {
        assert events[1..][k - 1].requestStop && ran[k..] == all[k + 1..];
      }
    }
    if exists k :: 0 <= k < |ran| && events[1..][k].requestStop && !HasStop(ran[k + 1..]) {
      var k :| 0 <= k < |ran| && events[1..][k].requestStop && !HasStop(ran[k + 1..]);
      assert events[k + 1].requestStop && all[k + 2..] == ran[k + 1..];
    }
    if events[0].requestStop && !HasStop(ran) {
      assert !HasStop(all[0 + 1..]);
    }
  }

  /** The stop flag is exactly that. */
  lemma {:induction false} StopPendingExactly(s: Queues, processed: nat, events: seq<Event>)
    ensures var r := Drained(s, processed, events);
            |r.ran| <= |events| && (r.left.stopRequested <==> StopAsked(s.stopRequested, r.ran, events))
    decreases |events|
  {
    if events != [] {
      DrainedPass(s, processed, events);
      var p := Passed(s, processed, events[0]);
      if p.end.Unfinished? {
        StopPendingExactly(p.left, p.next, events[1..]);
        StopAskedNext(s.stopRequested, p.ran[0], Drained(p.left, p.next, events[1..]).ran, events);
      } else if p.ran != [] {
        StopAskedNext(s.stopRequested, p.ran[0], [], events);
      }
    }
  }

  /** A turn does not finish with a stop pending, unless it has spent its budget
      or nothing is queued for it. */
  lemma {:induction false} PendingStopGoesOn(s: Queues, processed: nat, events: seq<Event>)
    requires processed < MAX_READY_ITEMS_PER_TURN
    ensures var r := Drained(s, processed, events);
            r.end.Finished? && r.left.stopRequested ==>
              || (r.ran != [] && (processed + |r.ran|) % MAX_READY_ITEMS_PER_TURN == 0 && !r.left.stopping)
              || (r.left.batch == [] && r.left.local == [])
    decreases |events|
  {
    if events != [] {
      DrainedPass(s, processed, events);
      var p := Passed(s, processed, events[0]);
      NothingTaken(s, events[0]);
      if p.end.Unfinished? {
        PendingStopGoesOn(p.left, p.next, events[1..]);
        BudgetWraps(processed, |Drained(p.left, p.next, events[1..]).ran|);
      }
    }
  }

  /** How many turns a run begins. */
  function Turns(s: Queues, signalled: bool, script: seq<TurnScript>): (n: nat)
    decreases |script|
  {
    if script == [] then 0
    else
      var r, t := Drained(WithTimers(s, script[0]), 0, script[0].events), script[0];
      if r.end.Finished? && !r.left.stopping then
        1 + Turns(Between(r.left, signalled, t), signalled || t.signalError, script[1..])
      else 1
  }

  /** The last turn a run begins. */
  function LastTurn(s: Queues, signalled: bool, script: seq<TurnScript>): (r: TurnResult)
    requires script != []
    decreases |script|
  {
    var r, t := Drained(WithTimers(s, script[0]), 0, script[0].events), script[0];
    if r.end.Finished? && !r.left.stopping && |script| > 1 then
      LastTurn(Between(r.left, signalled, t), signalled || t.signalError, script[1..])
    else r
  }

  /** A signal error came before the last turn. */
  ghost predicate SignalErrorBefore(script: seq<TurnScript>, turns: nat)
    requires turns <= |script|
  {
    exists t :: 0 <= t < turns - 1 && script[t].signalError
  }

  lemma SignalErrorNext(script: seq<TurnScript>, turns: nat)
    requires 0 < turns && turns + 1 <= |script|
    ensures SignalErrorBefore(script, turns + 1) <==> script[0].signalError || SignalErrorBefore(script[1..], turns)
  {
    if SignalErrorBefore(script, turns + 1) {
      var t :| 0 <= t < turns && script[t].signalError;
      assert t > 0 ==> script[1..][t - 1].signalError;
    }
    if SignalErrorBefore(script[1..], turns) {
      var t :| 0 <= t < turns - 1 && script[1..][t].signalError;
      assert script[t + 1].signalError;
    }
  }

  /** How a run ends: it raises if the last turn failed; it raises or returns if
      that turn finished stopping, depending on a signal error before; and
      otherwise it is still running. */
  ghost predicate EndsAs(end: RunEnd, last: TurnResult, error: bool) {
    match last.end
    case Failed => end.Raised?
    case Unfinished => end.StillRunning?
    case Finished => if !last.left.stopping then end.StillRunning? else if error then end.Raised? else end.Returned?
  }

  lemma {:induction false} RunEndsExactly(s: Queues, signalled: bool, script: seq<TurnScript>)
    requires script != []
    ensures 0 < Turns(s, signalled, script) <= |script|
    ensures EndsAs(RunOf(s, signalled, script).end, LastTurn(s, signalled, script),
                   signalled || SignalErrorBefore(script, Turns(s, signalled, script)))
    decreases |script|
  {
    var r, t := Drained(WithTimers(s, script[0]), 0, script[0].events), script[0];
    if r.end.Finished? && !r.left.stopping {
      if |script| > 1 {
        var next, told := Between(r.left, signalled, t), signalled || t.signalError;
        RunEndsExactly(next, told, script[1..]);
        SignalErrorNext(script, Turns(next, told, script[1..]));
      }
    }
  }

  /** The stop flag the next turn starts with: a request that is still pending,
      one between the turns, or the first signal error. */
  lemma StopCarried(s: Queues, signalled: bool, t: TurnScript)
    ensures var r := Drained(s, 0, t.events);
            && |r.ran| <= |t.events|
            && (Between(r.left, signalled, t).stopRequested <==>
                  StopAsked(s.stopRequested, r.ran, t.events) || t.requestStop || (t.signalError && !signalled))
  {
    StopPendingExactly(s, 0, t.events);
  }

  ghost predicate NoErrors(t: TurnScript) {
    !t.signalError && forall i :: 0 <= i < |t.events| ==> !t.events[i].fails
  }

  /** And only a raising callback or a signal error makes a run raise. */
  lemma {:induction false} NoErrorsNoRaise(s: Queues, script: seq<TurnScript>)
    requires forall t :: 0 <= t < |script| ==> NoErrors(script[t])
    ensures !RunOf(s, false, script).end.Raised?
    decreases |script|
  {
    if script != [] {
      assert NoErrors(script[0]);
      var r, t := Drained(WithTimers(s, script[0]), 0, script[0].events), script[0];
      FailsExactly(WithTimers(s, script[0]), 0, script[0].events);
      if r.end.Finished? && !r.left.stopping {
        NoErrorsNoRaise(Between(r.left, false, t), script[1..]);
      }
    }
  }
}
