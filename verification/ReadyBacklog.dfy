/** Work queued before a run and the run's own work: which goes first.

    A comment in src/engine/commands.rs says that the backlog goes ahead of all
    of the run's own work. The loop thread can start a generation before the
    backlog has reached its queue, so that is not always so; here is exactly
    when it is. */
module ReadyBacklog {
  import opened GenerationMerge
  import opened ReadyProtocol
  import opened ReadyGate
  import opened ReadyOrder
  import opened Sequences
  import opened Wrappers

  /** A loop-thread item enqueued when `n` had been counted, or later. */
  predicate Late(y: Item, n: nat) {
    y.Local? && y.n >= n
  }

  /** Along `line`, a late loop-thread item is ahead of `x`. */
  predicate Overtaken(line: seq<Item>, x: Item, n: nat) {
    line != [] && line[0] != x && (Late(line[0], n) || Overtaken(line[1..], x, n))
  }

  lemma {:induction false} OvertakenConcat(a: seq<Item>, b: seq<Item>, x: Item, n: nat)
    ensures Overtaken(a + b, x, n) <==> Overtaken(a, x, n) || (x !in a && Overtaken(b, x, n))
  {
    if a == [] {
      assert a + b == b;
    } else {
      assert (a + b)[1..] == a[1..] + b;
      OvertakenConcat(a[1..], b, x, n);
    }
  }

  lemma {:induction false} OvertakenAbsent(a: seq<Item>, x: Item, n: nat)
    requires x !in a
    ensures Overtaken(a, x, n) <==> exists y :: y in a && Late(y, n)
  {
    if a != [] {
      OvertakenAbsent(a[1..], x, n);
      assert forall y :: y in a <==> y == a[0] || y in a[1..];
    }
  }

  lemma OvertakenLine(s: State, x: Item, n: nat)
    ensures Overtaken(Line(s), x, n) <==>
            || Overtaken(Front(s), x, n)
            || (x !in Front(s) && (Overtaken(Pending(s), x, n) || (x !in Pending(s) && Overtaken(Back(s), x, n))))
  {
    OvertakenConcat(Front(s), Pending(s) + Back(s), x, n);
    OvertakenConcat(Pending(s), Back(s), x, n);
  }

  // ----- The merge keeps an item ahead whose mark is reached -----

  /** Every mark up to the first `x` is at most `taken`. */
  predicate Reached(queue: seq<Marked<Item>>, x: Item, taken: nat) {
    queue == [] || (queue[0].mark <= taken && (queue[0].item == x || Reached(queue[1..], x, taken)))
  }

  lemma {:induction false} ReachedMore(queue: seq<Marked<Item>>, more: seq<Marked<Item>>, x: Item, taken: nat,
                                       taken': nat)
    requires Reached(queue, x, taken) && taken <= taken'
    requires x !in Items(queue) ==> Reached(more, x, taken')
    ensures Reached(queue + more, x, taken')
  {
    if queue == [] {
      assert queue + more == more;
    } else {
      assert (queue + more)[1..] == queue[1..] + more;
      assert Items(queue) == [queue[0].item] + Items(queue[1..]);
      if queue[0].item != x {
        ReachedMore(queue[1..], more, x, taken, taken');
      }
    }
  }

  lemma {:induction false} ReachedAll(items: seq<Item>, mark: nat, x: Item, taken: nat)
    requires mark <= taken
    ensures Reached(MarkAll(items, mark), x, taken)
  {
    if items != [] {
      assert MarkAll(items, mark)[1..] == MarkAll(items[1..], mark);
      ReachedAll(items[1..], mark, x, taken);
    }
  }

  lemma {:induction false} MergeKeepsAhead(local: seq<Item>, taken: nat, queue: seq<Marked<Item>>, x: Item, n: nat)
    requires Reached(queue, x, taken) && x in Items(queue)
    ensures Overtaken(Merge(local, taken, queue), x, n) == Overtaken(Items(queue), x, n)
    decreases |queue|
  {
    assert Items(queue) == [queue[0].item] + Items(queue[1..]);
    var rest := Merge(local, taken, queue[1..]);
    assert Merge(local, taken, queue) == [queue[0].item] + rest;
    OvertakenConcat([queue[0].item], rest, x, n);
    OvertakenConcat([queue[0].item], Items(queue[1..]), x, n);
    if queue[0].item != x {
      MergeKeepsAhead(local, taken, queue[1..], x, n);
    }
  }

  // ----- What is kept for an item of the backlog -----

  predicate BetweenRuns(s: State) {
    s.loop.Stopped? || s.loop.Opening? || (s.loop.Awaiting? && s.acked)
  }

  /** The run's EnterRun is on its way behind `x`, or being handled with `x`. */
  predicate Carried(s: State, x: Item) {
    || (AwaitsEnter(s) && Controls(s.channel)[0].mark <= s.taken && x in s.ready + BeforeEnter(s.channel))
    || (s.disp.Forwarding? && s.disp.entering.Some? && s.disp.mark <= s.taken && x in s.ready)
  }

  ghost predicate Kept(s: State, x: Item, n: nat) {
    && n <= s.localEnqueues && (s.loop.Running? || s.loop.Ending? ==> n <= s.taken)
    && x in Line(s)
    && (x !in Front(s) ==> Reached(Queue(s), x, s.taken))
    && (x !in Front(s) && x !in Pending(s) ==> BetweenRuns(s) || Carried(s, x))
  }

  /** A step that puts the run's own items ahead of `x`: a generation with a
      nonempty local queue is started from that queue alone before `x` is
      taken, or from both queues (or saved at the end of the run) before the
      dispatcher has forwarded `x`. */
  predicate Bypass(s: State, e: Step, x: Item) {
    && e.ByLoop? && s.local != [] && x !in Front(s)
    && (e.act.TakeLocal? || ((e.act.TakeMerged? || e.act.SaveLeftovers?) && x !in Pending(s)))
  }

  lemma KeptSendEnter(s: State, x: Item)
    requires Control(s) && CanLoop(s, SendEnter) && x in Back(s)
    ensures Kept(DoSendEnter(s), x, s.localEnqueues)
  {
    var s' := DoSendEnter(s);
    ChannelSend(s.channel, EnterRun(s.run, s.localEnqueues));
    BeforeEnterNone(s.channel);
    assert s'.ready + BeforeEnter(s'.channel) == Back(s) == Back(s');
    LineMembers(s');
  }

  /** `x` keeps being kept, and is overtaken exactly if it was or is now. */
  ghost predicate Carries(s: State, s': State, x: Item, n: nat, bypass: bool) {
    && Kept(s', x, n)
    && (Overtaken(Line(s'), x, n) <==> Overtaken(Line(s), x, n) || bypass)
  }

  // ----- Producers -----

  lemma KeptFrame(s: State, s': State, x: Item, n: nat)
    requires Kept(s, x, n) && s'.executed == s.executed && s'.batch == s.batch && Queue(s') == Queue(s)
    requires s'.ready == s.ready && s'.channel == s.channel && s'.disp == s.disp && s'.run == s.run
    requires s'.loop == s.loop && s'.acked == s.acked && s'.taken == s.taken && s.localEnqueues <= s'.localEnqueues
    ensures Carries(s, s', x, n, false)
  {
    assert Line(s') == Line(s);
  }

  lemma KeptSend(s: State, s': State, item: Item, x: Item, n: nat)
    requires Kept(s, x, n) && !item.Local?
    requires s'.executed == s.executed && s'.batch == s.batch && Queue(s') == Queue(s) && s'.ready == s.ready
    requires s'.channel == s.channel + [Schedule(item)] && s'.disp == s.disp && s'.run == s.run
    requires s'.loop == s.loop && s'.acked == s.acked && s'.taken == s.taken && s'.localEnqueues == s.localEnqueues
    ensures Carries(s, s', x, n, false)
  {
    LineSend(s, s', item);
    OvertakenConcat(Line(s), [item], x, n);
    ChannelSend(s.channel, Schedule(item));
    if Carried(s, x) {
      CarriedSend(s, s', Schedule(item), x);
    }
  }

  lemma CarriedSend(s: State, s': State, c: Command, x: Item)
    requires Carried(s, x) && s'.channel == s.channel + [c] && s'.ready == s.ready && s'.disp == s.disp
    requires s'.run == s.run && s'.taken == s.taken
    ensures Carried(s', x)
  {
    ChannelSend(s.channel, c);
    if AwaitsEnter(s) {
      BeforeEnterSend(s.channel, c);
    }
  }

  lemma KeptPush(s: State, s': State, item: Item, x: Item, n: nat)
    requires Control(s) && Kept(s, x, n) && !item.Local? && Accepting(s)
    requires s'.executed == s.executed && s'.batch == s.batch && s'.ready == s.ready && s'.channel == s.channel
    requires Queue(s') == Queue(s) + [Marked(item, s.localEnqueues)] && Pending(s') == Pending(s) + [item]
    requires s'.disp == s.disp && s'.run == s.run
    requires s'.loop == s.loop && s'.acked == s.acked && s'.taken == s.taken && s'.localEnqueues == s.localEnqueues
    ensures Carries(s, s', x, n, false)
  {
    assert x in Front(s) || x in Pending(s);
    LineMembers(s);
    LineMembers(s');
    OvertakenLine(s, x, n);
    OvertakenLine(s', x, n);
    OvertakenConcat(Pending(s), [item], x, n);
    if x !in Front(s) {
      ReachedMore(Queue(s), [Marked(item, s.localEnqueues)], x, s.taken, s.taken);
    }
  }

  lemma KeptCall(s: State, p: nat, e: CallStep, x: Item, n: nat)
    requires Control(s) && Kept(s, x, n) && CanCall(s, p, e)
    ensures Carries(s, Call(s, p, e), x, n, false)
  {
    if e.SendHandle? {
      KeptSend(s, DoSendHandle(s, p), OwnHandle(s, p), x, n);
    } else if e.SendOther? {
      KeptSend(s, DoSendOther(s, p), OwnOther(s, p), x, n);
    } else if e.TryDirect? && Accepting(s) {
      PushedPending(s, OwnHandle(s, p));
      KeptPush(s, DoTryDirect(s, p), OwnHandle(s, p), x, n);
    } else if e.TryOther? && Accepting(s) {
      PushedPending(s, OwnOther(s, p));
      KeptPush(s, DoTryOther(s, p), OwnOther(s, p), x, n);
    } else {
      KeptFrame(s, Call(s, p, e), x, n);
    }
  }

  // ----- Dispatcher -----

  lemma KeptReceiveItem(s: State, x: Item, n: nat)
    requires Control(s) && Kept(s, x, n) && CanDispatch(s, ReceiveItem)
    ensures Carries(s, DoReceiveItem(s), x, n, false)
  {
    var s' := DoReceiveItem(s);
    LineDispatcher(s, ReceiveItem);
    assert s.ready + BeforeEnter(s.channel) == s'.ready + BeforeEnter(s'.channel);
  }

  lemma KeptReceiveEnter(s: State, x: Item, n: nat)
    requires Control(s) && Kept(s, x, n) && CanDispatch(s, ReceiveEnter)
    ensures Carries(s, DoReceiveEnter(s), x, n, false)
  {
    LineDispatcher(s, ReceiveEnter);
    ControlsReceive(s.channel);
  }

  lemma KeptReceiveFinish(s: State, x: Item, n: nat)
    requires Control(s) && Kept(s, x, n) && CanDispatch(s, ReceiveFinish)
    ensures Carries(s, DoReceiveFinish(s), x, n, false)
  {
    var s' := DoReceiveFinish(s);
    LineDispatcher(s, ReceiveFinish);
    ControlsReceive(s.channel);
    assert Queue(s') == [];
  }

  lemma KeptForward(s: State, x: Item, n: nat)
    requires Control(s) && Kept(s, x, n) && CanDispatch(s, Forward)
    ensures Carries(s, DoForward(s), x, n, false)
  {
    LineDispatcher(s, Forward);
    if s.ready != [] {
      KeptForwarded(s, x, n);
    }
  }

  lemma KeptForwarded(s: State, x: Item, n: nat)
    requires Control(s) && Kept(s, x, n) && CanDispatch(s, Forward) && s.ready != []
    requires Line(DoForward(s)) == Line(s)
    ensures Carries(s, DoForward(s), x, n, false)
  {
    var s' := DoForward(s);
    assert Queue(s') == Queue(s) + MarkAll(s.ready, s.disp.mark);
    assert Pending(s') == Pending(s) + s.ready;
    if x !in Front(s) {
      if x !in Pending(s) {
        ReachedAll(s.ready, s.disp.mark, x, s.taken);
      }
      ReachedMore(Queue(s), MarkAll(s.ready, s.disp.mark), x, s.taken, s.taken);
    }
  }

  lemma KeptDispatcher(s: State, e: DispatcherStep, x: Item, n: nat)
    requires Control(s) && Kept(s, x, n) && CanDispatch(s, e)
    ensures Carries(s, Dispatcher(s, e), x, n, false)
  {
    match e
    case ReceiveItem => KeptReceiveItem(s, x, n);
    case ReceiveEnter => KeptReceiveEnter(s, x, n);
    case ReceiveFinish => KeptReceiveFinish(s, x, n);
    case DispatchReady => LineDispatcher(s, e);
    case Forward => KeptForward(s, x, n);
    case Release => LineDispatcher(s, e);
    case Activate => LineDispatcher(s, e);
  }

  // ----- Loop thread -----

  lemma LateLocals(s: State, n: nat)
    requires Locals(s) && n <= s.taken
    ensures forall y :: y in s.local ==> Late(y, n)
  {
  }

  /** An item is on the line or in the loop thread's queue, not both. */
  lemma OnLineNotLocal(s: State, x: Item)
    requires Conserved(s) && x in Line(s)
    ensures x !in s.local
  {
    assert multiset(s.accepted)[x] <= 1;
    assert x in multiset(Line(s));
    assert multiset(s.accepted)[x] == multiset(Line(s))[x] + multiset(s.local)[x];
    assert x in s.local ==> x in multiset(s.local);
  }

  /** Late items in front of the rest of the line overtake what is there. */
  lemma OvertakenInsert(front: seq<Item>, inserted: seq<Item>, rest: seq<Item>, x: Item, n: nat)
    requires x !in inserted && x !in front && x in rest
    ensures Overtaken(front + inserted + rest, x, n) <==>
            Overtaken(front + rest, x, n) || exists y :: y in inserted && Late(y, n)
  {
    OvertakenConcat(front + inserted, rest, x, n);
    OvertakenConcat(front, inserted, x, n);
    OvertakenConcat(front, rest, x, n);
    OvertakenAbsent(inserted, x, n);
  }

  /** An item that is taken keeps what is ahead of it. */
  lemma OvertakenFront(front: seq<Item>, a: seq<Item>, b: seq<Item>, x: Item, n: nat)
    requires x in front
    ensures Overtaken(front + a, x, n) == Overtaken(front + b, x, n)
  {
    OvertakenConcat(front, a, x, n);
    OvertakenConcat(front, b, x, n);
  }

  lemma SomeLate(s: State, n: nat)
    requires Locals(s) && n <= s.taken
    ensures (exists y :: y in s.local && Late(y, n)) <==> s.local != []
  {
    LateLocals(s, n);
    assert s.local != [] ==> s.local[0] in s.local;
  }

  lemma KeptTakeLocal(s: State, x: Item, n: nat)
    requires Control(s) && Locals(s) && Conserved(s) && Kept(s, x, n) && CanLoop(s, TakeLocal)
    ensures Carries(s, DoTakeLocal(s), x, n, Bypass(s, ByLoop(TakeLocal), x))
  {
    var s' := DoTakeLocal(s);
    var behind := Pending(s) + Back(s);
    OnLineNotLocal(s, x);
    SomeLate(s, n);
    assert Front(s) == s.executed;
    Reassociate(s.executed, s.local, behind);
    if x in s.executed {
      OvertakenFront(s.executed, s.local + behind, behind, x, n);
    } else {
      OvertakenInsert(s.executed, s.local, behind, x, n);
      ReachedMore(Queue(s), [], x, s.taken, s'.taken);
      assert Queue(s) + [] == Queue(s);
    }
  }

  /** A merge right behind `front`, in place of the queue it takes. */
  lemma OvertakenMerge(front: seq<Item>, s: State, x: Item, n: nat)
    requires Locals(s) && n <= s.taken && x !in s.local && x in front + (Pending(s) + Back(s))
    requires x !in front ==> Reached(Queue(s), x, s.taken)
    ensures var merged := Merge(s.local, s.taken, Queue(s));
            Overtaken(front + (merged + Back(s)), x, n) <==>
            || Overtaken(front + (Pending(s) + Back(s)), x, n)
            || (s.local != [] && x !in front && x !in Pending(s))
  {
    var merged := Merge(s.local, s.taken, Queue(s));
    if x in front {
      OvertakenFront(front, merged + Back(s), Pending(s) + Back(s), x, n);
    } else {
      OvertakenConcat(front, merged + Back(s), x, n);
      OvertakenConcat(front, Pending(s) + Back(s), x, n);
      OvertakenConcat(merged, Back(s), x, n);
      OvertakenConcat(Pending(s), Back(s), x, n);
      MergeMembers(s.local, s.taken, Queue(s));
      if x in Pending(s) {
        MergeKeepsAhead(s.local, s.taken, Queue(s), x, n);
      } else {
        SomeLate(s, n);
        OvertakenAbsent(merged, x, n);
        OvertakenAbsent(Pending(s), x, n);
      }
    }
  }

  lemma KeptTakeMerged(s: State, x: Item, n: nat)
    requires Control(s) && Locals(s) && Conserved(s) && Kept(s, x, n) && CanLoop(s, TakeMerged)
    ensures Carries(s, DoTakeMerged(s), x, n, Bypass(s, ByLoop(TakeMerged), x))
  {
    var s' := DoTakeMerged(s);
    OnLineNotLocal(s, x);
    MergedLine(s);
    OvertakenMerge(s.executed, s, x, n);
    MergeMembers(s.local, s.taken, Queue(s));
  }

  lemma MergedLine(s: State)
    requires Control(s) && CanLoop(s, TakeMerged)
    ensures var s' := DoTakeMerged(s);
            && Front(s) == s.executed && Queue(s') == [] && Pending(s') == [] && Back(s') == Back(s)
            && Line(s') == s.executed + (Merge(s.local, s.taken, Queue(s)) + Back(s))
  {
    var merged := Merge(s.local, s.taken, Queue(s));
    assert Front(DoTakeMerged(s)) == s.executed + merged;
    Reassociate(s.executed, merged, Back(s));
  }

  lemma SavedLine(executed: seq<Item>, batch: seq<Item>, merged: seq<Item>, back: seq<Item>)
    ensures executed + ((batch + merged) + back) == (executed + batch) + (merged + back)
  {
    Regroup(executed, batch, merged, back);
  }

  lemma KeptSaved(s: State, s': State, x: Item, n: nat)
    requires Locals(s) && Conserved(s) && Kept(s, x, n) && CanLoop(s, SaveLeftovers)
    requires !(s.batch == [] && s.local == [])
    requires s' == DoSaveLeftovers(s)
    requires var merged := Merge(s.local, s.taken, Queue(s));
             Queue(s') == MarkAll(s.batch + merged, 0) && Line(s') == Front(s) + (merged + Back(s))
    ensures Carries(s, s', x, n, Bypass(s, ByLoop(SaveLeftovers), x))
  {
    var merged := Merge(s.local, s.taken, Queue(s));
    OnLineNotLocal(s, x);
    OvertakenMerge(Front(s), s, x, n);
    MergeMembers(s.local, s.taken, Queue(s));
    ReachedAll(s.batch + merged, 0, x, s'.taken);
  }

  lemma KeptSaveLeftovers(s: State, x: Item, n: nat)
    requires Control(s) && Locals(s) && Conserved(s) && Kept(s, x, n) && CanLoop(s, SaveLeftovers)
    ensures Carries(s, DoSaveLeftovers(s), x, n, Bypass(s, ByLoop(SaveLeftovers), x))
  {
    var s' := DoSaveLeftovers(s);
    if s.batch == [] && s.local == [] {
      assert Line(s') == Line(s);
    } else {
      var merged := Merge(s.local, s.taken, Queue(s));
      SavedLine(s.executed, s.batch, merged, Back(s));
      assert Queue(s') == MarkAll(s.batch + merged, 0);
      assert Pending(s') == s.batch + merged && Front(s') == s.executed && Back(s') == Back(s);
      KeptSaved(s, s', x, n);
    }
  }

  lemma KeptNextEnter(s: State, x: Item, n: nat)
    requires Control(s) && Kept(s, x, n) && CanLoop(s, SendEnter)
    ensures Carries(s, DoSendEnter(s), x, n, false)
  {
    var s' := DoSendEnter(s);
    LineQuiet(s, SendEnter);
    if x in Back(s) {
      KeptSendEnter(s, x);
    }
  }

  lemma KeptSendFinish(s: State, x: Item, n: nat)
    requires Control(s) && Kept(s, x, n) && CanLoop(s, SendFinish)
    ensures Carries(s, Loop(s, SendFinish), x, n, false)
  {
    LineQuiet(s, SendFinish);
    ChannelSend(s.channel, FinishRun(s.run));
    if Carried(s, x) {
      CarriedSend(s, Loop(s, SendFinish), FinishRun(s.run), x);
    }
  }

  lemma KeptQuiet(s: State, e: LoopStep, x: Item, n: nat)
    requires Control(s) && Kept(s, x, n) && CanLoop(s, e)
    requires e.BeginRun? || e.PushLocal? || e.NoteLocal? || e.Execute? || e.EndRun? || e.Retire? || e.ReturnFromRun?
    ensures Carries(s, Loop(s, e), x, n, false)
  {
    var s' := Loop(s, e);
    if !e.PushLocal? {
      LineQuiet(s, e);
    }
    assert Front(s') == Front(s);
  }

  lemma KeptLoop(s: State, e: LoopStep, x: Item, n: nat)
    requires Control(s) && Locals(s) && Conserved(s) && Kept(s, x, n) && CanLoop(s, e)
    ensures Carries(s, Loop(s, e), x, n, Bypass(s, ByLoop(e), x))
  {
    if e.TakeLocal? {
      KeptTakeLocal(s, x, n);
    } else if e.TakeMerged? {
      KeptTakeMerged(s, x, n);
    } else if e.SaveLeftovers? {
      KeptSaveLeftovers(s, x, n);
    } else if e.SendEnter? {
      KeptNextEnter(s, x, n);
    } else if e.SendFinish? {
      KeptSendFinish(s, x, n);
    } else {
      KeptQuiet(s, e, x, n);
    }
  }

  // ----- Whole runs -----

  lemma KeptStep(s: State, e: Step, x: Item, n: nat)
    requires Invariant(s) && Kept(s, x, n) && Enabled(s, e)
    ensures Carries(s, Apply(s, e), x, n, Bypass(s, e, x))
  {
    match e
    case ByProducer(p, call) => KeptCall(s, p, call, x, n);
    case ByDispatcher(move) => KeptDispatcher(s, move, x, n);
    case ByLoop(act) => KeptLoop(s, act, x, n);
  }

  lemma {:induction false} NoneLate(line: seq<Item>, x: Item, n: nat)
    requires forall y :: y in line ==> !Late(y, n)
    ensures !Overtaken(line, x, n)
  {
    if line != [] {
      NoneLate(line[1..], x, n);
    }
  }

  /** When a run begins, no item on the line is as young as its own will be. */
  lemma NoneYet(s: State, x: Item)
    requires Invariant(s) && CanLoop(s, SendEnter)
    ensures !Overtaken(Line(DoSendEnter(s)), x, s.localEnqueues)
  {
    LineQuiet(s, SendEnter);
    forall y | y in Line(s)
      ensures !Late(y, s.localEnqueues)
    {
      assert y in multiset(Line(s)) && y in multiset(s.accepted);
    }
    NoneLate(Line(s), x, s.localEnqueues);
  }

  ghost predicate BypassAt(steps: seq<Step>, i: nat, x: Item) {
    i < |steps| && After(steps[..i]).Some? && Bypass(After(steps[..i]).value, steps[i], x)
  }

  /** A step after step `k` bypassed `x`. */
  ghost predicate Bypassed(steps: seq<Step>, k: nat, x: Item) {
    exists i :: k < i < |steps| && BypassAt(steps, i, x)
  }

  /** Step `k` begins a run, and `x` is queued for it. */
  ghost predicate InBacklog(steps: seq<Step>, k: nat, x: Item) {
    && k < |steps| && steps[k] == ByLoop(SendEnter)
    && After(steps[..k]).Some? && x in Back(After(steps[..k]).value)
  }

  /** For every run of the system, every beginning of a loop run in it and every
      item queued by then: some item the loop thread enqueued since is ahead of
      it, for good, exactly if one of the later steps bypassed it. */
  lemma {:induction false} OvertakenExactly(steps: seq<Step>, k: nat, x: Item)
    requires After(steps).Some? && InBacklog(steps, k, x)
    ensures Exactly(steps, k, x)
    decreases |steps|
  {
    var before := steps[..|steps| - 1];
    EveryRunKeepsInvariant(before);
    if k == |steps| - 1 {
      KeptSendEnter(After(before).value, x);
      NoneYet(After(before).value, x);
    } else {
      assert before[..k] == steps[..k];
      OvertakenExactly(before, k, x);
      OvertakenNext(steps, k, x);
    }
  }

  ghost predicate Exactly(steps: seq<Step>, k: nat, x: Item)
    requires After(steps).Some? && InBacklog(steps, k, x)
  {
    var s, n := After(steps).value, After(steps[..k]).value.localEnqueues;
    Kept(s, x, n) && (Overtaken(Line(s), x, n) <==> Bypassed(steps, k, x))
  }

  lemma OvertakenNext(steps: seq<Step>, k: nat, x: Item)
    requires After(steps).Some? && InBacklog(steps, k, x) && k < |steps| - 1
    requires var before := steps[..|steps| - 1];
             && After(before).Some? && InBacklog(before, k, x) && before[..k] == steps[..k]
             && Exactly(before, k, x) && Invariant(After(before).value)
    ensures Exactly(steps, k, x)
  {
    var before, n := steps[..|steps| - 1], After(steps[..k]).value.localEnqueues;
    KeptStep(After(before).value, steps[|steps| - 1], x, n);
    SameBypasses(steps, k, x);
  }

  lemma SameBypasses(steps: seq<Step>, k: nat, x: Item)
    requires k < |steps| - 1
    ensures Bypassed(steps, k, x) <==> Bypassed(steps[..|steps| - 1], k, x) || BypassAt(steps, |steps| - 1, x)
  {
    var before := steps[..|steps| - 1];
    forall i: nat | i < |before| ensures BypassAt(before, i, x) <==> BypassAt(steps, i, x) {
      assert before[..i] == steps[..i];
    }
    if i :| k < i < |steps| && BypassAt(steps, i, x) && i < |before| {
      assert BypassAt(before, i, x);
    }
    if i :| k < i < |before| && BypassAt(before, i, x) {
      assert BypassAt(steps, i, x);
    }
  }

  /** So the backlog goes ahead of all of the run's own work if and only if the
      loop thread never starts a generation with a nonempty local queue while
      some of it is out of reach: behind the local queue alone until it is
      taken, behind both queues until it is forwarded. */
  lemma BacklogFirstExactly(steps: seq<Step>, k: nat)
    requires After(steps).Some? && k < |steps| && steps[k] == ByLoop(SendEnter) && After(steps[..k]).Some?
    ensures var n := After(steps[..k]).value.localEnqueues;
            (forall x :: InBacklog(steps, k, x) ==> !Overtaken(Line(After(steps).value), x, n)) <==>
            (forall x :: InBacklog(steps, k, x) ==> !Bypassed(steps, k, x))
  {
    forall x | InBacklog(steps, k, x)
      ensures Exactly(steps, k, x)
    {
      OvertakenExactly(steps, k, x);
    }
  }

  // ----- Two runs in which it does not -----

  /** A handle was sent while no loop ran, and nothing else has happened. */
  predicate Sent(s: State) {
    && s.channel == [Schedule(Handle(0, 0, 0))] && s.disp.Polling? && s.activeRun.None? && s.ready == []
    && s.loop.Stopped? && s.localEnqueues == 0 && s.unnoted == 0
    && s.batch == [] && s.local == [] && s.executed == []
  }

  lemma SendsHandle() returns (steps: seq<Step>, s: State)
    ensures After(steps) == Some(s) && Sent(s)
  {
    steps, s := Then([], Init(), ByProducer(0, BeginHandle));
    steps, s := Then(steps, s, ByProducer(0, Probe));
    steps, s := Then(steps, s, ByProducer(0, TryDirect));
    steps, s := SendsReserved(steps, s);
  }

  lemma SendsReserved(steps: seq<Step>, s: State) returns (steps': seq<Step>, s': State)
    requires After(steps) == Some(s) && s == AtProducer(s, 0, Reserving(0)) && s.channel == [] && Calls(s, 0) == 0
    ensures After(steps') == Some(s') && s'.channel == [Schedule(Handle(0, 0, 0))]
    ensures s' == s.(channel := s'.channel, channelHandles := s'.channelHandles, producers := s'.producers,
                     calls := s'.calls, accepted := s'.accepted)
  {
    steps', s' := Then(steps, s, ByProducer(0, Reserve));
    steps', s' := Then(steps', s', ByProducer(0, SendHandle));
  }

  /** A run has begun behind it and queued one item of its own. */
  predicate Begun(s: State) {
    && s.channel == [Schedule(Handle(0, 0, 0)), EnterRun(s.run, 0)]
    && s.disp.Polling? && s.activeRun.None? && s.ready == []
    && s.loop.Running? && s.run in s.queues && s.queues[s.run] == [] && s.taken == 0 && s.unnoted == 0
    && s.batch == [] && s.local == [Local(0)] && s.executed == []
  }

  lemma BeginsBehind() returns (steps: seq<Step>, s: State)
    ensures After(steps) == Some(s) && Begun(s)
  {
    steps, s := SendsHandle();
    steps, s := Then(steps, s, ByLoop(BeginRun));
    steps, s := Then(steps, s, ByLoop(SendEnter));
    steps, s := Then(steps, s, ByLoop(PushLocal));
    steps, s := Then(steps, s, ByLoop(NoteLocal));
  }

  lemma ForwardsHandle(steps: seq<Step>, s: State) returns (steps': seq<Step>, s': State)
    requires After(steps) == Some(s) && s.disp.Polling? && s.ready == [] && s.activeRun.None? && s.run in s.queues
    requires s.channel == [Schedule(Handle(0, 0, 0)), EnterRun(s.run, 0)] && s.queues[s.run] == []
    ensures After(steps') == Some(s') && Queue(s') == [Marked(Handle(0, 0, 0), 0)]
    ensures s'.batch == s.batch && s'.local == s.local && s'.executed == s.executed && s'.taken == s.taken
    ensures s'.loop == s.loop && s'.unnoted == s.unnoted && s'.activeRun == Some(s'.run) && s'.disp.Releasing?
  {
    steps', s' := Then(steps, s, ByDispatcher(ReceiveItem));
    assert s'.channel == [EnterRun(s.run, 0)];
    steps', s' := Then(steps', s', ByDispatcher(ReceiveEnter));
    steps', s' := Then(steps', s', ByDispatcher(Forward));
  }

  /** The run's item is taken before the EnterRun is handled, and runs first. */
  lemma OwnWorkRunsFirst() returns (steps: seq<Step>)
    ensures After(steps).Some? && After(steps).value.executed == [Local(0), Handle(0, 0, 0)]
  {
    var s;
    steps, s := BeginsBehind();
    steps, s := Then(steps, s, ByLoop(TakeLocal));
    steps, s := Then(steps, s, ByLoop(Execute));
    steps, s := ForwardsHandle(steps, s);
    steps, s := Then(steps, s, ByDispatcher(Release));
    steps, s := MergesAndRuns(steps, s);
  }

  lemma MergesAndRuns(steps: seq<Step>, s: State) returns (steps': seq<Step>, s': State)
    requires After(steps) == Some(s) && Queue(s) == [Marked(Handle(0, 0, 0), 0)]
    requires s.loop.Running? && s.unnoted == 0 && s.batch == [] && s.local == []
    ensures After(steps') == Some(s') && s'.executed == s.executed + [Handle(0, 0, 0)]
  {
    MergeNoLocal(s.taken, Queue(s));
    steps', s' := Then(steps, s, ByLoop(TakeMerged));
    assert s'.batch == [Handle(0, 0, 0)];
    steps', s' := Then(steps', s', ByLoop(Execute));
  }

  /** Forwarding the backlog is not enough: the loop thread can still miss the
      flag, which is raised behind the queue lock, and take its own queue
      alone. */
  lemma OwnWorkRunsFirstAfterForward() returns (steps: seq<Step>)
    ensures After(steps).Some?
    ensures var s := After(steps).value;
            s.executed == [Local(0)] && Pending(s) == [Handle(0, 0, 0)] && s.activeRun == Some(s.run)
  {
    var s;
    steps, s := BeginsBehind();
    steps, s := ForwardsHandle(steps, s);
    steps, s := Then(steps, s, ByLoop(TakeLocal));
    steps, s := Then(steps, s, ByLoop(Execute));
  }
}
