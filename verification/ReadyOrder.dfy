/** Order and conservation over every run of the ready-queue protocol. */
module ReadyOrder {
  import opened GenerationMerge
  import opened ReadyProtocol
  import opened ReadyGate
  import opened Sequences
  import opened Wrappers

  // ----- The line of work -----

  function Front(s: State): (items: seq<Item>) {
    s.executed + s.batch
  }

  function Pending(s: State): (items: seq<Item>) {
    Items(Queue(s))
  }

  function Back(s: State): (items: seq<Item>) {
    s.ready + ChannelItems(s.channel)
  }

  /** Everything executed, about to run, queued off-thread, held by the
      dispatcher and on the channel, in this order. */
  function Line(s: State): (items: seq<Item>) {
    Front(s) + (Pending(s) + Back(s))
  }

  lemma LineReceived(s: State, s': State, back: seq<Item>, moved: seq<Item>)
    requires s'.executed == s.executed && s'.batch == s.batch
    requires Pending(s) == Pending(s') + back
    requires s'.ready == back + s.ready + moved
    requires ChannelItems(s.channel) == moved + ChannelItems(s'.channel)
    ensures Line(s') == Line(s)
  {
    Reassociate(back + s.ready, moved, ChannelItems(s'.channel));
    Reassociate(back, s.ready, ChannelItems(s.channel));
    assert Back(s') == back + Back(s);
    Reassociate(Pending(s'), back, Back(s));
  }

  lemma LineForward(s: State)
    requires Control(s) && CanDispatch(s, Forward)
    ensures Line(DoForward(s)) == Line(s)
  {
    var s' := DoForward(s);
    if s.ready != [] {
      assert Pending(s') == Pending(s) + s.ready && Front(s') == Front(s);
      assert Back(s') == ChannelItems(s.channel);
      Reassociate(Pending(s), s.ready, ChannelItems(s.channel));
    }
  }

  lemma LineDispatcher(s: State, e: DispatcherStep)
    requires Control(s) && CanDispatch(s, e)
    ensures var s' := Dispatcher(s, e);
            Line(s') == Line(s) && s'.executed == s.executed && s'.batch == s.batch && s'.local == s.local
  {
    match e
    case ReceiveItem => LineReceived(s, DoReceiveItem(s), [], [s.channel[0].item]);
    case ReceiveEnter => LineReceived(s, DoReceiveEnter(s), [], []);
    case ReceiveFinish =>
      if s.activeRun.Some? {
        assert Pending(DoReceiveFinish(s)) == [];
      }
      LineReceived(s, DoReceiveFinish(s), TakenBack(s), []);
    case DispatchReady =>
    case Forward => LineForward(s);
    case Release =>
    case Activate =>
  }

  lemma LineSend(s: State, s': State, item: Item)
    requires s'.executed == s.executed && s'.batch == s.batch && Queue(s') == Queue(s) && s'.ready == s.ready
    requires s'.channel == s.channel + [Schedule(item)]
    ensures Line(s') == Line(s) + [item]
  {
    ChannelSend(s.channel, Schedule(item));
    assert Back(s') == Back(s) + [item];
  }

  /** The loop-thread steps that leave the line as it is. */
  predicate Quiet(s: State, e: LoopStep) {
    && !e.PushLocal? && !e.TakeLocal? && !e.TakeMerged?
    && (e.SaveLeftovers? ==> s.batch == [] && s.local == [])
  }

  lemma FrontExecuted(executed: seq<Item>, batch: seq<Item>)
    requires batch != []
    ensures (executed + [batch[0]]) + batch[1..] == executed + batch
  {
  }

  lemma LineQuiet(s: State, e: LoopStep)
    requires Control(s) && CanLoop(s, e) && Quiet(s, e)
    ensures var s' := Loop(s, e);
            Line(s') == Line(s) && Front(s') == Front(s) && s'.local == s.local
  {
    if e.SendEnter? {
      ChannelSend(s.channel, EnterRun(s.run, s.localEnqueues));
    } else if e.SendFinish? {
      ChannelSend(s.channel, FinishRun(s.run));
    } else if e.Execute? {
      FrontExecuted(s.executed, s.batch);
    }
  }

  // ----- One producer, one line -----

  /** Along the line, each producer's handles are exactly its completed calls,
      in call order. */
  ghost predicate Fifo(s: State) {
    forall p: nat :: Numbers(p, Line(s)) == Upto(Calls(s, p))
  }

  lemma {:induction false} NumbersNone(p: nat, line: seq<Item>)
    requires forall x :: x in line ==> !(x.Handle? && x.pid == p)
    ensures Numbers(p, line) == []
  {
    if line != [] {
      NumbersNone(p, line[1..]);
    }
  }

  lemma {:induction false} NumbersMerge(p: nat, local: seq<Item>, taken: nat, pending: seq<Marked<Item>>)
    requires forall x :: x in local ==> x.Local?
    ensures Numbers(p, Merge(local, taken, pending)) == Numbers(p, Items(pending))
    decreases |local| + |pending|
  {
    if pending == [] {
      NumbersNone(p, local);
      assert Items(pending) == [];
    } else if local != [] && taken < pending[0].mark {
      NumbersMerge(p, local[1..], taken + 1, pending);
      assert local[0] in local;
      NumbersConcat(p, [local[0]], Merge(local[1..], taken + 1, pending));
    } else {
      NumbersMerge(p, local, taken, pending[1..]);
      assert Items(pending)[1..] == Items(pending[1..]);
    }
  }

  lemma Numbers3(p: nat, a: seq<Item>, b: seq<Item>, c: seq<Item>)
    ensures Numbers(p, a + (b + c)) == Numbers(p, a) + (Numbers(p, b) + Numbers(p, c))
  {
    NumbersConcat(p, a, b + c);
    NumbersConcat(p, b, c);
  }

  lemma FifoFrame(s: State, s': State)
    requires Fifo(s) && s'.calls == s.calls
    requires forall p: nat :: Numbers(p, Line(s')) == Numbers(p, Line(s))
    ensures Fifo(s')
  {
    forall p: nat ensures Numbers(p, Line(s')) == Upto(Calls(s', p)) {
      assert Numbers(p, Line(s)) == Upto(Calls(s, p));
    }
  }

  /** A new handle adds its number to its own producer's, and to no other's. */
  lemma AcceptedNumber(q: nat, item: Item, calls: nat)
    requires item.Handle? && (item.pid == q ==> item.n == calls)
    ensures Upto(calls) + Numbers(q, [item]) == Upto(if item.pid == q then calls + 1 else calls)
  {
    assert Numbers(q, [item]) == (if item.pid == q then [item.n] else []) + Numbers(q, []);
    assert Upto(calls) + [] == Upto(calls);
    UptoNext(calls);
  }

  lemma FifoAccept(s: State, s': State, p: nat, item: Item)
    requires Fifo(s) && item.Handle? && item.pid == p && item.n == Calls(s, p)
    requires s'.calls == s.calls[p := Calls(s, p) + 1]
    requires forall q: nat :: Numbers(q, Line(s')) == Numbers(q, Line(s)) + Numbers(q, [item])
    ensures Fifo(s')
  {
    forall q: nat ensures Numbers(q, Line(s')) == Upto(Calls(s', q)) {
      assert Numbers(q, Line(s)) == Upto(Calls(s, q));
      AcceptedNumber(q, item, Calls(s, q));
      CallsAfter(s, s', p, q);
    }
  }

  lemma CallsAfter(s: State, s': State, p: nat, q: nat)
    requires s'.calls == s.calls[p := Calls(s, p) + 1]
    ensures Calls(s', q) == if p == q then Calls(s, q) + 1 else Calls(s, q)
  {
  }

  lemma FifoUnnumbered(s: State, s': State, item: Item)
    requires Fifo(s) && s'.calls == s.calls && !item.Handle?
    requires forall q: nat :: Numbers(q, Line(s')) == Numbers(q, Line(s)) + Numbers(q, [item])
    ensures Fifo(s')
  {
    forall q: nat ensures Numbers(q, Line(s')) == Numbers(q, Line(s)) {
      NumbersNone(q, [item]);
    }
    FifoFrame(s, s');
  }

  lemma NumbersSend(s: State, s': State, item: Item)
    requires Line(s') == Line(s) + [item]
    ensures forall q: nat :: Numbers(q, Line(s')) == Numbers(q, Line(s)) + Numbers(q, [item])
  {
    forall q: nat ensures Numbers(q, Line(s')) == Numbers(q, Line(s)) + Numbers(q, [item]) {
      NumbersConcat(q, Line(s), [item]);
    }
  }

  /** A direct push is last of its producer's items because nothing of that
      producer is behind it: that is what the gate is for. */
  lemma NumbersPush(s: State, s': State, item: Item)
    requires Front(s') == Front(s) && Back(s') == Back(s) && Pending(s') == Pending(s) + [item]
    requires item.Handle? ==> Numbers(item.pid, Back(s)) == []
    ensures forall q: nat :: Numbers(q, Line(s')) == Numbers(q, Line(s)) + Numbers(q, [item])
  {
    forall q: nat ensures Numbers(q, Line(s')) == Numbers(q, Line(s)) + Numbers(q, [item]) {
      Numbers3(q, Front(s), Pending(s), Back(s));
      Numbers3(q, Front(s'), Pending(s'), Back(s'));
      NumbersConcat(q, Pending(s), [item]);
      assert Numbers(q, [item]) == [] || Numbers(q, Back(s)) == [];
    }
  }

  lemma PushedPending(s: State, item: Item)
    requires Control(s) && Accepting(s)
    ensures Pending(PushActive(s, item)) == Pending(s) + [item]
    ensures s.run in s.queues && Queue(PushActive(s, item)) == Queue(s) + [Marked(item, s.localEnqueues)]
  {
  }

  lemma BackIsArriving(s: State)
    requires Control(s) && Gate(s) && Accepting(s)
    ensures Back(s) == Arriving(s)
  {
  }

  lemma FifoPushed(s: State, s': State, p: nat, item: Item)
    requires Fifo(s) && item.Handle? && item.pid == p && item.n == Calls(s, p)
    requires s'.calls == s.calls[p := Calls(s, p) + 1]
    requires Front(s') == Front(s) && Back(s') == Back(s) && Pending(s') == Pending(s) + [item]
    requires Numbers(p, Back(s)) == []
    ensures Fifo(s')
  {
    NumbersPush(s, s', item);
    FifoAccept(s, s', p, item);
  }

  lemma FifoTryDirect(s: State, p: nat)
    requires Gated(s) && Fifo(s) && CanCall(s, p, TryDirect)
    ensures Fifo(DoTryDirect(s, p))
  {
    var s' := DoTryDirect(s, p);
    if Accepting(s) {
      PushedPending(s, OwnHandle(s, p));
      BackIsArriving(s);
      FifoPushed(s, s', p, OwnHandle(s, p));
    } else {
      FifoFrame(s, s');
    }
  }

  lemma FifoTryOther(s: State, p: nat)
    requires Control(s) && Fifo(s) && CanCall(s, p, TryOther)
    ensures Fifo(DoTryOther(s, p))
  {
    var s' := DoTryOther(s, p);
    if Accepting(s) {
      PushedPending(s, OwnOther(s, p));
      NumbersPush(s, s', OwnOther(s, p));
      FifoUnnumbered(s, s', OwnOther(s, p));
    } else {
      FifoFrame(s, s');
    }
  }

  lemma FifoCall(s: State, p: nat, e: CallStep)
    requires Gated(s) && Fifo(s) && CanCall(s, p, e)
    ensures Fifo(Call(s, p, e))
  {
    match e
    case TryDirect => FifoTryDirect(s, p);
    case TryOther => FifoTryOther(s, p);
    case SendHandle =>
      var s' := DoSendHandle(s, p);
      LineSend(s, s', OwnHandle(s, p));
      NumbersSend(s, s', OwnHandle(s, p));
      FifoAccept(s, s', p, OwnHandle(s, p));
    case SendOther =>
      var s' := DoSendOther(s, p);
      LineSend(s, s', OwnOther(s, p));
      NumbersSend(s, s', OwnOther(s, p));
      FifoUnnumbered(s, s', OwnOther(s, p));
    case BeginHandle => FifoFrame(s, AtProducer(s, p, Probing(s.localEnqueues)));
    case Probe => FifoFrame(s, DoProbe(s, p));
    case Reserve => FifoFrame(s, DoReserve(s, p));
    case BeginOther => FifoFrame(s, AtProducer(s, p, OtherDirect(s.localEnqueues)));
  }

  /** Starting a generation, or saving the leftovers, rearranges the front
      and the queue but shows each producer the same numbers. */
  lemma FifoRearranged(s: State, s': State)
    requires Fifo(s) && s'.calls == s.calls && Back(s') == Back(s)
    requires forall q: nat :: Numbers(q, Front(s')) + Numbers(q, Pending(s'))
                           == Numbers(q, Front(s)) + Numbers(q, Pending(s))
    ensures Fifo(s')
  {
    forall q: nat ensures Numbers(q, Line(s')) == Numbers(q, Line(s)) {
      Numbers3(q, Front(s), Pending(s), Back(s));
      Numbers3(q, Front(s'), Pending(s'), Back(s'));
      Reassociate(Numbers(q, Front(s)), Numbers(q, Pending(s)), Numbers(q, Back(s)));
      Reassociate(Numbers(q, Front(s')), Numbers(q, Pending(s')), Numbers(q, Back(s')));
    }
    FifoFrame(s, s');
  }

  lemma FifoTakeLocal(s: State)
    requires Fifo(s) && CanLoop(s, TakeLocal) && forall x :: x in s.local ==> x.Local?
    ensures Fifo(DoTakeLocal(s))
  {
    var s' := DoTakeLocal(s);
    forall q: nat ensures Numbers(q, Front(s')) == Numbers(q, Front(s)) {
      NumbersConcat(q, s.executed, s.local);
      NumbersNone(q, s.local);
      assert Front(s) == s.executed;
    }
    FifoRearranged(s, s');
  }

  lemma NumbersTaken(q: nat, executed: seq<Item>, batch: seq<Item>)
    ensures Numbers(q, executed + batch) + Numbers(q, []) == Numbers(q, executed) + Numbers(q, batch)
  {
    NumbersConcat(q, executed, batch);
  }

  lemma FifoTakeMerged(s: State)
    requires Fifo(s) && CanLoop(s, TakeMerged) && forall x :: x in s.local ==> x.Local?
    ensures Fifo(DoTakeMerged(s))
  {
    var s' := DoTakeMerged(s);
    assert Pending(s') == [] && Front(s) == s.executed;
    forall q: nat
      ensures Numbers(q, Front(s')) + Numbers(q, Pending(s')) == Numbers(q, Front(s)) + Numbers(q, Pending(s))
    {
      NumbersTaken(q, s.executed, s'.batch);
      NumbersMerge(q, s.local, s.taken, Queue(s));
    }
    FifoRearranged(s, s');
  }

  lemma NumbersLeftovers(q: nat, executed: seq<Item>, batch: seq<Item>, merged: seq<Item>)
    ensures Numbers(q, executed) + Numbers(q, batch + merged) == Numbers(q, executed + batch) + Numbers(q, merged)
  {
    NumbersConcat(q, executed, batch);
    NumbersConcat(q, batch, merged);
    Reassociate(Numbers(q, executed), Numbers(q, batch), Numbers(q, merged));
  }

  lemma FifoSaveLeftovers(s: State)
    requires Fifo(s) && CanLoop(s, SaveLeftovers) && forall x :: x in s.local ==> x.Local?
    ensures Fifo(DoSaveLeftovers(s))
  {
    var s' := DoSaveLeftovers(s);
    if s.batch != [] || s.local != [] {
      var merged := Merge(s.local, s.taken, Queue(s));
      assert Pending(s') == s.batch + merged && Front(s') == s.executed;
      forall q: nat
        ensures Numbers(q, Front(s')) + Numbers(q, Pending(s')) == Numbers(q, Front(s)) + Numbers(q, Pending(s))
      {
        NumbersMerge(q, s.local, s.taken, Queue(s));
        NumbersLeftovers(q, s.executed, s.batch, merged);
      }
      FifoRearranged(s, s');
    } else {
      FifoFrame(s, s');
    }
  }

  lemma FifoLoop(s: State, e: LoopStep)
    requires Control(s) && Fifo(s) && CanLoop(s, e) && forall x :: x in s.local ==> x.Local?
    ensures Fifo(Loop(s, e))
  {
    if e.TakeLocal? {
      FifoTakeLocal(s);
    } else if e.TakeMerged? {
      FifoTakeMerged(s);
    } else if e.SaveLeftovers? {
      FifoSaveLeftovers(s);
    } else {
      if !e.PushLocal? {
        LineQuiet(s, e);
      }
      FifoFrame(s, Loop(s, e));
    }
  }

  // ----- No overtaking of earlier loop-thread work -----

  predicate Off(x: Item) {
    !x.Local?
  }

  /** No loop-thread item of `b` was enqueued before an off-thread call whose
      item is in `a` began. */
  ghost predicate Clear(a: seq<Item>, b: seq<Item>) {
    forall x, y :: x in a && y in b && Off(x) && y.Local? ==> x.birth <= y.n
  }

  /** Along `line`, no loop-thread item comes behind an off-thread item whose
      call began after it was enqueued. */
  ghost predicate NoOvertake(line: seq<Item>) {
    line == [] || (Clear([line[0]], line[1..]) && NoOvertake(line[1..]))
  }

  lemma {:induction false} NoOvertakeConcat(a: seq<Item>, b: seq<Item>)
    ensures NoOvertake(a + b) <==> NoOvertake(a) && NoOvertake(b) && Clear(a, b)
  {
    if a == [] {
      assert a + b == b;
    } else {
      NoOvertakeConcat(a[1..], b);
      assert (a + b)[1..] == a[1..] + b;
      ClearFirst(a, b);
    }
  }

  lemma ClearFirst(a: seq<Item>, b: seq<Item>)
    requires a != []
    ensures Clear([a[0]], a[1..] + b) <==> Clear([a[0]], a[1..]) && Clear([a[0]], b)
    ensures Clear(a, b) <==> Clear([a[0]], b) && Clear(a[1..], b)
  {
    assert a == [a[0]] + a[1..];
  }

  ghost predicate Numbered(local: seq<Item>, taken: nat) {
    forall i :: 0 <= i < |local| ==> local[i] == Local(taken + i)
  }

  /** Every off-thread item is queued with a mark that covers its birth. */
  ghost predicate Stamped(queue: seq<Marked<Item>>) {
    forall k :: 0 <= k < |queue| ==> Off(queue[k].item) ==> queue[k].item.birth <= queue[k].mark
  }

  lemma {:induction false} MergeMembers(local: seq<Item>, taken: nat, pending: seq<Marked<Item>>)
    ensures forall x :: x in Merge(local, taken, pending) <==> x in local || x in Items(pending)
    decreases |local| + |pending|
  {
    if pending == [] {
    } else if local != [] && taken < pending[0].mark {
      MergeMembers(local[1..], taken + 1, pending);
      assert local == [local[0]] + local[1..];
    } else {
      MergeMembers(local, taken, pending[1..]);
      assert Items(pending) == [pending[0].item] + Items(pending[1..]);
    }
  }

  lemma MergeFirstClear(local: seq<Item>, taken: nat, pending: seq<Marked<Item>>)
    requires pending != [] && Numbered(local, taken) && Stamped(pending) && NoOvertake(Items(pending))
    requires local == [] || pending[0].mark <= taken
    ensures Clear([pending[0].item], Merge(local, taken, pending[1..]))
    ensures NoOvertake(Items(pending[1..]))
  {
    var first, rest := pending[0].item, pending[1..];
    assert Items(pending)[1..] == Items(rest);
    MergeMembers(local, taken, rest);
    forall y | y in Merge(local, taken, rest) && Off(first) && y.Local? ensures first.birth <= y.n {
      if y in local {
        var i :| 0 <= i < |local| && local[i] == y;
      } else {
        assert Clear([Items(pending)[0]], Items(pending)[1..]);
      }
    }
  }

  /** A generation merged by the marks lets no off-thread item overtake. */
  lemma {:induction false} MergeNoOvertake(local: seq<Item>, taken: nat, pending: seq<Marked<Item>>)
    requires Numbered(local, taken) && Stamped(pending) && NoOvertake(Items(pending))
    ensures NoOvertake(Merge(local, taken, pending))
    decreases |local| + |pending|
  {
    if pending == [] {
      LocalsClear(local);
    } else if local != [] && taken < pending[0].mark {
      MergeNoOvertake(local[1..], taken + 1, pending);
      assert Merge(local, taken, pending)[1..] == Merge(local[1..], taken + 1, pending);
      assert local[0].Local?;
    } else {
      MergeFirstClear(local, taken, pending);
      MergeNoOvertake(local, taken, pending[1..]);
      assert Merge(local, taken, pending)[1..] == Merge(local, taken, pending[1..]);
    }
  }

  lemma {:induction false} LocalsClear(items: seq<Item>)
    requires forall x :: x in items ==> x.Local?
    ensures NoOvertake(items)
  {
    if items != [] {
      assert items[0] in items;
      LocalsClear(items[1..]);
    }
  }

  lemma NoOvertake3(a: seq<Item>, b: seq<Item>, c: seq<Item>)
    ensures NoOvertake(a + (b + c)) <==>
            NoOvertake(a) && NoOvertake(b) && NoOvertake(c) && Clear(a, b) && Clear(a, c) && Clear(b, c)
  {
    NoOvertakeConcat(a, b + c);
    NoOvertakeConcat(b, c);
    assert Clear(a, b + c) <==> Clear(a, b) && Clear(a, c) by {
      assert forall y :: y in b + c <==> y in b || y in c;
    }
  }

  ghost predicate Ordered(s: State) {
    NoOvertake(Line(s)) && Clear(Front(s), s.local)
  }

  /** The loop thread's own queue holds consecutive enqueues. */
  ghost predicate Locals(s: State) {
    && Numbered(s.local, s.taken)
    && (s.loop.Running? || s.loop.Ending? ==> s.taken + |s.local| == s.localEnqueues + s.unnoted)
    && (!s.loop.Running? ==> s.unnoted == 0)
    && (!s.loop.Running? && !s.loop.Ending? ==> s.local == [] && s.batch == [])
  }

  /** No call began after more enqueues than have been counted. */
  ghost predicate Born(s: State) {
    && (forall x :: x in Line(s) && Off(x) ==> x.birth <= s.localEnqueues)
    && (forall p :: !Pc(s, p).Idle? ==> Pc(s, p).birth <= s.localEnqueues)
  }

  /** The items that are ahead of the first EnterRun on the channel. */
  function BeforeEnter(channel: seq<Command>): (items: seq<Item>) {
    if channel == [] || channel[0].EnterRun? then []
    else (if channel[0].Schedule? then [channel[0].item] else []) + BeforeEnter(channel[1..])
  }

  ghost predicate BornBy(items: seq<Item>, mark: nat) {
    forall x :: x in items && Off(x) ==> x.birth <= mark
  }

  /** Whatever mark an item gets in the queue covers its birth. */
  ghost predicate Stamps(s: State) {
    && (s.loop.Opening? || s.loop.Running? || s.loop.Ending? ==> Stamped(Queue(s)))
    && (s.disp.Forwarding? ==> BornBy(s.ready, s.disp.mark))
    && (AwaitsEnter(s) ==> BornBy(s.ready + BeforeEnter(s.channel), Controls(s.channel)[0].mark))
  }

  lemma LocalsLoop(s: State, e: LoopStep)
    requires Locals(s) && CanLoop(s, e)
    ensures Locals(Loop(s, e))
  {
  }

  // ----- Births -----

  lemma LineMembers(s: State)
    ensures forall x :: x in Line(s) <==> x in Front(s) || x in Pending(s) || x in Back(s)
  {
  }

  lemma BornAccepted(s: State, s': State, p: nat, item: Item)
    requires Born(s) && Off(item) && item.birth <= s.localEnqueues && s'.localEnqueues == s.localEnqueues
    requires forall x :: x in Line(s') ==> x in Line(s) || x == item
    requires s'.producers == s.producers[p := Idle]
    ensures Born(s')
  {
    forall q | !Pc(s', q).Idle? ensures Pc(s', q).birth <= s.localEnqueues {
      assert !Pc(s, q).Idle?;
    }
  }

  lemma BornMoved(s: State, s': State, p: nat)
    requires Born(s) && s'.localEnqueues == s.localEnqueues && Line(s') == Line(s)
    requires s'.producers == s.producers[p := Pc(s', p)]
    requires !Pc(s', p).Idle? ==> Pc(s', p).birth <= s.localEnqueues
    ensures Born(s')
  {
    forall q | !Pc(s', q).Idle? ensures Pc(s', q).birth <= s.localEnqueues {
      assert q != p ==> !Pc(s, q).Idle?;
    }
  }

  lemma PushedLine(s: State, s': State, item: Item)
    requires Front(s') == Front(s) && Back(s') == Back(s) && Pending(s') == Pending(s) + [item]
    ensures forall x :: x in Line(s') ==> x in Line(s) || x == item
  {
    LineMembers(s);
    LineMembers(s');
  }

  lemma BornCall(s: State, p: nat, e: CallStep)
    requires Control(s) && Born(s) && CanCall(s, p, e)
    ensures Born(Call(s, p, e))
  {
    var s' := Call(s, p, e);
    if e.SendHandle? {
      LineSend(s, s', OwnHandle(s, p));
      BornAccepted(s, s', p, OwnHandle(s, p));
    } else if e.SendOther? {
      LineSend(s, s', OwnOther(s, p));
      BornAccepted(s, s', p, OwnOther(s, p));
    } else if e.TryDirect? && Accepting(s) {
      PushedPending(s, OwnHandle(s, p));
      PushedLine(s, s', OwnHandle(s, p));
      BornAccepted(s, s', p, OwnHandle(s, p));
    } else if e.TryOther? && Accepting(s) {
      PushedPending(s, OwnOther(s, p));
      PushedLine(s, s', OwnOther(s, p));
      BornAccepted(s, s', p, OwnOther(s, p));
    } else {
      BornMoved(s, s', p);
    }
  }

  lemma BornKept(s: State, s': State)
    requires Born(s) && s.localEnqueues <= s'.localEnqueues && s'.producers == s.producers
    requires forall x :: x in Line(s') && Off(x) ==> x in Line(s)
    ensures Born(s')
  {
    forall p | !Pc(s', p).Idle? ensures Pc(s', p).birth <= s'.localEnqueues {
      assert !Pc(s, p).Idle?;
    }
  }

  lemma BornLoop(s: State, e: LoopStep)
    requires Control(s) && Locals(s) && Born(s) && CanLoop(s, e)
    ensures Born(Loop(s, e))
  {
    var s' := Loop(s, e);
    if Quiet(s, e) {
      LineQuiet(s, e);
    } else {
      LineMembers(s);
      LineMembers(s');
      MergeMembers(s.local, s.taken, Queue(s));
    }
    BornKept(s, s');
  }

  // ----- Stamps -----

  lemma {:induction false} BeforeEnterSend(channel: seq<Command>, c: Command)
    requires Controls(channel) != [] && Controls(channel)[0].EnterRun?
    ensures BeforeEnter(channel + [c]) == BeforeEnter(channel)
  {
    if !channel[0].EnterRun? {
      assert channel[0].Schedule?;
      BeforeEnterSend(channel[1..], c);
      assert (channel + [c])[1..] == channel[1..] + [c];
    }
  }

  lemma {:induction false} BeforeEnterNone(channel: seq<Command>)
    requires Controls(channel) == []
    ensures forall c: Command :: c.EnterRun? ==> BeforeEnter(channel + [c]) == ChannelItems(channel)
  {
    if channel != [] {
      BeforeEnterNone(channel[1..]);
      forall c: Command | c.EnterRun? ensures BeforeEnter(channel + [c]) == ChannelItems(channel) {
        assert (channel + [c])[1..] == channel[1..] + [c];
      }
    }
  }

  lemma StampsSend(s: State, s': State, c: Command)
    requires Stamps(s) && s'.channel == s.channel + [c]
    requires s'.loop.Opening? || s'.loop.Running? || s'.loop.Ending? ==> s'.loop == s.loop && Queue(s') == Queue(s)
    requires s'.ready == s.ready && s'.disp == s.disp && s'.run == s.run
    requires Controls(s.channel) != [] || !c.EnterRun?
    ensures Stamps(s')
  {
    ChannelSend(s.channel, c);
    if AwaitsEnter(s') {
      assert AwaitsEnter(s);
      BeforeEnterSend(s.channel, c);
    }
  }

  lemma StampsPush(s: State, s': State, item: Item)
    requires Stamps(s) && Off(item) && item.birth <= s.localEnqueues
    requires Queue(s') == Queue(s) + [Marked(item, s.localEnqueues)]
    requires s'.loop == s.loop && s'.ready == s.ready && s'.disp == s.disp && s'.channel == s.channel && s'.run == s.run
    ensures Stamps(s')
  {
  }

  lemma StampsCall(s: State, p: nat, e: CallStep)
    requires Control(s) && Born(s) && Stamps(s) && CanCall(s, p, e)
    ensures Stamps(Call(s, p, e))
  {
    match e
    case TryDirect =>
      if Accepting(s) {
        PushedPending(s, OwnHandle(s, p));
        StampsPush(s, DoTryDirect(s, p), OwnHandle(s, p));
      }
    case TryOther =>
      if Accepting(s) {
        PushedPending(s, OwnOther(s, p));
        StampsPush(s, DoTryOther(s, p), OwnOther(s, p));
      }
    case SendHandle => StampsSend(s, DoSendHandle(s, p), Schedule(OwnHandle(s, p)));
    case SendOther => StampsSend(s, DoSendOther(s, p), Schedule(OwnOther(s, p)));
    case BeginHandle =>
    case Probe =>
    case Reserve =>
    case BeginOther =>
  }

  lemma StampsForward(s: State)
    requires Control(s) && Stamps(s) && CanDispatch(s, Forward)
    ensures Stamps(DoForward(s))
  {
    var s' := DoForward(s);
    if s.ready != [] {
      assert Queue(s') == Queue(s) + MarkAll(s.ready, s.disp.mark);
      assert forall i :: 0 <= i < |s.ready| ==> s.ready[i] in s.ready;
    }
  }

  lemma StampsDispatcher(s: State, e: DispatcherStep)
    requires Control(s) && Born(s) && Stamps(s) && CanDispatch(s, e)
    ensures Stamps(Dispatcher(s, e))
  {
    match e
    case ReceiveItem =>
      var s' := DoReceiveItem(s);
      assert s.ready + BeforeEnter(s.channel) == s'.ready + BeforeEnter(s'.channel);
    case ReceiveEnter =>
      ControlsReceive(s.channel);
      ControlDispatcher(s, ReceiveEnter);
    case ReceiveFinish =>
      ControlsReceive(s.channel);
      ControlDispatcher(s, ReceiveFinish);
    case DispatchReady => LineMembers(s);
    case Forward => StampsForward(s);
    case Release =>
    case Activate =>
  }

  lemma StampsSendEnter(s: State)
    requires Control(s) && Born(s) && Stamps(s) && CanLoop(s, SendEnter)
    ensures Stamps(DoSendEnter(s))
  {
    ChannelSend(s.channel, EnterRun(s.run, s.localEnqueues));
    BeforeEnterNone(s.channel);
    LineMembers(s);
  }

  lemma StampsLoop(s: State, e: LoopStep)
    requires Control(s) && Born(s) && Stamps(s) && CanLoop(s, e)
    ensures Stamps(Loop(s, e))
  {
    if e.SendEnter? {
      StampsSendEnter(s);
    } else if e.SendFinish? {
      StampsSend(s, Loop(s, e), FinishRun(s.run));
    }
  }

  // ----- The order is kept -----

  lemma OrderedSend(s: State, s': State, item: Item)
    requires Ordered(s) && Off(item) && Line(s') == Line(s) + [item]
    requires Front(s') == Front(s) && s'.local == s.local
    ensures Ordered(s')
  {
    NoOvertakeConcat(Line(s), [item]);
    assert NoOvertake([item][1..]);
  }

  /** A direct push lands ahead of what the dispatcher holds; none of that is
      loop-thread work. */
  lemma OrderedPush(s: State, s': State, item: Item)
    requires Ordered(s) && Off(item) && forall x :: x in Back(s) ==> Off(x)
    requires Front(s') == Front(s) && Back(s') == Back(s) && Pending(s') == Pending(s) + [item] && s'.local == s.local
    ensures Ordered(s')
  {
    NoOvertake3(Front(s), Pending(s), Back(s));
    NoOvertakeConcat(Pending(s), [item]);
    assert NoOvertake([item][1..]);
    NoOvertake3(Front(s), Pending(s'), Back(s));
  }

  lemma OrderedCall(s: State, p: nat, e: CallStep)
    requires Control(s) && Gate(s) && Ordered(s) && CanCall(s, p, e)
    ensures Ordered(Call(s, p, e))
  {
    var s' := Call(s, p, e);
    if e.SendHandle? {
      LineSend(s, s', OwnHandle(s, p));
      OrderedSend(s, s', OwnHandle(s, p));
    } else if e.SendOther? {
      LineSend(s, s', OwnOther(s, p));
      OrderedSend(s, s', OwnOther(s, p));
    } else if e.TryDirect? && Accepting(s) {
      BackIsArriving(s);
      PushedPending(s, OwnHandle(s, p));
      OrderedPush(s, s', OwnHandle(s, p));
    } else if e.TryOther? && Accepting(s) {
      BackIsArriving(s);
      PushedPending(s, OwnOther(s, p));
      OrderedPush(s, s', OwnOther(s, p));
    }
  }

  lemma OrderedPushLocal(s: State)
    requires Ordered(s) && Born(s) && CanLoop(s, PushLocal)
    ensures Ordered(DoPushLocal(s))
  {
    LineMembers(s);
  }

  lemma OrderedTakeLocal(s: State)
    requires Ordered(s) && Locals(s) && CanLoop(s, TakeLocal)
    ensures Ordered(DoTakeLocal(s))
  {
    var s' := DoTakeLocal(s);
    assert Front(s) == s.executed;
    NoOvertake3(s.executed, Pending(s), Back(s));
    LocalsClear(s.local);
    NoOvertakeConcat(s.executed, s.local);
    NoOvertake3(Front(s'), Pending(s'), Back(s'));
  }

  lemma OrderedTakeMerged(s: State)
    requires Ordered(s) && Locals(s) && Stamps(s) && CanLoop(s, TakeMerged)
    ensures Ordered(DoTakeMerged(s))
  {
    var s', merged := DoTakeMerged(s), Merge(s.local, s.taken, Queue(s));
    assert Front(s) == s.executed && Pending(s') == [];
    NoOvertake3(s.executed, Pending(s), Back(s));
    MergeNoOvertake(s.local, s.taken, Queue(s));
    MergeMembers(s.local, s.taken, Queue(s));
    NoOvertakeConcat(s.executed, merged);
    ClearMerged(merged, s.local, Pending(s), Back(s));
    NoOvertake3(Front(s'), [], Back(s));
  }

  lemma ClearMerged(merged: seq<Item>, local: seq<Item>, pending: seq<Item>, back: seq<Item>)
    requires forall x :: x in merged <==> x in local || x in pending
    requires (forall x :: x in local ==> x.Local?) && Clear(pending, back)
    ensures Clear(merged, back)
  {
  }

  lemma OrderedSaveLeftovers(s: State)
    requires Ordered(s) && Locals(s) && Stamps(s) && CanLoop(s, SaveLeftovers)
    ensures Ordered(DoSaveLeftovers(s))
  {
    var s' := DoSaveLeftovers(s);
    if s.batch != [] || s.local != [] {
      var merged := Merge(s.local, s.taken, Queue(s));
      assert Front(s') == s.executed && Pending(s') == s.batch + merged;
      NoOvertake3(Front(s), Pending(s), Back(s));
      NoOvertakeConcat(s.executed, s.batch);
      MergeNoOvertake(s.local, s.taken, Queue(s));
      MergeMembers(s.local, s.taken, Queue(s));
      LeftoversOrdered(s.executed, s.batch, merged, s.local, Pending(s), Back(s));
    }
  }

  lemma LeftoversOrdered(executed: seq<Item>, batch: seq<Item>, merged: seq<Item>, local: seq<Item>,
                         pending: seq<Item>, back: seq<Item>)
    requires NoOvertake(executed) && NoOvertake(batch) && NoOvertake(merged) && NoOvertake(back)
    requires Clear(executed, batch)
    requires Clear(executed + batch, pending) && Clear(executed + batch, back) && Clear(pending, back)
    requires Clear(executed + batch, local) && forall x :: x in local ==> x.Local?
    requires forall x :: x in merged <==> x in local || x in pending
    ensures NoOvertake(executed + (batch + merged + back))
  {
    ClearMerged(merged, local, pending, back);
    NoOvertakeConcat(batch, merged);
    NoOvertake3(executed, batch + merged, back);
  }

  lemma OrderedLoop(s: State, e: LoopStep)
    requires Control(s) && Locals(s) && Born(s) && Stamps(s) && Ordered(s) && CanLoop(s, e)
    ensures Ordered(Loop(s, e))
  {
    if e.PushLocal? {
      OrderedPushLocal(s);
    } else if e.TakeLocal? {
      OrderedTakeLocal(s);
    } else if e.TakeMerged? {
      OrderedTakeMerged(s);
    } else if e.SaveLeftovers? {
      OrderedSaveLeftovers(s);
    } else {
      LineQuiet(s, e);
    }
  }

  // ----- Conservation -----

  /** Every accepted item is at exactly one place. */
  ghost predicate Conserved(s: State) {
    multiset(Line(s)) + multiset(s.local) == multiset(s.accepted)
  }

  /** Accepted items are numbered below the counters, and every loop-thread
      enqueue is accepted. */
  ghost predicate Known(s: State) {
    && (forall x :: x in s.accepted ==>
          match x
          case Local(n) => n < s.localEnqueues + s.unnoted
          case Handle(p, n, _) => n < Calls(s, p)
          case Other(id, _) => id < s.others)
    && (forall n: nat :: n < s.localEnqueues + s.unnoted ==> Local(n) in s.accepted)
  }

  lemma ConservedAccept(s: State, s': State, item: Item)
    requires Conserved(s) && item !in s.accepted && s'.accepted == s.accepted + {item}
    requires multiset(Line(s')) + multiset(s'.local) == multiset(Line(s)) + multiset(s.local) + multiset{item}
    ensures Conserved(s')
  {
  }

  lemma PushConserves(s: State, s': State, item: Item)
    requires Front(s') == Front(s) && Back(s') == Back(s) && Pending(s') == Pending(s) + [item]
    ensures multiset(Line(s')) == multiset(Line(s)) + multiset{item}
  {
  }

  lemma ConservedSend(s: State, s': State, item: Item)
    requires Conserved(s) && item !in s.accepted && s'.accepted == s.accepted + {item}
    requires Line(s') == Line(s) + [item] && s'.local == s.local
    ensures Conserved(s')
  {
    ConservedAccept(s, s', item);
  }

  lemma ConservedPush(s: State, s': State, item: Item)
    requires Conserved(s) && item !in s.accepted && s'.accepted == s.accepted + {item}
    requires Front(s') == Front(s) && Back(s') == Back(s) && Pending(s') == Pending(s) + [item] && s'.local == s.local
    ensures Conserved(s')
  {
    PushConserves(s, s', item);
    ConservedAccept(s, s', item);
  }

  lemma ConservedFrame(s: State, s': State)
    requires Conserved(s) && s'.accepted == s.accepted && Line(s') == Line(s) && s'.local == s.local
    ensures Conserved(s')
  {
  }

  lemma ConservedCall(s: State, p: nat, e: CallStep)
    requires Control(s) && Known(s) && Conserved(s) && CanCall(s, p, e)
    ensures Conserved(Call(s, p, e))
  {
    var s' := Call(s, p, e);
    if e.SendHandle? {
      LineSend(s, s', OwnHandle(s, p));
      ConservedSend(s, s', OwnHandle(s, p));
    } else if e.SendOther? {
      LineSend(s, s', OwnOther(s, p));
      ConservedSend(s, s', OwnOther(s, p));
    } else if e.TryDirect? && Accepting(s) {
      PushedPending(s, OwnHandle(s, p));
      ConservedPush(s, s', OwnHandle(s, p));
    } else if e.TryOther? && Accepting(s) {
      PushedPending(s, OwnOther(s, p));
      ConservedPush(s, s', OwnOther(s, p));
    } else {
      ConservedFrame(s, s');
    }
  }

  lemma ConservedTakeMerged(s: State)
    requires Conserved(s) && CanLoop(s, TakeMerged)
    ensures Conserved(DoTakeMerged(s))
  {
    MergeConserves(s.local, s.taken, Queue(s));
    assert Pending(DoTakeMerged(s)) == [];
  }

  lemma ConservedSaveLeftovers(s: State)
    requires Conserved(s) && CanLoop(s, SaveLeftovers)
    ensures Conserved(DoSaveLeftovers(s))
  {
    if s.batch != [] || s.local != [] {
      MergeConserves(s.local, s.taken, Queue(s));
      assert Pending(DoSaveLeftovers(s)) == s.batch + Merge(s.local, s.taken, Queue(s));
    }
  }

  lemma ConservedPushLocal(s: State)
    requires Known(s) && Conserved(s)
    ensures Conserved(DoPushLocal(s))
  {
    ConservedAccept(s, DoPushLocal(s), Local(s.localEnqueues + s.unnoted));
  }

  lemma ConservedTakeLocal(s: State)
    requires Conserved(s) && CanLoop(s, TakeLocal)
    ensures Conserved(DoTakeLocal(s))
  {
    assert Front(DoTakeLocal(s)) == Front(s) + s.local;
  }

  lemma ConservedQuiet(s: State, e: LoopStep)
    requires Control(s) && Conserved(s) && CanLoop(s, e) && Quiet(s, e)
    ensures Conserved(Loop(s, e))
  {
    LineQuiet(s, e);
    ConservedFrame(s, Loop(s, e));
  }

  lemma ConservedLoop(s: State, e: LoopStep)
    requires Control(s) && Known(s) && Conserved(s) && CanLoop(s, e)
    ensures Conserved(Loop(s, e))
  {
    if e.PushLocal? {
      ConservedPushLocal(s);
    } else if e.TakeLocal? {
      ConservedTakeLocal(s);
    } else if e.TakeMerged? {
      ConservedTakeMerged(s);
    } else if e.SaveLeftovers? {
      ConservedSaveLeftovers(s);
    } else {
      ConservedQuiet(s, e);
    }
  }

  lemma KnownCall(s: State, p: nat, e: CallStep)
    requires Known(s) && CanCall(s, p, e)
    ensures Known(Call(s, p, e))
  {
  }

  lemma KnownFrame(s: State, s': State)
    requires Known(s) && s'.accepted == s.accepted && s'.calls == s.calls && s'.others == s.others
    requires s'.localEnqueues + s'.unnoted == s.localEnqueues + s.unnoted
    ensures Known(s')
  {
  }

  lemma KnownLoop(s: State, e: LoopStep)
    requires Known(s) && CanLoop(s, e)
    ensures Known(Loop(s, e))
  {
    if !e.PushLocal? {
      KnownFrame(s, Loop(s, e));
    }
  }

  // ----- Every run -----

  ghost predicate Invariant(s: State) {
    && Gated(s) && Fifo(s) && Ordered(s) && Locals(s) && Born(s) && Stamps(s)
    && Conserved(s) && Known(s)
  }

  lemma {:induction false} InvariantCall(s: State, p: nat, e: CallStep)
    requires Invariant(s) && CanCall(s, p, e)
    ensures Invariant(Call(s, p, e))
  {
    OrderCall(s, p, e);
    HistoryCall(s, p, e);
  }

  lemma OrderCall(s: State, p: nat, e: CallStep)
    requires Invariant(s) && CanCall(s, p, e)
    ensures var s' := Call(s, p, e);
            Gated(s') && Fifo(s') && Ordered(s') && Locals(s')
  {
    GatedStep(s, ByProducer(p, e));
    FifoCall(s, p, e);
    OrderedCall(s, p, e);
  }

  lemma HistoryCall(s: State, p: nat, e: CallStep)
    requires Invariant(s) && CanCall(s, p, e)
    ensures var s' := Call(s, p, e);
            Born(s') && Stamps(s') && Conserved(s') && Known(s')
  {
    BornCall(s, p, e);
    StampsCall(s, p, e);
    ConservedCall(s, p, e);
    KnownCall(s, p, e);
  }

  lemma OrderDispatcher(s: State, e: DispatcherStep)
    requires Control(s) && Fifo(s) && Ordered(s) && Born(s) && Conserved(s) && Known(s) && CanDispatch(s, e)
    ensures var s' := Dispatcher(s, e); Fifo(s') && Ordered(s') && Born(s') && Conserved(s') && Known(s')
  {
    LineDispatcher(s, e);
    DispatcherFrame(s, e);
    FifoFrame(s, Dispatcher(s, e));
    BornKept(s, Dispatcher(s, e));
    ConservedFrame(s, Dispatcher(s, e));
    KnownFrame(s, Dispatcher(s, e));
  }

  lemma DispatcherFrame(s: State, e: DispatcherStep)
    requires CanDispatch(s, e)
    ensures var s' := Dispatcher(s, e);
            && s'.calls == s.calls && s'.accepted == s.accepted && s'.others == s.others
            && s'.localEnqueues == s.localEnqueues && s'.unnoted == s.unnoted && s'.taken == s.taken
            && s'.local == s.local && s'.batch == s.batch && s'.loop == s.loop && s'.producers == s.producers
  {
  }

  lemma {:induction false} InvariantDispatcher(s: State, e: DispatcherStep)
    requires Invariant(s) && CanDispatch(s, e)
    ensures Invariant(Dispatcher(s, e))
  {
    GatedStep(s, ByDispatcher(e));
    OrderDispatcher(s, e);
    StampsDispatcher(s, e);
    DispatcherFrame(s, e);
  }

  lemma {:induction false} InvariantLoop(s: State, e: LoopStep)
    requires Invariant(s) && CanLoop(s, e)
    ensures Invariant(Loop(s, e))
  {
    GatedStep(s, ByLoop(e));
    FifoLoop(s, e);
    OrderedLoop(s, e);
    LocalsLoop(s, e);
    BornLoop(s, e);
    StampsLoop(s, e);
    ConservedLoop(s, e);
    KnownLoop(s, e);
  }

  lemma InvariantInit()
    ensures Invariant(Init())
  {
    assert Line(Init()) == [];
  }

  lemma {:induction false} EveryRunKeepsInvariant(steps: seq<Step>)
    requires After(steps).Some?
    ensures Invariant(After(steps).value)
  {
    if steps == [] {
      InvariantInit();
    } else {
      EveryRunKeepsInvariant(steps[..|steps| - 1]);
      var s, e := After(steps[..|steps| - 1]).value, steps[|steps| - 1];
      match e
      case ByProducer(p, call) => InvariantCall(s, p, call);
      case ByDispatcher(move) => InvariantDispatcher(s, move);
      case ByLoop(act) => InvariantLoop(s, act);
    }
  }

  // ----- The theorems -----

  /** Call number `n` of producer `p` is among `items`. */
  ghost predicate Has(items: seq<Item>, p: nat, n: nat) {
    exists i :: 0 <= i < |items| && items[i].Handle? && items[i].pid == p && items[i].n == n
  }

  /** Whenever a handle has run, every earlier handle of its producer ran
      before it. */
  ghost predicate RanInCallOrder(executed: seq<Item>) {
    forall j, n: nat :: 0 <= j < |executed| && executed[j].Handle? && n < executed[j].n ==>
      Has(executed[..j], executed[j].pid, n)
  }

  /** Whenever an off-thread item has run, every loop-thread item enqueued
      before its scheduling call began ran before it. */
  ghost predicate RanAfterEarlierLocals(executed: seq<Item>) {
    forall j, n: nat :: 0 <= j < |executed| && Off(executed[j]) && n < executed[j].birth ==>
      Local(n) in executed[..j]
  }

  lemma {:induction false} NumbersHas(p: nat, line: seq<Item>, n: nat)
    requires n in Numbers(p, line)
    ensures Has(line, p, n)
  {
    if line[0].Handle? && line[0].pid == p && line[0].n == n {
    } else {
      NumbersHas(p, line[1..], n);
      var i :| 0 <= i < |line[1..]| && line[1..][i].Handle? && line[1..][i].pid == p && line[1..][i].n == n;
      assert line[i + 1] == line[1..][i];
    }
  }

  lemma CallOrder(before: seq<Item>, item: Item, after: seq<Item>, k: nat, n: nat)
    requires item.Handle? && Numbers(item.pid, before + ([item] + after)) == Upto(k) && n < item.n
    ensures Has(before, item.pid, n)
  {
    var p := item.pid;
    var ns := Numbers(p, before);
    Numbers3(p, before, [item], after);
    assert Numbers(p, [item]) == [item.n] + Numbers(p, []);
    assert Upto(k)[|ns|] == item.n;
    assert ns[n] == Upto(k)[n];
    NumbersHas(p, before, n);
  }

  lemma SplitLine(s: State, j: nat)
    requires j < |s.executed|
    ensures Line(s) == s.executed[..j] + ([s.executed[j]] + (s.executed[j + 1..] + s.batch + (Pending(s) + Back(s))))
  {
    assert s.executed == s.executed[..j] + ([s.executed[j]] + s.executed[j + 1..]);
  }

  lemma LocalOrder(s: State, j: nat, n: nat)
    requires Ordered(s) && Conserved(s) && Known(s) && Born(s)
    requires j < |s.executed| && Off(s.executed[j]) && n < s.executed[j].birth
    ensures Local(n) in s.executed[..j]
  {
    var y, after := s.executed[j], s.executed[j + 1..] + s.batch + (Pending(s) + Back(s));
    SplitLine(s, j);
    NoOvertake3(s.executed[..j], [y], after);
    assert y in Front(s) && y in [y];
    assert y in Line(s);
    assert multiset(s.accepted)[Local(n)] == 1;
    assert Local(n) in Line(s) || Local(n) in s.local;
  }

  /** Over every run, whatever the interleaving: handles of one producer run
      in call order, off-thread work never overtakes loop-thread work that was
      enqueued before its call began, every accepted item is executed once or
      waits at one place, and `channel_handles` means what it says. */
  lemma {:induction false} EveryRun(steps: seq<Step>)
    requires After(steps).Some?
    ensures var s := After(steps).value;
            && RanInCallOrder(s.executed)
            && RanAfterEarlierLocals(s.executed)
            && Conserved(s)
            && Counted(s)
  {
    EveryRunKeepsInvariant(steps);
    var s := After(steps).value;
    forall j, n: nat | 0 <= j < |s.executed| && s.executed[j].Handle? && n < s.executed[j].n
      ensures Has(s.executed[..j], s.executed[j].pid, n)
    {
      SplitLine(s, j);
      var after := s.executed[j + 1..] + s.batch + (Pending(s) + Back(s));
      CallOrder(s.executed[..j], s.executed[j], after, Calls(s, s.executed[j].pid), n);
    }
    forall j, n: nat | 0 <= j < |s.executed| && Off(s.executed[j]) && n < s.executed[j].birth
      ensures Local(n) in s.executed[..j]
    {
      LocalOrder(s, j, n);
    }
  }
}
