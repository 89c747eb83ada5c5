/** What every run of the ready-queue protocol keeps: the control state of the
    run handshake, the meaning of `channel_handles`, and the gate that lets a
    producer bypass the channel. */
module ReadyGate {
  import opened GenerationMerge
  import opened ReadyProtocol
  import opened Wrappers

  // ----- The channel, seen as items and as control commands -----

  function ChannelItems(channel: seq<Command>): (items: seq<Item>) {
    if channel == [] then []
    else (if channel[0].Schedule? then [channel[0].item] else []) + ChannelItems(channel[1..])
  }

  function Controls(channel: seq<Command>): (commands: seq<Command>) {
    if channel == [] then []
    else (if channel[0].Schedule? then [] else [channel[0]]) + Controls(channel[1..])
  }

  lemma {:induction false} ChannelSend(channel: seq<Command>, c: Command)
    ensures ChannelItems(channel + [c]) == ChannelItems(channel) + (if c.Schedule? then [c.item] else [])
    ensures Controls(channel + [c]) == Controls(channel) + (if c.Schedule? then [] else [c])
  {
    if channel != [] {
      assert (channel + [c])[1..] == channel[1..] + [c];
      ChannelSend(channel[1..], c);
    }
  }

  // ----- Control -----

  predicate Entering(s: State) {
    || (s.disp.Forwarding? && s.disp.entering.Some?)
    || (s.disp.Releasing? && s.disp.entering.Some?)
    || s.disp.Activating?
  }

  /** This run's EnterRun is the next control command on the channel. */
  predicate AwaitsEnter(s: State) {
    var commands := Controls(s.channel);
    commands != [] && commands[0].EnterRun? && commands[0].run == s.run
  }

  /** The dispatcher has joined this run, or the EnterRun is still on the
      channel; `after` are the control commands behind it. */
  predicate Joined(s: State, after: seq<Command>) {
    || (s.activeRun == Some(s.run) && Controls(s.channel) == after)
    || (s.activeRun == None && AwaitsEnter(s) && Controls(s.channel)[1..] == after)
  }

  ghost predicate Queues(s: State) {
    && (forall r :: r in s.queues ==> r <= s.run && (r != s.run ==> s.queues[r] == []))
    && (!s.loop.Stopped? ==> s.run in s.queues)
    && (s.loop.Stopped? || s.loop.Opening? || (s.loop.Awaiting? && s.acked) ==> Queue(s) == [])
  }

  predicate LoopControl(s: State) {
    match s.loop
    case Stopped => Controls(s.channel) == [] && s.active.None? && s.activeRun.None?
    case Opening => !s.acked && Controls(s.channel) == [] && s.active == Some(Dispatch(s.run, false))
                    && s.activeRun.None?
    case Running => !s.acked && s.active.Some? && Joined(s, [])
    case Ending => !s.acked && s.active.Some? && Joined(s, [])
    case Retiring => !s.acked && s.active.Some? && Joined(s, [])
    case Finishing => !s.acked && s.active.None? && Joined(s, [])
    case Awaiting => s.active.None?
                     && if s.acked then Controls(s.channel) == [] && s.activeRun.None?
                        else Joined(s, [FinishRun(s.run)])
  }

  predicate DispatcherControl(s: State) {
    && (s.active.Some? ==> s.active.value.run == s.run)
    && (s.activeRun.Some? ==> s.activeRun.value == s.run)
    && (!s.disp.Polling? ==> s.activeRun.Some?)
    && (s.disp.Forwarding? && s.disp.entering.Some? ==> s.disp.entering.value == s.run)
    && (s.disp.Releasing? && s.disp.entering.Some? ==> s.disp.entering.value == s.run)
    && (s.disp.Activating? ==> s.disp.run == s.run)
    && (Accepting(s) ==> s.activeRun.Some? && !Entering(s))
  }

  ghost predicate Control(s: State) {
    LoopControl(s) && DispatcherControl(s) && Queues(s)
  }

  lemma ControlFrame(s: State, s': State)
    requires Control(s) && Queues(s') && Controls(s'.channel) == Controls(s.channel)
    requires s'.loop == s.loop && s'.run == s.run && s'.acked == s.acked
    requires s'.active == s.active && s'.activeRun == s.activeRun && s'.disp == s.disp
    ensures Control(s')
  {
  }

  lemma ControlsReceive(channel: seq<Command>)
    requires channel != [] && !channel[0].Schedule?
    ensures Controls(channel) != [] && Controls(channel)[0] == channel[0]
    ensures Controls(channel[1..]) == Controls(channel)[1..]
  {
  }

  lemma ControlCall(s: State, p: nat, e: CallStep)
    requires Control(s) && CanCall(s, p, e)
    ensures Control(Call(s, p, e))
  {
    if e.SendHandle? {
      ChannelSend(s.channel, Schedule(OwnHandle(s, p)));
    } else if e.SendOther? {
      ChannelSend(s.channel, Schedule(OwnOther(s, p)));
    }
    ControlFrame(s, Call(s, p, e));
  }

  lemma ControlReceive(s: State, e: DispatcherStep)
    requires Control(s) && CanDispatch(s, e) && (e.ReceiveEnter? || e.ReceiveFinish?)
    ensures Control(Dispatcher(s, e))
  {
    ControlsReceive(s.channel);
  }

  lemma ControlForward(s: State, e: DispatcherStep)
    requires Control(s) && CanDispatch(s, e) && (e.DispatchReady? || e.Forward? || e.Release? || e.Activate?)
    ensures Control(Dispatcher(s, e))
  {
    if e.Forward? {
      assert Queues(DoForward(s));
    }
  }

  lemma ControlDispatcher(s: State, e: DispatcherStep)
    requires Control(s) && CanDispatch(s, e)
    ensures Control(Dispatcher(s, e))
  {
    if e.ReceiveItem? {
      ControlFrame(s, DoReceiveItem(s));
    } else if e.ReceiveEnter? || e.ReceiveFinish? {
      ControlReceive(s, e);
    } else {
      ControlForward(s, e);
    }
  }

  lemma ControlBegins(s: State, e: LoopStep)
    requires Control(s) && CanLoop(s, e) && (e.BeginRun? || e.SendEnter? || e.ReturnFromRun?)
    ensures Control(Loop(s, e))
  {
    if e.SendEnter? {
      ChannelSend(s.channel, EnterRun(s.run, s.localEnqueues));
    }
    assert Queues(Loop(s, e));
  }

  lemma ControlEnds(s: State, e: LoopStep)
    requires Control(s) && CanLoop(s, e) && (e.EndRun? || e.SaveLeftovers? || e.Retire? || e.SendFinish?)
    ensures Control(Loop(s, e))
  {
    if e.SendFinish? {
      ChannelSend(s.channel, FinishRun(s.run));
    }
    assert Queues(Loop(s, e));
  }

  lemma ControlLoop(s: State, e: LoopStep)
    requires Control(s) && CanLoop(s, e)
    ensures Control(Loop(s, e))
  {
    if e.PushLocal? || e.NoteLocal? || e.TakeLocal? || e.TakeMerged? || e.Execute? {
      ControlFrame(s, Loop(s, e));
    } else if e.BeginRun? || e.SendEnter? || e.ReturnFromRun? {
      ControlBegins(s, e);
    } else {
      ControlEnds(s, e);
    }
  }

  // ----- Counting -----

  /** The call numbers of `p`'s handles in `line`, in line order. */
  function Numbers(p: nat, line: seq<Item>): (ns: seq<nat>) {
    if line == [] then []
    else (if line[0].Handle? && line[0].pid == p then [line[0].n] else []) + Numbers(p, line[1..])
  }

  lemma {:induction false} NumbersConcat(p: nat, a: seq<Item>, b: seq<Item>)
    ensures Numbers(p, a + b) == Numbers(p, a) + Numbers(p, b)
  {
    if a == [] {
      assert a + b == b;
    } else {
      assert (a + b)[1..] == a[1..] + b;
      NumbersConcat(p, a[1..], b);
    }
  }

  function CountHandles(items: seq<Item>): (n: nat) {
    if items == [] then 0
    else (if items[0].Handle? then 1 else 0) + CountHandles(items[1..])
  }

  lemma {:induction false} CountConcat(a: seq<Item>, b: seq<Item>)
    ensures CountHandles(a + b) == CountHandles(a) + CountHandles(b)
  {
    if a == [] {
      assert a + b == b;
    } else {
      assert (a + b)[1..] == a[1..] + b;
      CountConcat(a[1..], b);
    }
  }

  lemma {:induction false} CountZero(p: nat, items: seq<Item>)
    requires CountHandles(items) == 0
    ensures Numbers(p, items) == []
  {
    if items != [] {
      CountZero(p, items[1..]);
    }
  }

  /** Work the dispatcher received since it last forwarded, then the channel. */
  function Arriving(s: State): (items: seq<Item>)
    requires s.left <= |s.ready|
  {
    s.ready[s.left..] + ChannelItems(s.channel)
  }

  /** Producers between the increment and the send. */
  function InFlight(s: State): (ps: set<nat>) {
    set p | p in s.producers && s.producers[p].Sending?
  }

  function Unreleased(s: State): (n: nat) {
    if s.disp.Releasing? then s.disp.count else 0
  }

  /** `channel_handles` counts the handles that are arriving, those forwarded
      but not yet released, and the producers between increment and send. */
  ghost predicate Counted(s: State) {
    && s.left <= |s.ready|
    && s.counted == CountHandles(s.ready[s.left..])
    && s.channelHandles == CountHandles(Arriving(s)) + Unreleased(s) + |InFlight(s)|
  }

  lemma InFlightChanges(s: State, s': State, p: nat)
    requires s'.producers == s.producers[p := Pc(s', p)]
    ensures |InFlight(s')| == |InFlight(s)| + (if Pc(s', p).Sending? then 1 else 0)
                              - (if Pc(s, p).Sending? then 1 else 0)
  {
    var before, after := InFlight(s), InFlight(s');
    if Pc(s', p).Sending? {
      assert after == before + {p};
    } else {
      assert after == before - {p};
    }
  }

  lemma ArrivingSend(s: State, s': State, item: Item)
    requires s.left <= |s.ready| && s'.left == s.left && s'.ready == s.ready
    requires s'.channel == s.channel + [Schedule(item)]
    ensures Arriving(s') == Arriving(s) + [item]
  {
    ChannelSend(s.channel, Schedule(item));
  }

  lemma CountedSend(s: State, s': State, p: nat, item: Item)
    requires Counted(s) && Pc(s, p).Sending? == item.Handle? && !Pc(s', p).Sending?
    requires s'.producers == s.producers[p := Pc(s', p)]
    requires s'.ready == s.ready && s'.left == s.left && s'.counted == s.counted
    requires s'.channel == s.channel + [Schedule(item)]
    requires s'.channelHandles == s.channelHandles && s'.disp == s.disp
    ensures Counted(s')
  {
    InFlightChanges(s, s', p);
    ArrivingSend(s, s', item);
    CountConcat(Arriving(s), [item]);
  }

  lemma CountedMove(s: State, s': State, p: nat)
    requires Counted(s) && !Pc(s, p).Sending?
    requires s'.producers == s.producers[p := Pc(s', p)]
    requires s'.ready == s.ready && s'.left == s.left && s'.counted == s.counted
    requires s'.channel == s.channel && s'.disp == s.disp
    requires s'.channelHandles == s.channelHandles + (if Pc(s', p).Sending? then 1 else 0)
    ensures Counted(s')
  {
    InFlightChanges(s, s', p);
  }

  /** A call step that sends nothing changes one producer and the counter. */
  lemma CallMoves(s: State, p: nat, e: CallStep)
    requires CanCall(s, p, e) && !e.SendHandle? && !e.SendOther?
    ensures var s' := Call(s, p, e);
            && s'.producers == s.producers[p := Pc(s', p)]
            && s'.ready == s.ready && s'.left == s.left && s'.counted == s.counted
            && s'.channel == s.channel && s'.disp == s.disp && s'.activeRun == s.activeRun
            && s'.channelHandles == s.channelHandles + (if Pc(s', p).Sending? then 1 else 0)
            && (Pc(s', p).Direct? ==> e.Probe? && s.channelHandles == 0)
  {
  }

  lemma CountedCall(s: State, p: nat, e: CallStep)
    requires Counted(s) && CanCall(s, p, e)
    ensures Counted(Call(s, p, e))
  {
    if e.SendHandle? {
      CountedSend(s, DoSendHandle(s, p), p, OwnHandle(s, p));
    } else if e.SendOther? {
      CountedSend(s, DoSendOther(s, p), p, OwnOther(s, p));
    } else {
      CallMoves(s, p, e);
      CountedMove(s, Call(s, p, e), p);
    }
  }

  /** `back` returns to the front of the batch, `moved` leaves the channel. */
  lemma ReadyMoved(back: seq<Item>, ready: seq<Item>, left: nat, moved: seq<Item>, rest: seq<Item>)
    requires left <= |ready|
    ensures (back + ready + moved)[|back| + left..] == ready[left..] + moved
    ensures (back + ready + moved)[|back| + left..] + rest == ready[left..] + (moved + rest)
  {
  }

  lemma ArrivingReceived(s: State, s': State, back: seq<Item>, moved: seq<Item>)
    requires s.left <= |s.ready|
    requires s'.ready == back + s.ready + moved && s'.left == |back| + s.left
    requires ChannelItems(s.channel) == moved + ChannelItems(s'.channel)
    ensures s'.left <= |s'.ready|
    ensures s'.ready[s'.left..] == s.ready[s.left..] + moved
    ensures Arriving(s') == Arriving(s)
  {
    ReadyMoved(back, s.ready, s.left, moved, ChannelItems(s'.channel));
  }

  lemma CountedReceived(s: State, s': State, back: seq<Item>, moved: seq<Item>)
    requires Counted(s)
    requires s'.ready == back + s.ready + moved && s'.left == |back| + s.left
    requires ChannelItems(s.channel) == moved + ChannelItems(s'.channel)
    requires s'.counted == s.counted + CountHandles(moved) && s'.producers == s.producers
    requires s'.channelHandles == s.channelHandles && Unreleased(s') == Unreleased(s)
    ensures Counted(s')
  {
    ArrivingReceived(s, s', back, moved);
    CountConcat(s.ready[s.left..], moved);
  }

  /** What a finishing dispatcher takes back from the run's queue. */
  function TakenBack(s: State): (items: seq<Item>) {
    if s.activeRun.None? then []
    else Items(if s.activeRun.value in s.queues then s.queues[s.activeRun.value] else [])
  }

  lemma CountedForward(s: State)
    requires Counted(s) && CanDispatch(s, Forward)
    ensures Counted(DoForward(s))
  {
    if s.activeRun.None? || s.ready == [] {
      CountedSkip(s);
    } else {
      CountConcat(s.ready[s.left..], ChannelItems(s.channel));
      assert Arriving(DoForward(s)) == ChannelItems(s.channel);
    }
  }

  lemma CountedSkip(s: State)
    requires Counted(s) && CanDispatch(s, Forward) && (s.activeRun.None? || s.ready == [])
    ensures Counted(DoForward(s))
  {
    assert Arriving(DoForward(s)) == Arriving(s);
  }

  lemma CountedReceive(s: State, e: DispatcherStep)
    requires Counted(s) && CanDispatch(s, e) && (e.ReceiveItem? || e.ReceiveEnter? || e.ReceiveFinish?)
    ensures Counted(Dispatcher(s, e))
  {
    if e.ReceiveItem? {
      CountedReceiveItem(s);
    } else if e.ReceiveEnter? {
      CountedReceiveEnter(s);
    } else {
      CountedReceiveFinish(s);
    }
  }

  lemma CountedReceiveItem(s: State)
    requires Counted(s) && CanDispatch(s, ReceiveItem)
    ensures Counted(DoReceiveItem(s))
  {
    CountedReceived(s, DoReceiveItem(s), [], [s.channel[0].item]);
  }

  lemma CountedReceiveEnter(s: State)
    requires Counted(s) && CanDispatch(s, ReceiveEnter)
    ensures Counted(DoReceiveEnter(s))
  {
    CountedReceived(s, DoReceiveEnter(s), [], []);
  }

  lemma CountedReceiveFinish(s: State)
    requires Counted(s) && CanDispatch(s, ReceiveFinish)
    ensures Counted(DoReceiveFinish(s))
  {
    CountedReceived(s, DoReceiveFinish(s), TakenBack(s), []);
  }

  lemma CountedOnward(s: State, e: DispatcherStep)
    requires Counted(s) && CanDispatch(s, e) && (e.DispatchReady? || e.Release? || e.Activate?)
    ensures Counted(Dispatcher(s, e))
  {
    assert Arriving(Dispatcher(s, e)) == Arriving(s) && InFlight(Dispatcher(s, e)) == InFlight(s);
  }

  lemma CountedDispatcher(s: State, e: DispatcherStep)
    requires Counted(s) && CanDispatch(s, e)
    ensures Counted(Dispatcher(s, e))
  {
    if e.ReceiveItem? || e.ReceiveEnter? || e.ReceiveFinish? {
      CountedReceive(s, e);
    } else if e.Forward? {
      CountedForward(s);
    } else {
      CountedOnward(s, e);
    }
  }

  /** The fields the gate and the count look at. */
  predicate SameArrivals(s: State, s': State) {
    && s'.ready == s.ready && s'.left == s.left && s'.counted == s.counted
    && ChannelItems(s'.channel) == ChannelItems(s.channel)
    && s'.producers == s.producers && s'.channelHandles == s.channelHandles
    && s'.disp == s.disp && s'.activeRun == s.activeRun
  }

  lemma LoopSameArrivals(s: State, e: LoopStep)
    requires CanLoop(s, e)
    ensures SameArrivals(s, Loop(s, e))
  {
    if e.SendEnter? {
      ChannelSend(s.channel, EnterRun(s.run, s.localEnqueues));
    } else if e.SendFinish? {
      ChannelSend(s.channel, FinishRun(s.run));
    }
  }

  lemma CountedLoop(s: State, s': State)
    requires Counted(s) && SameArrivals(s, s')
    ensures Counted(s')
  {
  }

  // ----- The gate -----

  /** Nothing came back from a finished run while direct producers may push,
      and a producer that saw the count at zero has nothing arriving. */
  ghost predicate Gate(s: State) {
    && s.left <= |s.ready|
    && (s.activeRun.Some? && !(s.disp.Forwarding? && s.disp.entering.Some?) ==> s.left == 0)
    && (forall p :: Pc(s, p).Direct? ==> Numbers(p, Arriving(s)) == [])
    && (forall x :: x in Arriving(s) ==> !x.Local?)
  }

  lemma GateSame(s: State, s': State)
    requires Gate(s) && s'.left <= |s'.ready| && Arriving(s') == Arriving(s) && s'.producers == s.producers
    requires s'.activeRun.Some? && !(s'.disp.Forwarding? && s'.disp.entering.Some?) ==> s'.left == 0
    ensures Gate(s')
  {
    forall q | Pc(s', q).Direct? ensures Numbers(q, Arriving(s')) == [] {
      assert Pc(s, q).Direct?;
    }
  }

  lemma GateSend(s: State, s': State, p: nat, item: Item)
    requires Gate(s) && !Pc(s', p).Direct? && !item.Local?
    requires item.Handle? ==> item.pid == p
    requires s'.producers == s.producers[p := Pc(s', p)]
    requires s'.ready == s.ready && s'.left == s.left && s'.channel == s.channel + [Schedule(item)]
    requires s'.activeRun == s.activeRun && s'.disp == s.disp
    ensures Gate(s')
  {
    ArrivingSend(s, s', item);
    forall q | Pc(s', q).Direct? ensures Numbers(q, Arriving(s')) == [] {
      assert Pc(s, q).Direct?;
      NumbersConcat(q, Arriving(s), [item]);
    }
  }

  lemma GateMove(s: State, s': State, p: nat)
    requires Gate(s) && (Pc(s', p).Direct? ==> Numbers(p, Arriving(s)) == [])
    requires s'.producers == s.producers[p := Pc(s', p)]
    requires s'.ready == s.ready && s'.left == s.left && s'.channel == s.channel
    requires s'.activeRun == s.activeRun && s'.disp == s.disp
    ensures Gate(s')
  {
    forall q | Pc(s', q).Direct? ensures Numbers(q, Arriving(s')) == [] {
      assert q != p ==> Pc(s, q).Direct?;
    }
  }

  lemma GateCall(s: State, p: nat, e: CallStep)
    requires Gate(s) && CanCall(s, p, e)
    requires s.channelHandles == 0 ==> CountHandles(Arriving(s)) == 0
    ensures Gate(Call(s, p, e))
  {
    if e.SendHandle? {
      GateSend(s, DoSendHandle(s, p), p, OwnHandle(s, p));
    } else if e.SendOther? {
      GateSend(s, DoSendOther(s, p), p, OwnOther(s, p));
    } else {
      CallMoves(s, p, e);
      if s.channelHandles == 0 {
        CountZero(p, Arriving(s));
      }
      GateMove(s, Call(s, p, e), p);
    }
  }

  lemma GateReceived(s: State, s': State, back: seq<Item>, moved: seq<Item>)
    requires Gate(s)
    requires s'.ready == back + s.ready + moved && s'.left == |back| + s.left
    requires ChannelItems(s.channel) == moved + ChannelItems(s'.channel)
    requires s'.producers == s.producers
    requires s'.activeRun.Some? && !(s'.disp.Forwarding? && s'.disp.entering.Some?) ==> s'.left == 0
    ensures Gate(s')
  {
    ArrivingReceived(s, s', back, moved);
    GateSame(s, s');
  }

  lemma GateForward(s: State)
    requires Gate(s) && CanDispatch(s, Forward)
    ensures Gate(DoForward(s))
  {
    var s' := DoForward(s);
    if s.activeRun.Some? && s.ready != [] {
      assert Arriving(s') == ChannelItems(s.channel);
      forall q | Pc(s', q).Direct? ensures Numbers(q, Arriving(s')) == [] {
        assert Pc(s, q).Direct?;
        NumbersConcat(q, s.ready[s.left..], ChannelItems(s.channel));
      }
    } else {
      GateSame(s, s');
    }
  }

  lemma GateDispatcher(s: State, e: DispatcherStep)
    requires DispatcherControl(s) && Gate(s) && CanDispatch(s, e)
    ensures Gate(Dispatcher(s, e))
  {
    match e
    case ReceiveItem => GateReceived(s, DoReceiveItem(s), [], [s.channel[0].item]);
    case ReceiveEnter => GateReceived(s, DoReceiveEnter(s), [], []);
    case ReceiveFinish => GateReceived(s, DoReceiveFinish(s), TakenBack(s), []);
    case DispatchReady => GateSame(s, Dispatcher(s, e));
    case Forward => GateForward(s);
    case Release => GateSame(s, Dispatcher(s, e));
    case Activate => GateSame(s, Dispatcher(s, e));
  }

  lemma GateLoop(s: State, s': State)
    requires Gate(s) && SameArrivals(s, s')
    ensures Gate(s')
  {
    GateSame(s, s');
  }

  // ----- Together -----

  ghost predicate Gated(s: State) {
    Control(s) && Counted(s) && Gate(s)
  }

  lemma GatedStep(s: State, e: Step)
    requires Gated(s) && Enabled(s, e)
    ensures Gated(Apply(s, e))
  {
    match e
    case ByProducer(p, call) =>
      ControlCall(s, p, call);
      CountedCall(s, p, call);
      GateCall(s, p, call);
    case ByDispatcher(move) =>
      ControlDispatcher(s, move);
      CountedDispatcher(s, move);
      GateDispatcher(s, move);
    case ByLoop(act) =>
      ControlLoop(s, act);
      LoopSameArrivals(s, act);
      CountedLoop(s, Loop(s, act));
      GateLoop(s, Loop(s, act));
  }
}
