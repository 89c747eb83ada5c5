/** How work reaches the loop thread: the step system of producers, dispatcher
    and loop thread (src/engine/loop_core.rs and src/engine/dispatcher.rs).

    Each step is one atomic action of one thread: an atomic operation, a
    critical section, or a channel operation. Whether the loop thread sees the
    ready flag is left open, so it may start a generation from its own queue
    alone or from both queues whenever its batch is empty. */
module ReadyProtocol {
  import opened GenerationMerge
  import opened Wrappers

  /** A ready item with its history: who scheduled it, its number there, and
      how many loop-thread enqueues were counted when the call began. */
  datatype Item =
    | Local(n: nat)
    | Handle(pid: nat, n: nat, birth: nat)
    | Other(id: nat, birth: nat)

  datatype Command = Schedule(item: Item) | EnterRun(run: nat, mark: nat) | FinishRun(run: nat)

  /** Where a producer stands inside a scheduling call. */
  datatype Producer =
    | Idle
    | Probing(birth: nat)      // before the load of `channel_handles`
    | Direct(birth: nat)       // saw zero, before the active queue
    | Reserving(birth: nat)    // before the increment
    | Sending(birth: nat)      // counted, before the send
    | OtherDirect(birth: nat)  // an ungated command, before the active queue
    | OtherSending(birth: nat)

  datatype LoopPc = Stopped | Opening | Running | Ending | Retiring | Finishing | Awaiting

  /** `entering` is the run whose EnterRun is being handled. */
  datatype DispatcherPc =
    | Polling
    | Forwarding(mark: nat, entering: Option<nat>)
    | Releasing(count: nat, entering: Option<nat>)
    | Activating(run: nat)

  datatype Dispatch = Dispatch(run: nat, accepting: bool)

  datatype State = State(
    // shared
    queues: map<nat, seq<Marked<Item>>>,
    active: Option<Dispatch>,
    channel: seq<Command>,
    channelHandles: int,
    localEnqueues: nat,
    // dispatcher; the first `left` items of `ready` came back from a finished run
    disp: DispatcherPc,
    ready: seq<Item>,
    left: nat,
    counted: nat,
    activeRun: Option<nat>,
    acked: bool,
    // loop thread; the last `unnoted` items of `local` are not counted yet
    loop: LoopPc,
    run: nat,
    batch: seq<Item>,
    local: seq<Item>,
    unnoted: nat,
    taken: nat,
    // producers, with the number of handle calls each has completed
    producers: map<nat, Producer>,
    calls: map<nat, nat>,
    others: nat,
    // history
    executed: seq<Item>,
    accepted: set<Item>)

  function Init(): State {
    State(map[], None, [], 0, 0, Polling, [], 0, 0, None, false,
          Stopped, 0, [], [], 0, 0, map[], map[], 0, [], {})
  }

  function Pc(s: State, p: nat): Producer {
    if p in s.producers then s.producers[p] else Idle
  }

  function Calls(s: State, p: nat): nat {
    if p in s.calls then s.calls[p] else 0
  }

  function Queue(s: State): seq<Marked<Item>> {
    if s.run in s.queues then s.queues[s.run] else []
  }

  predicate Accepting(s: State) {
    s.active.Some? && s.active.value.accepting
  }

  /** One atomic action inside a scheduling call. */
  datatype CallStep =
    | BeginHandle | Probe | TryDirect | Reserve | SendHandle | BeginOther | TryOther | SendOther

  datatype DispatcherStep =
    | ReceiveItem | ReceiveEnter | ReceiveFinish | DispatchReady | Forward | Release | Activate

  datatype LoopStep =
    | BeginRun | SendEnter | PushLocal | NoteLocal | TakeLocal | TakeMerged | Execute
    | EndRun | SaveLeftovers | Retire | SendFinish | ReturnFromRun

  datatype Step = ByProducer(p: nat, call: CallStep) | ByDispatcher(move: DispatcherStep) | ByLoop(act: LoopStep)

  predicate CanCall(s: State, p: nat, e: CallStep) {
    match e
    case BeginHandle => Pc(s, p).Idle?
    case Probe => Pc(s, p).Probing?
    case TryDirect => Pc(s, p).Direct?
    case Reserve => Pc(s, p).Reserving?
    case SendHandle => Pc(s, p).Sending?
    case BeginOther => Pc(s, p).Idle?
    case TryOther => Pc(s, p).OtherDirect?
    case SendOther => Pc(s, p).OtherSending?
  }

  predicate CanDispatch(s: State, e: DispatcherStep) {
    match e
    case ReceiveItem => s.disp.Polling? && s.channel != [] && s.channel[0].Schedule?
    case ReceiveEnter => s.disp.Polling? && s.channel != [] && s.channel[0].EnterRun?
    case ReceiveFinish => s.disp.Polling? && s.channel != [] && s.channel[0].FinishRun?
    case DispatchReady => s.disp.Polling? && s.activeRun.Some? && s.ready != []
    case Forward => s.disp.Forwarding?
    case Release => s.disp.Releasing?
    case Activate => s.disp.Activating?
  }

  predicate CanLoop(s: State, e: LoopStep) {
    match e
    case BeginRun => s.loop.Stopped?
    case SendEnter => s.loop.Opening?
    case PushLocal => s.loop.Running?
    case NoteLocal => s.loop.Running?
    case TakeLocal => s.loop.Running? && s.unnoted == 0 && s.batch == []
    case TakeMerged => s.loop.Running? && s.unnoted == 0 && s.batch == []
    case Execute => s.loop.Running? && s.unnoted == 0 && s.batch != []
    case EndRun => s.loop.Running? && s.unnoted == 0
    case SaveLeftovers => s.loop.Ending?
    case Retire => s.loop.Retiring?
    case SendFinish => s.loop.Finishing?
    case ReturnFromRun => s.loop.Awaiting? && s.acked
  }

  // ----- Producers -----

  function AtProducer(s: State, p: nat, pc: Producer): State {
    s.(producers := s.producers[p := pc])
  }

  /** The queue push of a direct producer, under both locks. */
  function PushActive(s: State, item: Item): State
    requires s.active.Some?
  {
    var r := s.active.value.run;
    var queue := if r in s.queues then s.queues[r] else [];
    s.(queues := s.queues[r := queue + [Marked(item, s.localEnqueues)]], accepted := s.accepted + {item})
  }

  function SendItem(s: State, item: Item): State {
    s.(channel := s.channel + [Schedule(item)], accepted := s.accepted + {item})
  }

  function EndHandleCall(s: State, p: nat): State {
    s.(producers := s.producers[p := Idle], calls := s.calls[p := Calls(s, p) + 1])
  }

  function EndOtherCall(s: State, p: nat): State {
    s.(producers := s.producers[p := Idle], others := s.others + 1)
  }

  /** The item of `p`'s handle call in progress. */
  function OwnHandle(s: State, p: nat): Item
    requires !Pc(s, p).Idle?
  {
    Handle(p, Calls(s, p), Pc(s, p).birth)
  }

  function OwnOther(s: State, p: nat): Item
    requires !Pc(s, p).Idle?
  {
    Other(s.others, Pc(s, p).birth)
  }

  function DoProbe(s: State, p: nat): State
    requires CanCall(s, p, Probe)
  {
    var b := Pc(s, p).birth;
    AtProducer(s, p, if s.channelHandles == 0 then Direct(b) else Reserving(b))
  }

  function DoTryDirect(s: State, p: nat): State
    requires CanCall(s, p, TryDirect)
  {
    if Accepting(s) then EndHandleCall(PushActive(s, OwnHandle(s, p)), p)
    else AtProducer(s, p, Reserving(Pc(s, p).birth))
  }

  function DoReserve(s: State, p: nat): State
    requires CanCall(s, p, Reserve)
  {
    AtProducer(s, p, Sending(Pc(s, p).birth)).(channelHandles := s.channelHandles + 1)
  }

  function DoSendHandle(s: State, p: nat): State
    requires CanCall(s, p, SendHandle)
  {
    EndHandleCall(SendItem(s, OwnHandle(s, p)), p)
  }

  function DoTryOther(s: State, p: nat): State
    requires CanCall(s, p, TryOther)
  {
    if Accepting(s) then EndOtherCall(PushActive(s, OwnOther(s, p)), p)
    else AtProducer(s, p, OtherSending(Pc(s, p).birth))
  }

  function DoSendOther(s: State, p: nat): State
    requires CanCall(s, p, SendOther)
  {
    EndOtherCall(SendItem(s, OwnOther(s, p)), p)
  }

  // ----- Dispatcher -----

  /** What follows the forwarding of a batch. */
  function Onward(entering: Option<nat>): DispatcherPc {
    if entering.Some? then Activating(entering.value) else Polling
  }

  function DoReceiveItem(s: State): State
    requires CanDispatch(s, ReceiveItem)
  {
    var item := s.channel[0].item;
    s.(channel := s.channel[1..], ready := s.ready + [item],
       counted := if item.Handle? then s.counted + 1 else s.counted)
  }

  function DoReceiveEnter(s: State): State
    requires CanDispatch(s, ReceiveEnter)
  {
    var run := s.channel[0].run;
    s.(channel := s.channel[1..], activeRun := Some(run), disp := Forwarding(s.channel[0].mark, Some(run)))
  }

  function DoReceiveFinish(s: State): State
    requires CanDispatch(s, ReceiveFinish)
  {
    if s.activeRun.None? then s.(channel := s.channel[1..], acked := true)
    else
      var r := s.activeRun.value;
      var queued := Items(if r in s.queues then s.queues[r] else []);
      s.(channel := s.channel[1..], activeRun := None, queues := s.queues[r := []],
         ready := queued + s.ready, left := |queued| + s.left, acked := true)
  }

  function DoForward(s: State): State
    requires CanDispatch(s, Forward)
  {
    if s.activeRun.None? || s.ready == [] then s.(disp := Onward(s.disp.entering))
    else
      var r := s.activeRun.value;
      var queue := if r in s.queues then s.queues[r] else [];
      s.(queues := s.queues[r := queue + MarkAll(s.ready, s.disp.mark)], ready := [], left := 0,
         disp := Releasing(s.counted, s.disp.entering), counted := 0)
  }

  function DoRelease(s: State): State
    requires CanDispatch(s, Release)
  {
    s.(channelHandles := s.channelHandles - s.disp.count, disp := Onward(s.disp.entering))
  }

  function DoActivate(s: State): State
    requires CanDispatch(s, Activate)
  {
    s.(disp := Polling,
       active := if s.active.Some? && s.active.value.run == s.disp.run
                 then Some(Dispatch(s.disp.run, true)) else s.active)
  }

  // ----- Loop thread -----

  function DoBeginRun(s: State): State {
    s.(loop := Opening, run := s.run + 1, queues := s.queues[s.run + 1 := []],
       active := Some(Dispatch(s.run + 1, false)), acked := false)
  }

  function DoSendEnter(s: State): State {
    s.(loop := Running, channel := s.channel + [EnterRun(s.run, s.localEnqueues)], taken := s.localEnqueues)
  }

  function DoPushLocal(s: State): State {
    var item := Local(s.localEnqueues + s.unnoted);
    s.(local := s.local + [item], unnoted := s.unnoted + 1, accepted := s.accepted + {item})
  }

  function DoTakeLocal(s: State): State {
    s.(taken := s.taken + |s.local|, batch := s.local, local := [])
  }

  function DoTakeMerged(s: State): State {
    s.(batch := Merge(s.local, s.taken, Queue(s)), local := [], taken := s.taken + |s.local|,
       queues := s.queues[s.run := []])
  }

  function DoExecute(s: State): State
    requires CanLoop(s, Execute)
  {
    s.(executed := s.executed + [s.batch[0]], batch := s.batch[1..])
  }

  function DoSaveLeftovers(s: State): State {
    if s.batch == [] && s.local == [] then s.(loop := Retiring)
    else
      s.(loop := Retiring, batch := [], local := [], taken := s.taken + |s.local|,
         queues := s.queues[s.run := MarkAll(s.batch + Merge(s.local, s.taken, Queue(s)), 0)])
  }

  // ----- Runs -----

  function Call(s: State, p: nat, e: CallStep): State
    requires CanCall(s, p, e)
  {
    match e
    case BeginHandle => AtProducer(s, p, Probing(s.localEnqueues))
    case Probe => DoProbe(s, p)
    case TryDirect => DoTryDirect(s, p)
    case Reserve => DoReserve(s, p)
    case SendHandle => DoSendHandle(s, p)
    case BeginOther => AtProducer(s, p, OtherDirect(s.localEnqueues))
    case TryOther => DoTryOther(s, p)
    case SendOther => DoSendOther(s, p)
  }

  function Dispatcher(s: State, e: DispatcherStep): State
    requires CanDispatch(s, e)
  {
    match e
    case ReceiveItem => DoReceiveItem(s)
    case ReceiveEnter => DoReceiveEnter(s)
    case ReceiveFinish => DoReceiveFinish(s)
    case DispatchReady => s.(disp := Forwarding(s.localEnqueues, None))
    case Forward => DoForward(s)
    case Release => DoRelease(s)
    case Activate => DoActivate(s)
  }

  function Loop(s: State, e: LoopStep): State
    requires CanLoop(s, e)
  {
    match e
    case BeginRun => DoBeginRun(s)
    case SendEnter => DoSendEnter(s)
    case PushLocal => DoPushLocal(s)
    case NoteLocal => s.(localEnqueues := s.localEnqueues + s.unnoted, unnoted := 0)
    case TakeLocal => DoTakeLocal(s)
    case TakeMerged => DoTakeMerged(s)
    case Execute => DoExecute(s)
    case EndRun => s.(loop := Ending)
    case SaveLeftovers => DoSaveLeftovers(s)
    case Retire => s.(loop := Finishing, active := None)
    case SendFinish => s.(loop := Awaiting, channel := s.channel + [FinishRun(s.run)])
    case ReturnFromRun => s.(loop := Stopped)
  }

  predicate Enabled(s: State, e: Step) {
    match e
    case ByProducer(p, call) => CanCall(s, p, call)
    case ByDispatcher(move) => CanDispatch(s, move)
    case ByLoop(act) => CanLoop(s, act)
  }

  function Apply(s: State, e: Step): State
    requires Enabled(s, e)
  {
    match e
    case ByProducer(p, call) => Call(s, p, call)
    case ByDispatcher(move) => Dispatcher(s, move)
    case ByLoop(act) => Loop(s, act)
  }

  /** The state after a run of the system, if every step is enabled in turn. */
  function After(steps: seq<Step>): Option<State> {
    if steps == [] then Some(Init())
    else
      var prev := After(steps[..|steps| - 1]);
      var e := steps[|steps| - 1];
      if prev.Some? && Enabled(prev.value, e) then Some(Apply(prev.value, e)) else None
  }

  /** A run of the system, one step longer. */
  lemma More(steps: seq<Step>, s: State, e: Step)
    requires After(steps) == Some(s) && Enabled(s, e)
    ensures After(steps + [e]) == Some(Apply(s, e))
  {
    assert (steps + [e])[..|steps|] == steps;
  }

  lemma Then(steps: seq<Step>, s: State, e: Step) returns (steps': seq<Step>, s': State)
    requires After(steps) == Some(s) && Enabled(s, e)
    ensures After(steps') == Some(s') && s' == Apply(s, e)
  {
    steps', s' := steps + [e], Apply(s, e);
    More(steps, s, e);
  }
}
