/** The park of the loop thread: ready flag, dirty timers, waker registration
    and the producers' signal (`LoopWake`, `WaitForWake`, `enqueue_timer` and
    the decision to park in `run_forever`, src/engine/loop_core.rs).

    Push, dirty flag, flag swap, wake, flag clear, registration and every load
    are separate steps. Queues are counted, since only emptiness matters. */
module LoopPark {
  import opened Wrappers

  /** Where a producer stands: an off-thread scheduler, the dispatcher, or a
      thread that schedules a timer. */
  datatype Producer =
    | Away
    | MarkingDirty  // pushed a timer, before the dirty flag
    | Signalling    // before the swap of the ready flag
    | Waking        // set the flag first, before waking the registered waker

  datatype LoopPc =
    | Stopped
    | Draining          // timers, generations and callbacks
    | Importing         // cleared the dirty flag, before the timer lock
    | Merging           // saw the ready flag, before the queue lock
    | ClearingFlag      // merged, queue lock still held
    | CheckingDirty
    | CheckingWork
    | PollingOnce       // one turn of the reactor without parking
    | RootCheck         // the park: first load of the ready flag
    | RootRegister
    | RootRecheck
    | Driven            // waker registered, the reactor runs tasks
    | DriverWait        // blocked in the driver

  datatype State = State(
    pending: nat,       // the active run's off-thread queue
    timers: nat,        // the shared timer heap
    heap: nat,          // the run's own timer heap
    dirty: bool,
    flag: bool,         // `ready_pending`
    registered: bool,   // the park's waker is registered
    rootReady: bool,    // the park's future was notified
    batch: nat,
    local: nat,
    selfWaking: bool,   // the loop thread signalled itself, before the wake
    loop: LoopPc,
    producers: map<nat, Producer>)

  function Init(): State {
    State(0, 0, 0, false, false, false, false, 0, 0, false, Stopped, map[])
  }

  function At(s: State, p: nat): Producer {
    if p in s.producers then s.producers[p] else Away
  }

  datatype ProducerStep = PushItems(n: nat) | PushTimer | MarkDirty | SwapFlag | Wake

  datatype LoopStep =
    | BeginRun | EndRun
    | SwapDirty | Import | CollectDue(due: nat)
    | ScheduleTimer                // a callback schedules a timer
    | TakeLocal | SeeFlag | Merge | ClearFlag
    | Execute(scheduled: nat)
    | LeaveDrain | CheckDirty | CheckWork(cooldown: bool)
    | SelfPush | SelfWake          // a reactor task schedules on the loop thread
    | AfterPoll
    | CheckFlag | Register | RecheckFlag
    | PollRoot | EnterWait | LeaveWait | DeadlinePassed

  datatype Step = ByProducer(p: nat, act: ProducerStep) | ByLoop(move: LoopStep)

  /** The queue takes items while a run accepts them and its lock is free; a
      signal without items (for a queue already retired) is always possible. */
  predicate CanProduce(s: State, p: nat, e: ProducerStep) {
    match e
    case PushItems(n) => At(s, p).Away? && (n > 0 ==> !s.loop.Stopped? && !s.loop.ClearingFlag?)
    case PushTimer => At(s, p).Away?
    case MarkDirty => At(s, p).MarkingDirty?
    case SwapFlag => At(s, p).Signalling?
    case Wake => At(s, p).Waking?
  }

  function To(s: State, p: nat, pc: Producer): State {
    s.(producers := s.producers[p := pc])
  }

  /** Waking takes the registered waker, if any, and notifies the park. */
  function Woken(s: State): State {
    if s.registered then s.(registered := false, rootReady := true) else s
  }

  function Produce(s: State, p: nat, e: ProducerStep): State
    requires CanProduce(s, p, e)
  {
    match e
    case PushItems(n) => To(s, p, Signalling).(pending := s.pending + n)
    case PushTimer => To(s, p, MarkingDirty).(timers := s.timers + 1)
    case MarkDirty => To(s, p, Signalling).(dirty := true)
    case SwapFlag => To(s, p, if s.flag then Away else Waking).(flag := true)
    case Wake => Woken(To(s, p, Away))
  }

  predicate CanMove(s: State, e: LoopStep) {
    match e
    case BeginRun => s.loop.Stopped?
    case EndRun => s.loop.Draining?
    case SwapDirty => s.loop.Draining?
    case Import => s.loop.Importing?
    case CollectDue(due) => s.loop.Draining? && due <= s.heap
    case ScheduleTimer => s.loop.Draining?
    case TakeLocal => s.loop.Draining? && s.batch == 0
    case SeeFlag => s.loop.Draining? && s.batch == 0 && s.flag
    case Merge => s.loop.Merging?
    case ClearFlag => s.loop.ClearingFlag?
    case Execute(_) => s.loop.Draining? && s.batch > 0
    case LeaveDrain => s.loop.Draining?
    case CheckDirty => s.loop.CheckingDirty?
    case CheckWork(_) => s.loop.CheckingWork?
    case SelfPush => (s.loop.PollingOnce? || s.loop.Driven?) && !s.selfWaking
    case SelfWake => s.selfWaking
    case AfterPoll => s.loop.PollingOnce? && !s.selfWaking
    case CheckFlag => s.loop.RootCheck?
    case Register => s.loop.RootRegister?
    case RecheckFlag => s.loop.RootRecheck?
    case PollRoot => s.loop.Driven? && s.rootReady && !s.selfWaking
    case EnterWait => s.loop.Driven? && !s.rootReady && !s.selfWaking
    case LeaveWait => s.loop.DriverWait?
    case DeadlinePassed => s.loop.Driven? && !s.selfWaking
  }

  function Move(s: State, e: LoopStep): State
    requires CanMove(s, e)
  {
    match e
    case BeginRun => s.(loop := Draining, pending := 0, flag := false)
    case EndRun =>
      // Timers left in the run's heap go back to the shared heap.
      s.(loop := Stopped, batch := 0, local := 0, pending := 0,
         timers := s.timers + s.heap, heap := 0, dirty := s.dirty || s.heap > 0)
    case SwapDirty => if s.dirty then s.(loop := Importing, dirty := false) else s
    case Import => s.(loop := Draining, heap := s.heap + s.timers, timers := 0)
    case CollectDue(due) => s.(local := s.local + due, heap := s.heap - due)
    case ScheduleTimer => s.(heap := s.heap + 1)
    case TakeLocal => s.(batch := s.local, local := 0)
    case SeeFlag => s.(loop := Merging)
    case Merge => s.(loop := ClearingFlag, batch := s.local + s.pending, local := 0, pending := 0)
    case ClearFlag => s.(loop := Draining, flag := false)
    case Execute(scheduled) => s.(batch := s.batch - 1, local := s.local + scheduled)
    case LeaveDrain => s.(loop := CheckingDirty)
    case CheckDirty => s.(loop := if s.dirty then Draining else CheckingWork)
    case CheckWork(cooldown) =>
      s.(loop := if s.batch > 0 || s.local > 0 || cooldown then PollingOnce else RootCheck)
    case SelfPush => s.(local := s.local + 1, flag := true, selfWaking := !s.flag)
    case SelfWake => Woken(s.(selfWaking := false))
    case AfterPoll => s.(loop := if s.batch > 0 || s.local > 0 || s.flag then Draining else RootCheck)
    case CheckFlag => s.(rootReady := false, loop := if s.flag then Draining else RootRegister)
    case Register => s.(registered := true, loop := RootRecheck)
    case RecheckFlag => s.(loop := if s.flag then Draining else Driven)
    case PollRoot => s.(loop := RootCheck)
    case EnterWait => s.(loop := DriverWait)
    case LeaveWait => s.(loop := Driven)
    case DeadlinePassed => s.(loop := Draining)
  }

  predicate Enabled(s: State, e: Step) {
    match e
    case ByProducer(p, act) => CanProduce(s, p, act)
    case ByLoop(move) => CanMove(s, move)
  }

  function Apply(s: State, e: Step): State
    requires Enabled(s, e)
  {
    match e
    case ByProducer(p, act) => Produce(s, p, act)
    case ByLoop(move) => Move(s, move)
  }

  function After(steps: seq<Step>): Option<State> {
    if steps == [] then Some(Init())
    else
      var prev := After(steps[..|steps| - 1]);
      var e := steps[|steps| - 1];
      if prev.Some? && Enabled(prev.value, e) then Some(Apply(prev.value, e)) else None
  }

  // ----- The invariant -----

  ghost predicate SomeMarking(s: State) {
    exists p :: At(s, p).MarkingDirty?
  }

  ghost predicate SomeSignalling(s: State) {
    exists p :: At(s, p).Signalling?
  }

  ghost predicate SomeWaking(s: State) {
    s.selfWaking || exists p :: At(s, p).Waking?
  }

  /** Past the check of the dirty flag. */
  predicate PastDirty(loop: LoopPc) {
    loop.CheckingWork? || loop.PollingOnce? || Parked(loop)
  }

  predicate Parked(loop: LoopPc) {
    loop.RootCheck? || loop.RootRegister? || loop.RootRecheck? || Asleep(loop)
  }

  predicate Asleep(loop: LoopPc) {
    loop.Driven? || loop.DriverWait?
  }

  /** Published work is announced: by the flag, or by a producer that has
      still to signal. */
  ghost predicate Announced(s: State) {
    && (s.pending > 0 ==> s.flag || SomeSignalling(s))
    && (s.loop.ClearingFlag? ==> s.pending == 0)
    && (s.timers > 0 ==> s.dirty || s.loop.Importing? || SomeMarking(s))
    && (PastDirty(s.loop) && s.dirty ==> s.flag || SomeSignalling(s))
  }

  /** A set flag reaches the park. */
  ghost predicate Delivered(s: State) {
    && (s.loop.RootRecheck? || Asleep(s.loop) ==> s.registered || s.rootReady)
    && (Asleep(s.loop) && s.flag ==> s.rootReady || SomeWaking(s))
    && (Parked(s.loop) ==> s.batch == 0)
    && (Asleep(s.loop) && s.local > 0 ==> s.flag)
    && (Parked(s.loop) && !Asleep(s.loop) && s.local > 0 ==> s.flag)
    && (s.selfWaking ==> s.loop.PollingOnce? || s.loop.Driven?)
  }

  ghost predicate Invariant(s: State) {
    Announced(s) && Delivered(s)
  }

  lemma OthersStay(s: State, s': State, p: nat)
    requires s'.producers == s.producers[p := At(s', p)]
    ensures forall q :: q != p ==> At(s', q) == At(s, q)
    ensures SomeMarking(s) && !At(s, p).MarkingDirty? ==> SomeMarking(s')
    ensures SomeSignalling(s) && !At(s, p).Signalling? ==> SomeSignalling(s')
    ensures SomeWaking(s) && !At(s, p).Waking? && s'.selfWaking == s.selfWaking ==> SomeWaking(s')
    ensures At(s', p).MarkingDirty? ==> SomeMarking(s')
    ensures At(s', p).Signalling? ==> SomeSignalling(s')
    ensures At(s', p).Waking? ==> SomeWaking(s')
  {
    assert forall q :: q != p ==> At(s', q) == At(s, q);
    if SomeMarking(s) && !At(s, p).MarkingDirty? {
      var q :| At(s, q).MarkingDirty?;
      assert At(s', q).MarkingDirty?;
    }
    if SomeSignalling(s) && !At(s, p).Signalling? {
      var q :| At(s, q).Signalling?;
      assert At(s', q).Signalling?;
    }
    if SomeWaking(s) && !At(s, p).Waking? && !s.selfWaking {
      var q :| At(s, q).Waking?;
      assert At(s', q).Waking?;
    }
  }

  lemma InvariantProduce(s: State, p: nat, e: ProducerStep)
    requires Invariant(s) && CanProduce(s, p, e)
    ensures Invariant(Produce(s, p, e))
  {
    OthersStay(s, Produce(s, p, e), p);
  }

  lemma SameProducers(s: State, s': State)
    requires s'.producers == s.producers
    ensures SomeMarking(s') == SomeMarking(s) && SomeSignalling(s') == SomeSignalling(s)
    ensures s'.selfWaking == s.selfWaking ==> SomeWaking(s') == SomeWaking(s)
  {
    assert forall q :: At(s', q) == At(s, q);
  }

  /** The steps of the drain, up to the checks that lead to the park. */
  predicate Drains(e: LoopStep) {
    || e.BeginRun? || e.EndRun? || e.SwapDirty? || e.Import? || e.CollectDue? || e.ScheduleTimer? || e.TakeLocal?
    || e.SeeFlag? || e.Merge? || e.ClearFlag? || e.Execute? || e.LeaveDrain? || e.CheckDirty?
  }

  lemma InvariantDrain(s: State, e: LoopStep)
    requires Invariant(s) && CanMove(s, e) && Drains(e)
    ensures Invariant(Move(s, e))
  {
    SameProducers(s, Move(s, e));
  }

  lemma AnnouncedPark(s: State, e: LoopStep)
    requires Invariant(s) && CanMove(s, e) && !Drains(e)
    ensures Announced(Move(s, e))
  {
    SameProducers(s, Move(s, e));
  }

  lemma DeliveredPark(s: State, e: LoopStep)
    requires Invariant(s) && CanMove(s, e) && !Drains(e)
    ensures Delivered(Move(s, e))
  {
    SameProducers(s, Move(s, e));
  }

  lemma InvariantMove(s: State, e: LoopStep)
    requires Invariant(s) && CanMove(s, e)
    ensures Invariant(Move(s, e))
  {
    if Drains(e) {
      InvariantDrain(s, e);
    } else {
      AnnouncedPark(s, e);
      DeliveredPark(s, e);
    }
  }

  lemma {:induction false} InvariantAfter(steps: seq<Step>)
    requires After(steps).Some?
    ensures Invariant(After(steps).value)
  {
    if steps != [] {
      InvariantAfter(steps[..|steps| - 1]);
      var s, e := After(steps[..|steps| - 1]).value, steps[|steps| - 1];
      match e
      case ByProducer(p, act) => InvariantProduce(s, p, act);
      case ByLoop(move) => InvariantMove(s, move);
    }
  }

  /** In every reachable state of the park, from its first look at the flag to
      the driver wait, the batch is empty, and an item in the loop thread's own
      queue came with a set flag. Once the park can sleep, it is notified of
      such an item, or a wake for it is under way. */
  lemma {:induction false} ParkedOnlyOnAnnouncedWork(steps: seq<Step>)
    requires After(steps).Some?
    ensures var s := After(steps).value;
            && (Parked(s.loop) ==> s.batch == 0 && (s.local > 0 ==> s.flag))
            && (Asleep(s.loop) && s.local > 0 ==> s.rootReady || SomeWaking(s))
  {
    InvariantAfter(steps);
  }

  /** How much the reactor's tasks have queued on the loop thread since it last
      entered the park. */
  function QueuedSincePark(steps: seq<Step>): (n: nat) {
    if steps == [] then 0
    else
      var before, e := QueuedSincePark(steps[..|steps| - 1]), steps[|steps| - 1];
      if e == ByLoop(SelfPush) then before + 1
      else if EntersPark(e) then 0
      else before
  }

  predicate EntersPark(e: Step) {
    e.ByLoop? && (e.move.CheckWork? || e.move.AfterPoll?)
  }

  lemma ParkedLocal(s: State, e: Step)
    requires Enabled(s, e) && Parked(Apply(s, e).loop)
    ensures if EntersPark(e) then Apply(s, e).local == 0
            else Parked(s.loop) && Apply(s, e).local == s.local + (if e == ByLoop(SelfPush) then 1 else 0)
  {
    if e.ByProducer? {
      ProducersLeaveLoop(s, e.p, e.act);
    } else {
      DrainIsNotParked(s, e.move);
      ParkLocal(s, e.move);
    }
  }

  lemma ProducersLeaveLoop(s: State, p: nat, e: ProducerStep)
    requires CanProduce(s, p, e)
    ensures Produce(s, p, e).loop == s.loop && Produce(s, p, e).local == s.local
  {
  }

  lemma ParkLocal(s: State, e: LoopStep)
    requires CanMove(s, e) && !Drains(e)
    ensures var s' := Move(s, e);
            if !Parked(s'.loop) then true
            else if e.CheckWork? || e.AfterPoll? then s'.local == 0
            else Parked(s.loop) && s'.local == s.local + (if e.SelfPush? then 1 else 0)
  {
  }

  lemma DrainIsNotParked(s: State, e: LoopStep)
    requires CanMove(s, e)
    ensures Drains(e) ==> !Parked(Move(s, e).loop)
  {
  }

  /** In the park the loop thread's own queue holds exactly that: it is empty if
      and only if no reactor task has queued anything since. */
  lemma {:induction false} ParkedLocalExactly(steps: seq<Step>)
    requires After(steps).Some? && Parked(After(steps).value.loop)
    ensures After(steps).value.local == QueuedSincePark(steps)
  {
    var before, e := steps[..|steps| - 1], steps[|steps| - 1];
    ParkedLocal(After(before).value, e);
    if !EntersPark(e) {
      ParkedLocalExactly(before);
    }
  }

  lemma Then(steps: seq<Step>, s: State, e: Step) returns (steps': seq<Step>, s': State)
    requires After(steps) == Some(s) && Enabled(s, e)
    ensures After(steps') == Some(s') && s' == Apply(s, e) && steps' == steps + [e]
  {
    steps', s' := steps + [e], Apply(s, e);
    assert steps'[..|steps|] == steps;
  }

  /** The parked loop thread's own queue need not be empty: a producer has set
      the flag and not woken yet, a reactor task queues an item and leaves the
      wake to that producer, and the thread blocks. */
  lemma BlockedWithLocalWork() returns (steps: seq<Step>, s: State)
    ensures After(steps) == Some(s)
    ensures s.loop.DriverWait? && s.local == 1 && !s.rootReady && At(s, 0).Waking?
  {
    steps, s := ReachesDriven();
    steps, s := SetsFlag(steps, s, 0);
    steps, s := QueuesAndBlocks(steps, s);
  }

  lemma SetsFlag(steps: seq<Step>, s: State, p: nat) returns (steps': seq<Step>, s': State)
    requires After(steps) == Some(s) && At(s, p).Away? && !s.flag
    ensures After(steps') == Some(s') && At(s', p).Waking?
    ensures s' == s.(flag := true, producers := s'.producers)
  {
    steps', s' := Then(steps, s, ByProducer(p, PushItems(0)));
    assert At(s', p).Signalling?;
    steps', s' := Then(steps', s', ByProducer(p, SwapFlag));
  }

  lemma QueuesAndBlocks(steps: seq<Step>, s: State) returns (steps': seq<Step>, s': State)
    requires After(steps) == Some(s) && s.flag && s.loop.Driven? && !s.rootReady && !s.selfWaking
    ensures After(steps') == Some(s') && s' == s.(local := s.local + 1, loop := DriverWait)
  {
    steps', s' := Then(steps, s, ByLoop(SelfPush));
    steps', s' := Then(steps', s', ByLoop(EnterWait));
  }

  lemma ReachesDriven() returns (steps: seq<Step>, s: State)
    ensures After(steps) == Some(s) && s == Init().(loop := Driven, registered := true)
  {
    steps, s := ReachesRootCheck();
    steps, s := Then(steps, s, ByLoop(CheckFlag));
    steps, s := Then(steps, s, ByLoop(Register));
    steps, s := Then(steps, s, ByLoop(RecheckFlag));
  }

  lemma ReachesRootCheck() returns (steps: seq<Step>, s: State)
    ensures After(steps) == Some(s) && s == Init().(loop := RootCheck)
  {
    steps, s := Then([], Init(), ByLoop(BeginRun));
    steps, s := Then(steps, s, ByLoop(LeaveDrain));
    steps, s := Then(steps, s, ByLoop(CheckDirty));
    steps, s := Then(steps, s, ByLoop(CheckWork(false)));
  }

  // ----- What is outstanding, read off the run alone -----

  /** Items pushed, collected and scheduled in the current run, less those
      executed. What is left at its end is handed back and not counted here. */
  function Work(steps: seq<Step>): (n: int) {
    if steps == [] then 0 else WorkNext(steps[|steps| - 1], Work(steps[..|steps| - 1]))
  }

  function WorkNext(e: Step, before: int): (n: int) {
    match e
    case ByProducer(_, act) => if act.PushItems? then before + act.n else before
    case ByLoop(move) =>
      match move
      case BeginRun => 0
      case EndRun => 0
      case CollectDue(due) => before + due
      case Execute(scheduled) => before + scheduled - 1
      case SelfPush => before + 1
      case _ => before
  }

  /** Timers scheduled on any thread, less those collected, over all runs. */
  function TimerWork(steps: seq<Step>): (n: int) {
    if steps == [] then 0 else TimerWork(steps[..|steps| - 1]) + TimersMore(steps[|steps| - 1])
  }

  function TimersMore(e: Step): (n: int) {
    match e
    case ByProducer(_, act) => if act.PushTimer? then 1 else 0
    case ByLoop(move) => if move.ScheduleTimer? then 1 else if move.CollectDue? then 0 - move.due else 0
  }

  /** Between runs nothing is queued, and a merge starts with an empty batch. */
  predicate Tidy(s: State) {
    && (s.loop.Stopped? ==> s.batch == 0 && s.local == 0 && s.pending == 0)
    && (s.loop.Merging? ==> s.batch == 0)
  }

  function Items(s: State): (n: nat) {
    s.batch + s.local + s.pending
  }

  lemma ProducedWork(s: State, p: nat, e: ProducerStep)
    requires Tidy(s) && CanProduce(s, p, e)
    ensures Tidy(Produce(s, p, e)) && Items(Produce(s, p, e)) == WorkNext(ByProducer(p, e), Items(s))
    ensures var s' := Produce(s, p, e);
            s'.timers + s'.heap == s.timers + s.heap + TimersMore(ByProducer(p, e))
  {
  }

  lemma MovedItems(s: State, e: LoopStep)
    requires Tidy(s) && CanMove(s, e)
    ensures Items(Move(s, e)) == WorkNext(ByLoop(e), Items(s))
  {
  }

  lemma MovedTidy(s: State, e: LoopStep)
    requires Tidy(s) && CanMove(s, e)
    ensures Tidy(Move(s, e))
  {
  }

  lemma MovedTimers(s: State, e: LoopStep)
    requires CanMove(s, e)
    ensures Move(s, e).timers + Move(s, e).heap == s.timers + s.heap + TimersMore(ByLoop(e))
  {
    if !Drains(e) {
      ParkLeavesTimers(s, e);
    }
  }

  lemma ParkLeavesTimers(s: State, e: LoopStep)
    requires CanMove(s, e) && !Drains(e)
    ensures Move(s, e).timers == s.timers && Move(s, e).heap == s.heap
  {
  }

  predicate Holds(s: State, work: int, timers: int) {
    Tidy(s) && Items(s) == work && s.timers + s.heap == timers
  }

  lemma StepKeepsWork(s: State, e: Step, work: int, timers: int)
    requires Holds(s, work, timers) && Enabled(s, e)
    ensures Holds(Apply(s, e), WorkNext(e, work), timers + TimersMore(e))
  {
    match e
    case ByProducer(p, act) => ProducedWork(s, p, act);
    case ByLoop(move) =>
      MovedItems(s, move);
      MovedTidy(s, move);
      MovedTimers(s, move);
  }

  /** Nothing is dropped: batch, local and off-thread queue hold exactly the
      outstanding items, and both timer heaps the outstanding timers. */
  lemma {:induction false} NothingDropped(steps: seq<Step>)
    requires After(steps).Some?
    ensures Holds(After(steps).value, Work(steps), TimerWork(steps))
  {
    if steps != [] {
      var before, e := steps[..|steps| - 1], steps[|steps| - 1];
      NothingDropped(before);
      StepKeepsWork(After(before).value, e, Work(before), TimerWork(before));
    }
  }

  /** The loop thread never sleeps on forgotten work. While it is blocked and
      not notified, any item outstanding (pushed by other threads, or scheduled
      by its own reactor tasks) belongs to a producer that has still to signal
      or wake, and so do dirty timers and a timer not in the run's own heap. */
  lemma {:induction false} NeverSleepsOnForgottenWork(steps: seq<Step>)
    requires After(steps).Some?
    ensures var s := After(steps).value;
            s.loop.DriverWait? && !s.rootReady ==>
              && s.batch == 0
              && (Work(steps) > 0 || s.dirty ==> SomeSignalling(s) || SomeWaking(s))
              && (TimerWork(steps) > s.heap ==> SomeMarking(s) || SomeSignalling(s) || SomeWaking(s))
  {
    InvariantAfter(steps);
    NothingDropped(steps);
  }

  /** Once it is notified, and the flag is set, it is back in its drain after at
      most four steps of its own. */
  lemma NotifiedParkDrains(steps: seq<Step>) returns (steps': seq<Step>)
    requires After(steps).Some?
    requires var s := After(steps).value; Asleep(s.loop) && s.rootReady && s.flag
    ensures steps <= steps' && |steps'| <= |steps| + 4 && After(steps').Some?
    ensures After(steps').value.loop.Draining? && Work(steps') == Work(steps)
  {
    InvariantAfter(steps);
    var s := After(steps).value;
    steps' := steps;
    if s.loop.DriverWait? {
      steps', s := Then(steps', s, ByLoop(LeaveWait));
    } else if s.selfWaking {
      steps', s := Then(steps', s, ByLoop(SelfWake));
    }
    steps', s := Then(steps', s, ByLoop(PollRoot));
    steps', s := Then(steps', s, ByLoop(CheckFlag));
    NothingDropped(steps);
    NothingDropped(steps');
  }

  /** The wake of a producer that set the flag while the loop thread is parked
      notifies the park. */
  lemma {:induction false} WakeReachesPark(steps: seq<Step>, p: nat)
    requires After(steps).Some? && At(After(steps).value, p).Waking? && Asleep(After(steps).value.loop)
    ensures Apply(After(steps).value, ByProducer(p, Wake)).rootReady
  {
    InvariantAfter(steps);
  }
}
