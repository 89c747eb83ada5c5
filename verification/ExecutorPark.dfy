/** The park of the async runtime (`drive` in src/vibeio/executor.rs) against
    the wakers of other threads (`BlockOnNotify::notify` there and
    `TaskWake::enqueue_if_needed` in src/vibeio/task.rs).

    One step is one atomic action. Wakers come and go in any number and may be
    left over from an earlier park. A driver interrupt is sticky: it stays
    until a driver wait consumes it. */
module ExecutorPark {
  import opened Wrappers

  /** Where a waker stands inside one wake. */
  datatype Waker =
    | Away
    | Pushing(task: nat)  // set `queued`, before the push
    | Published           // before the load of `waiting`
    | Swapping            // saw `waiting`, before the swap of `interrupt_pending`
    | Interrupting        // before the driver interrupt

  /** Where the runtime thread stands. */
  datatype Runtime =
    | Outside             // no root future is being driven
    | TakingReady         // top of the drive loop
    | Collecting          // filling and running a batch
    | CheckingIdle        // the batch was empty
    | ClearingPending
    | SettingWaiting
    | CheckingRoot
    | CheckingQueues
    | SpinningTimer
    | Blocked             // inside the driver wait
    | StopWaiting         // before `waiting` is cleared
    | StopPending         // before `interrupt_pending` is cleared

  datatype State = State(
    rootReady: bool,
    queued: set<nat>,
    remote: seq<nat>,
    localWork: bool,      // fast slot or local queue is not empty
    waiting: bool,
    interruptPending: bool,
    token: bool,          // the driver's interrupt
    rt: Runtime,
    wakers: map<nat, Waker>)

  function Init(): State {
    State(true, {}, [], false, false, false, false, Outside, map[])
  }

  function At(s: State, w: nat): Waker {
    if w in s.wakers then s.wakers[w] else Away
  }

  datatype WakerStep = NotifyRoot | WakeTask(task: nat) | Push | LoadWaiting | SwapPending | Interrupt

  datatype RuntimeStep =
    | EnterDrive
    | PollOnce(consume: bool, popped: nat)       // a non-parking turn of an embedding loop
    | LeaveDrive
    | TakeReady
    | LocalWake(root: bool)                      // a wake on the runtime thread itself
    | PopRemote
    | RunLocal                                   // drains the fast slot and the local queue
    | NextTurn
    | FoundEmpty
    | CheckIdle | ClearPending | SetWaiting | CheckRoot | CheckQueues
    | SpinTimer(woken: bool)
    | WaitReturns(byToken: bool, localWork: bool) // interrupt, or timeout or I/O
    | ClearWaiting | ResetPending

  datatype Step = ByWaker(w: nat, wake: WakerStep) | ByRuntime(act: RuntimeStep)

  predicate CanWake(s: State, w: nat, e: WakerStep) {
    match e
    case NotifyRoot => At(s, w).Away?
    case WakeTask(_) => At(s, w).Away?
    case Push => At(s, w).Pushing?
    case LoadWaiting => At(s, w).Published?
    case SwapPending => At(s, w).Swapping?
    case Interrupt => At(s, w).Interrupting?
  }

  function To(s: State, w: nat, pc: Waker): State {
    s.(wakers := s.wakers[w := pc])
  }

  function Wake(s: State, w: nat, e: WakerStep): State
    requires CanWake(s, w, e)
  {
    match e
    case NotifyRoot => To(s, w, Published).(rootReady := true)
    case WakeTask(t) =>
      if t in s.queued then To(s, w, Published)
      else To(s, w, Pushing(t)).(queued := s.queued + {t})
    case Push => To(s, w, Published).(remote := s.remote + [At(s, w).task])
    case LoadWaiting => To(s, w, if s.waiting then Swapping else Away)
    case SwapPending => To(s, w, if s.interruptPending then Away else Interrupting).(interruptPending := true)
    case Interrupt => To(s, w, Away).(token := true)
  }

  predicate CanRun(s: State, e: RuntimeStep) {
    match e
    case EnterDrive => s.rt.Outside?
    case PollOnce(_, popped) => s.rt.Outside? && popped <= |s.remote|
    case LeaveDrive => s.rt.TakingReady? || s.rt.Collecting?
    case TakeReady => s.rt.TakingReady?
    case LocalWake(_) => s.rt.Outside? || s.rt.Collecting?
    case PopRemote => s.rt.Collecting? && s.remote != []
    case RunLocal => s.rt.Collecting?
    case NextTurn => s.rt.Collecting?
    case FoundEmpty => s.rt.Collecting?
    case CheckIdle => s.rt.CheckingIdle?
    case ClearPending => s.rt.ClearingPending?
    case SetWaiting => s.rt.SettingWaiting?
    case CheckRoot => s.rt.CheckingRoot?
    case CheckQueues => s.rt.CheckingQueues?
    case SpinTimer(_) => s.rt.SpinningTimer?
    case WaitReturns(byToken, _) => s.rt.Blocked? && (byToken ==> s.token)
    case ClearWaiting => s.rt.StopWaiting?
    case ResetPending => s.rt.StopPending?
  }

  function Run(s: State, e: RuntimeStep): State
    requires CanRun(s, e)
  {
    match e
    case EnterDrive => s.(rt := TakingReady, rootReady := true)
    case PollOnce(consume, popped) =>
      s.(token := s.token && !consume, remote := s.remote[popped..],
         queued := s.queued - (set t | t in s.remote[..popped]))
    case LeaveDrive => s.(rt := Outside)
    case TakeReady => s.(rt := Collecting, rootReady := false)
    case LocalWake(root) => s.(rootReady := s.rootReady || root, localWork := s.localWork || !root)
    case PopRemote => s.(remote := s.remote[1..], queued := s.queued - {s.remote[0]})
    case RunLocal => s.(localWork := false)
    case NextTurn => s.(rt := TakingReady)
    case FoundEmpty => s.(rt := CheckingIdle)
    case CheckIdle => s.(rt := if s.rootReady then TakingReady else ClearingPending)
    case ClearPending => s.(rt := SettingWaiting, interruptPending := false)
    case SetWaiting => s.(rt := CheckingRoot, waiting := true)
    case CheckRoot => s.(rt := if s.rootReady then StopWaiting else CheckingQueues)
    case CheckQueues => s.(rt := if s.localWork || s.remote != [] then StopWaiting else SpinningTimer)
    case SpinTimer(woken) =>
      if woken then s.(rt := StopWaiting, localWork := true) else s.(rt := Blocked)
    case WaitReturns(byToken, localWork) =>
      s.(rt := StopWaiting, token := s.token && !byToken, localWork := localWork)
    case ClearWaiting => s.(rt := StopPending, waiting := false)
    case ResetPending => s.(rt := TakingReady, interruptPending := false)
  }

  predicate Enabled(s: State, e: Step) {
    match e
    case ByWaker(w, wake) => CanWake(s, w, wake)
    case ByRuntime(act) => CanRun(s, act)
  }

  function Apply(s: State, e: Step): State
    requires Enabled(s, e)
  {
    match e
    case ByWaker(w, wake) => Wake(s, w, wake)
    case ByRuntime(act) => Run(s, act)
  }

  /** The state after `steps` from `s`, if every step is enabled in turn. */
  function Follow(s: State, steps: seq<Step>): Option<State> {
    if steps == [] then Some(s)
    else
      var prev := Follow(s, steps[..|steps| - 1]);
      var e := steps[|steps| - 1];
      if prev.Some? && Enabled(prev.value, e) then Some(Apply(prev.value, e)) else None
  }

  // ----- No missed wake -----

  predicate Mid(pc: Waker) {
    pc.Published? || pc.Swapping? || pc.Interrupting?
  }

  /** An interrupt is outstanding, or a waker is on its way to one. */
  ghost predicate Helped(s: State) {
    s.token || exists w :: Mid(At(s, w))
  }

  ghost predicate InterruptOnItsWay(s: State) {
    s.token || exists w :: At(s, w).Interrupting?
  }

  ghost predicate Invariant(s: State) {
    && (s.rt.CheckingRoot? || s.rt.CheckingQueues? || s.rt.SpinningTimer? || s.rt.Blocked? ==> s.waiting)
    && (s.rt.SettingWaiting? || s.rt.CheckingRoot? || s.rt.CheckingQueues? || s.rt.SpinningTimer? || s.rt.Blocked? ==>
          s.interruptPending ==> InterruptOnItsWay(s))
    && (s.rt.CheckingQueues? || s.rt.SpinningTimer? || s.rt.Blocked? ==> s.rootReady ==> Helped(s))
    && (s.rt.SpinningTimer? || s.rt.Blocked? ==> !s.localWork && (s.remote != [] ==> Helped(s)))
  }

  lemma OthersStay(s: State, s': State, w: nat)
    requires s'.wakers == s.wakers[w := At(s', w)]
    ensures forall v :: v != w ==> At(s', v) == At(s, v)
  {
  }

  lemma KeepsInterrupt(s: State, w: nat, e: WakerStep)
    requires CanWake(s, w, e) && (s.interruptPending ==> InterruptOnItsWay(s))
    ensures Wake(s, w, e).interruptPending ==> InterruptOnItsWay(Wake(s, w, e))
  {
    var s' := Wake(s, w, e);
    OthersStay(s, s', w);
    assert e.SwapPending? && !s.interruptPending ==> At(s', w).Interrupting?;
    if s.interruptPending && !s'.token {
      var v :| At(s, v).Interrupting?;
      assert At(s', v).Interrupting?;
    }
  }

  lemma KeepsHelp(s: State, w: nat, e: WakerStep)
    requires CanWake(s, w, e) && s.waiting && Helped(s) && (s.interruptPending ==> InterruptOnItsWay(s))
    ensures Helped(Wake(s, w, e))
  {
    var s' := Wake(s, w, e);
    OthersStay(s, s', w);
    if !s'.token && !Mid(At(s', w)) {
      var v :| Mid(At(s, v));
      if v == w {
        // The swap found the flag set, so another waker is about to interrupt.
        var u :| At(s, u).Interrupting?;
        assert Mid(At(s', u));
      } else {
        assert Mid(At(s', v));
      }
    } else {
      assert s'.token || Mid(At(s', w));
    }
  }

  lemma InvariantWake(s: State, w: nat, e: WakerStep)
    requires Invariant(s) && CanWake(s, w, e)
    ensures Invariant(Wake(s, w, e))
  {
    var s' := Wake(s, w, e);
    if s.interruptPending ==> InterruptOnItsWay(s) {
      KeepsInterrupt(s, w, e);
      if s.waiting && Helped(s) {
        KeepsHelp(s, w, e);
      }
    }
    if e.NotifyRoot? || e.Push? {
      assert Mid(At(s', w));
    }
  }

  /** The steps from clearing the pending flag to the wait. */
  predicate Parking(e: RuntimeStep) {
    e.ClearPending? || e.SetWaiting? || e.CheckRoot? || e.CheckQueues? || e.SpinTimer?
  }

  lemma InvariantParking(s: State, e: RuntimeStep)
    requires Invariant(s) && CanRun(s, e) && Parking(e)
    ensures Invariant(Run(s, e))
  {
    var s' := Run(s, e);
    assert forall w :: At(s', w) == At(s, w);
    assert Helped(s) ==> Helped(s');
  }

  /** The other steps lead to a state in which the runtime does not park. */
  lemma InvariantAwake(s: State, e: RuntimeStep)
    requires CanRun(s, e) && !Parking(e)
    ensures Invariant(Run(s, e))
  {
  }

  lemma InvariantRun(s: State, e: RuntimeStep)
    requires Invariant(s) && CanRun(s, e)
    ensures Invariant(Run(s, e))
  {
    if Parking(e) {
      InvariantParking(s, e);
    } else {
      InvariantAwake(s, e);
    }
  }

  lemma {:induction false} InvariantFollow(steps: seq<Step>)
    requires Follow(Init(), steps).Some?
    ensures Invariant(Follow(Init(), steps).value)
  {
    if steps != [] {
      InvariantFollow(steps[..|steps| - 1]);
      var s, e := Follow(Init(), steps[..|steps| - 1]).value, steps[|steps| - 1];
      match e
      case ByWaker(w, wake) => InvariantWake(s, w, wake);
      case ByRuntime(act) => InvariantRun(s, act);
    }
  }

  // ----- What is owed, read off the run alone -----

  /** The root was notified, or is new, and was not polled since. */
  predicate Notified(steps: seq<Step>) {
    steps == [] || NotifiedNext(steps[|steps| - 1], Notified(steps[..|steps| - 1]))
  }

  predicate NotifiedNext(e: Step, before: bool) {
    match e
    case ByWaker(_, wake) => wake.NotifyRoot? || before
    case ByRuntime(act) => act.EnterDrive? || act == LocalWake(true) || (before && !act.TakeReady?)
  }

  /** How many tasks wakers have pushed and the runtime has not popped. */
  function Owed(steps: seq<Step>): (n: int) {
    if steps == [] then 0 else Owed(steps[..|steps| - 1]) + OwedMore(steps[|steps| - 1])
  }

  function OwedMore(e: Step): (n: int) {
    match e
    case ByWaker(_, wake) => if wake.Push? then 1 else 0
    case ByRuntime(act) => if act.PopRemote? then -1 else if act.PollOnce? then 0 - act.popped else 0
  }

  /** The runtime thread itself woke a task, and has not run its own queues
      since. */
  predicate LocallyOwed(steps: seq<Step>) {
    steps != [] && LocallyNext(steps[|steps| - 1], LocallyOwed(steps[..|steps| - 1]))
  }

  predicate LocallyNext(e: Step, before: bool) {
    match e
    case ByWaker(_, _) => before
    case ByRuntime(act) =>
      || act == LocalWake(false) || act == SpinTimer(true) || (act.WaitReturns? && act.localWork)
      || (before && !act.RunLocal?)
  }

  lemma PublishedWake(s: State, w: nat, e: WakerStep)
    requires CanWake(s, w, e)
    ensures var s' := Wake(s, w, e);
            && s'.rootReady == NotifiedNext(ByWaker(w, e), s.rootReady)
            && |s'.remote| == |s.remote| + OwedMore(ByWaker(w, e))
  {
  }

  lemma WakersLeaveRest(s: State, w: nat, e: WakerStep)
    requires CanWake(s, w, e)
    ensures var s' := Wake(s, w, e);
            s'.localWork == s.localWork && s'.rt == s.rt && s.remote <= s'.remote
  {
  }

  lemma PublishedRoot(s: State, e: RuntimeStep)
    requires CanRun(s, e)
    ensures Run(s, e).rootReady == NotifiedNext(ByRuntime(e), s.rootReady)
  {
  }

  lemma PublishedTasks(s: State, e: RuntimeStep)
    requires CanRun(s, e)
    ensures |Run(s, e).remote| == |s.remote| + OwedMore(ByRuntime(e))
  {
  }

  lemma PublishedLocal(s: State, e: RuntimeStep)
    requires CanRun(s, e) && (s.rt.Blocked? ==> !s.localWork)
    ensures Run(s, e).localWork == LocallyNext(ByRuntime(e), s.localWork)
  {
  }

  /** Flag, queue and local work are what is owed: no step drops any of it. */
  lemma {:induction false} OwedIsPublished(steps: seq<Step>)
    requires Follow(Init(), steps).Some?
    ensures var s := Follow(Init(), steps).value;
            s.rootReady == Notified(steps) && |s.remote| == Owed(steps) && s.localWork == LocallyOwed(steps)
  {
    if steps != [] {
      var before, e := steps[..|steps| - 1], steps[|steps| - 1];
      OwedIsPublished(before);
      InvariantFollow(before);
      match e
      case ByWaker(w, wake) =>
        PublishedWake(Follow(Init(), before).value, w, wake);
        WakersLeaveRest(Follow(Init(), before).value, w, wake);
      case ByRuntime(act) =>
        PublishedRoot(Follow(Init(), before).value, act);
        PublishedTasks(Follow(Init(), before).value, act);
        PublishedLocal(Follow(Init(), before).value, act);
    }
  }

  /** In no reachable state is the runtime blocked in the driver wait with a
      root notified and not polled since or a task pushed and not popped, no
      interrupt outstanding and no waker on its way to one; and never with
      local work at all. */
  lemma {:induction false} NoMissedWake(steps: seq<Step>)
    requires Follow(Init(), steps).Some?
    ensures var s := Follow(Init(), steps).value;
            s.rt.Blocked? ==> !LocallyOwed(steps) && (Notified(steps) || Owed(steps) > 0 ==> Helped(s))
    ensures var s := Follow(Init(), steps).value;
            s.rt.Blocked? ==> !s.localWork && (s.rootReady || s.remote != [] ==> Helped(s))
  {
    InvariantFollow(steps);
    OwedIsPublished(steps);
  }

  predicate OnlyWakers(steps: seq<Step>) {
    forall i :: 0 <= i < |steps| ==> steps[i].ByWaker?
  }

  lemma FollowOne(s: State, e: Step)
    requires Enabled(s, e)
    ensures Follow(s, [e]) == Some(Apply(s, e))
  {
    assert [e][..0] == [];
    assert Follow(s, []) == Some(s);
  }

  lemma FollowMore(s: State, steps: seq<Step>, e: Step)
    requires Follow(s, steps).Some? && Enabled(Follow(s, steps).value, e)
    ensures Follow(s, steps + [e]) == Some(Apply(Follow(s, steps).value, e))
  {
    assert (steps + [e])[..|steps|] == steps;
  }

  /** A runtime blocked on published work gets its interrupt within three
      steps of wakers already under way, with no step of its own. */
  lemma HelpArrives(s: State) returns (steps: seq<Step>)
    requires Invariant(s) && s.rt.Blocked? && (s.rootReady || s.remote != [])
    ensures |steps| <= 3 && OnlyWakers(steps)
    ensures Follow(s, steps).Some? && Follow(s, steps).value.token
  {
    if s.token {
      return [];
    }
    assert Helped(s);
    if w :| At(s, w).Interrupting? {
      InterruptComes(s, [], w);
      return [] + [ByWaker(w, Interrupt)];
    }
    var w :| Mid(At(s, w));
    if At(s, w).Published? {
      FollowOne(s, ByWaker(w, LoadWaiting));
      steps := SwapComes(s, [ByWaker(w, LoadWaiting)], w);
    } else {
      steps := SwapComes(s, [], w);
    }
  }

  /** And then the runtime is back at its loop in four steps of its own: it polls
      the root, and the pushed tasks are there to be popped. */
  lemma HelpServes(s: State) returns (steps: seq<Step>)
    requires Invariant(s) && s.rt.Blocked? && (s.rootReady || s.remote != [])
    ensures |steps| <= 7 && steps != [] && steps[|steps| - 1] == ByRuntime(TakeReady)
    ensures Follow(s, steps).Some? && Follow(s, steps).value.rt.Collecting?
    ensures forall i :: 0 <= i < |steps| - 4 ==> steps[i].ByWaker?
    ensures s.remote <= Follow(s, steps).value.remote
  {
    var help := HelpArrives(s);
    WakersLeaveRuntime(s, help);
    steps := Awakes(s, help);
  }

  lemma Awakes(s: State, help: seq<Step>) returns (steps: seq<Step>)
    requires Follow(s, help).Some? && Follow(s, help).value.rt.Blocked? && Follow(s, help).value.token
    ensures |steps| == |help| + 4 && help < steps && steps[|steps| - 1] == ByRuntime(TakeReady)
    ensures Follow(s, steps).Some? && Follow(s, steps).value.rt.Collecting?
    ensures Follow(s, steps).value.remote == Follow(s, help).value.remote
  {
    FollowMore(s, help, ByRuntime(WaitReturns(true, false)));
    steps := help + [ByRuntime(WaitReturns(true, false))];
    FollowMore(s, steps, ByRuntime(ClearWaiting));
    steps := steps + [ByRuntime(ClearWaiting)];
    FollowMore(s, steps, ByRuntime(ResetPending));
    steps := steps + [ByRuntime(ResetPending)];
    FollowMore(s, steps, ByRuntime(TakeReady));
    steps := steps + [ByRuntime(TakeReady)];
  }

  lemma {:induction false} WakersLeaveRuntime(s: State, steps: seq<Step>)
    requires Follow(s, steps).Some? && OnlyWakers(steps)
    ensures Follow(s, steps).value.rt == s.rt && s.remote <= Follow(s, steps).value.remote
  {
    if steps != [] {
      var before, e := steps[..|steps| - 1], steps[|steps| - 1];
      WakersLeaveRuntime(s, before);
      WakersLeaveRest(Follow(s, before).value, e.w, e.wake);
    }
  }

  lemma InterruptComes(s: State, steps: seq<Step>, w: nat)
    requires Follow(s, steps).Some? && At(Follow(s, steps).value, w).Interrupting?
    ensures Follow(s, steps + [ByWaker(w, Interrupt)]).Some?
    ensures Follow(s, steps + [ByWaker(w, Interrupt)]).value.token
  {
    FollowMore(s, steps, ByWaker(w, Interrupt));
  }

  lemma SwapComes(s: State, steps: seq<Step>, w: nat) returns (steps': seq<Step>)
    requires Follow(s, steps).Some? && |steps| <= 1 && OnlyWakers(steps)
    requires At(Follow(s, steps).value, w).Swapping? && !Follow(s, steps).value.interruptPending
    ensures |steps'| <= 3 && OnlyWakers(steps')
    ensures Follow(s, steps').Some? && Follow(s, steps').value.token
  {
    var next := steps + [ByWaker(w, SwapPending)];
    FollowMore(s, steps, ByWaker(w, SwapPending));
    InterruptComes(s, next, w);
    steps' := next + [ByWaker(w, Interrupt)];
  }
}
