/** Accepted work gets on: every call ends with its item accepted, what is
    accepted runs once producers and callbacks add nothing new, and a run that
    ends returns. */
module ReadyProgress {
  import opened GenerationMerge
  import opened ReadyGate
  import opened ReadyOrder
  import opened ReadyProtocol
  import opened Sequences
  import opened Wrappers

  // ----- The dispatcher between its steps -----

  /** What was forwarded is no longer held, and direct pushes are let in from
      the end of the EnterRun to the retirement of the run. */
  predicate Settled(s: State) {
    && (s.disp.Releasing? || s.disp.Activating? ==> s.ready == [])
    && (s.active.Some? && s.activeRun.Some? && !Entering(s) ==> Accepting(s))
  }

  lemma SettledDispatcher(s: State, e: DispatcherStep)
    requires Control(s) && Settled(s) && CanDispatch(s, e)
    ensures Settled(Dispatcher(s, e))
  {
  }

  lemma SettledLoop(s: State, e: LoopStep)
    requires Control(s) && Settled(s) && CanLoop(s, e)
    ensures Settled(Loop(s, e))
  {
  }

  lemma SettledCall(s: State, p: nat, e: CallStep)
    requires Settled(s) && CanCall(s, p, e)
    ensures Settled(Call(s, p, e))
  {
  }

  lemma {:induction false} SettledAfter(steps: seq<Step>)
    requires After(steps).Some?
    ensures Settled(After(steps).value) && Control(After(steps).value)
  {
    EveryRunKeepsInvariant(steps);
    if steps != [] {
      var before, e := steps[..|steps| - 1], steps[|steps| - 1];
      SettledAfter(before);
      match e
      case ByProducer(p, call) => SettledCall(After(before).value, p, call);
      case ByDispatcher(move) => SettledDispatcher(After(before).value, move);
      case ByLoop(act) => SettledLoop(After(before).value, act);
    }
  }

  /** A direct push is accepted exactly while the dispatcher has the run and is
      done with its EnterRun, and the run is not retired. */
  lemma {:induction false} AcceptsExactly(steps: seq<Step>)
    requires After(steps).Some?
    ensures var s := After(steps).value;
            Accepting(s) <==> s.active.Some? && s.activeRun == Some(s.run) && !Entering(s)
  {
    SettledAfter(steps);
  }

  // ----- How far everything is from having run -----

  /** Steps of dispatcher and loop thread that bring nothing new and do not end
      the run. */
  predicate Onward(e: Step) {
    || e.ByDispatcher?
    || (e.ByLoop? && (e.act.NoteLocal? || e.act.TakeLocal? || e.act.TakeMerged? || e.act.Execute?))
  }

  function Rank(s: State): (n: nat) {
    match s.disp
    case Polling => if s.ready == [] then 0 else 4
    case Forwarding(_, _) => 3
    case Releasing(_, _) => 2
    case Activating(_) => 1
  }

  function Distance(s: State): (n: nat) {
    7 * |s.channel| + 2 * (|s.ready| + |Queue(s)| + |s.local|) + |s.batch| + Rank(s) + (if s.unnoted > 0 then 1 else 0)
  }

  /** A state of a run under way. */
  ghost predicate Underway(s: State) {
    Control(s) && Settled(s) && s.loop.Running?
  }

  lemma MergeLength<T>(local: seq<T>, taken: nat, pending: seq<Marked<T>>)
    ensures |Merge(local, taken, pending)| == |local| + |pending|
  {
    MergeConserves(local, taken, pending);
    assert |multiset(Merge(local, taken, pending))| == |multiset(local)| + |multiset(Items(pending))|;
  }

  lemma ReceiveNearer(s: State, e: DispatcherStep)
    requires Underway(s) && CanDispatch(s, e) && (e.ReceiveItem? || e.ReceiveEnter? || e.ReceiveFinish?)
    ensures Distance(Dispatcher(s, e)) < Distance(s)
  {
    if !e.ReceiveItem? {
      ControlsReceive(s.channel);
    }
  }

  lemma ForwardNearer(s: State)
    requires Underway(s) && CanDispatch(s, Forward)
    ensures Distance(DoForward(s)) < Distance(s)
  {
    if s.ready != [] {
      assert Queue(DoForward(s)) == Queue(s) + MarkAll(s.ready, s.disp.mark);
    }
  }

  lemma DispatchNearer(s: State, e: DispatcherStep)
    requires Underway(s) && CanDispatch(s, e)
    ensures Distance(Dispatcher(s, e)) < Distance(s)
  {
    if e.Forward? {
      ForwardNearer(s);
    } else if e.ReceiveItem? || e.ReceiveEnter? || e.ReceiveFinish? {
      ReceiveNearer(s, e);
    }
  }

  lemma LoopNearer(s: State, e: LoopStep)
    requires Underway(s) && CanLoop(s, e) && Onward(ByLoop(e))
    ensures Loop(s, e) == s || Distance(Loop(s, e)) < Distance(s)
  {
    if e.TakeMerged? {
      TakeMergedNearer(s);
    }
  }

  lemma TakeMergedNearer(s: State)
    requires Control(s) && CanLoop(s, TakeMerged)
    ensures DoTakeMerged(s) == s || Distance(DoTakeMerged(s)) < Distance(s)
  {
    MergeLength(s.local, s.taken, Queue(s));
    assert Queue(DoTakeMerged(s)) == [];
    if s.local == [] && Queue(s) == [] {
      assert s.queues[s.run := []] == s.queues;
    }
  }

  /** Each such step does nothing at all or brings the end nearer, and the run
      stays under way. */
  lemma OnwardNearer(s: State, e: Step)
    requires Underway(s) && Enabled(s, e) && Onward(e)
    ensures Apply(s, e) == s || Distance(Apply(s, e)) < Distance(s)
    ensures Underway(Apply(s, e))
  {
    match e
    case ByDispatcher(move) =>
      DispatchNearer(s, move);
      ControlDispatcher(s, move);
      SettledDispatcher(s, move);
      DispatcherFrame(s, move);
    case ByLoop(act) =>
      LoopNearer(s, act);
      ControlLoop(s, act);
      SettledLoop(s, act);
  }

  /** These steps are enabled in turn, are such steps, and each does something. */
  ghost predicate GoesOn(s: State, steps: seq<Step>)
    decreases |steps|
  {
    steps != [] ==>
      Onward(steps[0]) && Enabled(s, steps[0]) && Apply(s, steps[0]) != s && GoesOn(Apply(s, steps[0]), steps[1..])
  }

  /** No way of going on without new work takes more than `Distance` steps. */
  lemma {:induction false} GoesOnAtMost(s: State, steps: seq<Step>)
    requires Underway(s) && GoesOn(s, steps)
    ensures |steps| <= Distance(s)
    decreases |steps|
  {
    if steps != [] {
      OnwardNearer(s, steps[0]);
      GoesOnAtMost(Apply(s, steps[0]), steps[1..]);
    }
  }

  // ----- Everything accepted runs -----

  /** A step that does something, if there is any work left. */
  function NextStep(s: State): (e: Step) {
    if s.unnoted > 0 then ByLoop(NoteLocal)
    else if s.batch != [] then ByLoop(Execute)
    else if s.local != [] || Queue(s) != [] then ByLoop(TakeMerged)
    else if s.disp.Forwarding? then ByDispatcher(Forward)
    else if s.disp.Releasing? then ByDispatcher(Release)
    else if s.disp.Activating? then ByDispatcher(Activate)
    else if s.channel == [] then ByDispatcher(DispatchReady)
    else if s.channel[0].Schedule? then ByDispatcher(ReceiveItem)
    else if s.channel[0].EnterRun? then ByDispatcher(ReceiveEnter)
    else ByDispatcher(ReceiveFinish)
  }

  lemma NextStepNearer(s: State)
    requires Underway(s) && Distance(s) > 0
    ensures Enabled(s, NextStep(s)) && Onward(NextStep(s)) && Distance(Apply(s, NextStep(s))) < Distance(s)
  {
    var e := NextStep(s);
    if e == ByDispatcher(DispatchReady) {
      assert Controls(s.channel) == [] && s.ready != [];
    }
    OnwardNearer(s, e);
    if e == ByLoop(TakeMerged) {
      MergeLength(s.local, s.taken, Queue(s));
    }
  }

  /** With nothing left on the way, everything accepted has run. */
  lemma AllRan(s: State)
    requires Conserved(s) && Distance(s) == 0
    ensures forall x :: x in s.accepted ==> x in s.executed
  {
    assert Line(s) == s.executed;
    forall x | x in s.accepted ensures x in s.executed {
      assert multiset(s.accepted)[x] == 1;
      assert multiset(s.executed)[x] + multiset(s.local)[x] == 1;
    }
  }

  predicate OnlyOnward(steps: seq<Step>) {
    forall i :: 0 <= i < |steps| ==> Onward(steps[i])
  }

  /** What these steps lead to: the run goes on, and what it has accepted has
      run behind what had run before. */
  ghost predicate RunsAll(s: State, s': State) {
    && s'.accepted == s.accepted && s.executed <= s'.executed && s'.loop.Running?
    && forall x :: x in s.accepted ==> x in s'.executed
  }

  /** From every reachable state of a run under way, steps of dispatcher and
      loop thread, no more than `Distance`, execute everything accepted, with no
      new work and without ending the run. */
  lemma {:induction false} EverythingRuns(run: seq<Step>) returns (steps: seq<Step>)
    requires After(run).Some? && After(run).value.loop.Running?
    ensures |steps| <= Distance(After(run).value) && OnlyOnward(steps)
    ensures After(run + steps).Some? && RunsAll(After(run).value, After(run + steps).value)
    decreases Distance(After(run).value), 1
  {
    var s := After(run).value;
    SettledAfter(run);
    if Distance(s) == 0 {
      steps := [];
      RunsAlready(run);
    } else {
      NextStepNearer(s);
      OnwardNearer(s, NextStep(s));
      OnwardHistory(s, NextStep(s));
      var rest := RestRuns(run, s, NextStep(s));
      steps := [NextStep(s)] + rest;
    }
  }

  lemma RunsAlready(run: seq<Step>)
    requires After(run).Some? && After(run).value.loop.Running? && Distance(After(run).value) == 0
    ensures After(run + []).Some? && RunsAll(After(run).value, After(run + []).value)
  {
    EveryRunKeepsInvariant(run);
    AllRan(After(run).value);
    assert run + [] == run;
  }

  lemma RestRuns(run: seq<Step>, s: State, e: Step) returns (rest: seq<Step>)
    requires After(run) == Some(s) && Enabled(s, e) && Distance(Apply(s, e)) < Distance(s)
    requires Apply(s, e).loop.Running? && Apply(s, e).accepted == s.accepted && s.executed <= Apply(s, e).executed
    ensures |rest| <= Distance(Apply(s, e)) && OnlyOnward(rest)
    ensures After(run + ([e] + rest)).Some? && RunsAll(s, After(run + ([e] + rest)).value)
    decreases Distance(s), 0
  {
    More(run, s, e);
    rest := EverythingRuns(run + [e]);
    Reassociate(run, [e], rest);
  }

  lemma OnwardHistory(s: State, e: Step)
    requires Enabled(s, e) && Onward(e)
    ensures Apply(s, e).accepted == s.accepted && s.executed <= Apply(s, e).executed
  {
    match e
    case ByDispatcher(move) => DispatcherHistory(s, move);
    case ByLoop(act) => LoopHistory(s, act);
  }

  lemma DispatcherHistory(s: State, e: DispatcherStep)
    requires CanDispatch(s, e)
    ensures Dispatcher(s, e).accepted == s.accepted && Dispatcher(s, e).executed == s.executed
  {
  }

  lemma LoopHistory(s: State, e: LoopStep)
    requires CanLoop(s, e) && Onward(ByLoop(e))
    ensures Loop(s, e).accepted == s.accepted && s.executed <= Loop(s, e).executed
  {
  }

  // ----- A run that ends returns -----

  predicate Closing(loop: LoopPc) {
    loop.Ending? || loop.Retiring? || loop.Finishing? || loop.Awaiting?
  }

  function ClosingRank(loop: LoopPc): (n: nat) {
    match loop
    case Ending => 4
    case Retiring => 3
    case Finishing => 2
    case Awaiting => 1
    case _ => 0
  }

  function DispatchRank(disp: DispatcherPc): (n: nat) {
    match disp
    case Polling => 0
    case Forwarding(_, _) => 3
    case Releasing(_, _) => 2
    case Activating(_) => 1
  }

  function ToReturn(s: State): (n: nat) {
    8 * ClosingRank(s.loop) + (if s.acked then 0 else 4 * |s.channel| + DispatchRank(s.disp))
  }

  function ClosingStep(s: State): (e: Step)
    requires Closing(s.loop)
  {
    match s.loop
    case Ending => ByLoop(SaveLeftovers)
    case Retiring => ByLoop(Retire)
    case Finishing => ByLoop(SendFinish)
    case Awaiting =>
      if s.acked then ByLoop(ReturnFromRun)
      else
        match s.disp
        case Forwarding(_, _) => ByDispatcher(Forward)
        case Releasing(_, _) => ByDispatcher(Release)
        case Activating(_) => ByDispatcher(Activate)
        case Polling =>
          if s.channel == [] || s.channel[0].Schedule? then ByDispatcher(ReceiveItem)
          else if s.channel[0].EnterRun? then ByDispatcher(ReceiveEnter)
          else ByDispatcher(ReceiveFinish)
  }

  lemma ClosingNearer(s: State)
    requires Control(s) && Closing(s.loop)
    ensures Enabled(s, ClosingStep(s))
    ensures var s' := Apply(s, ClosingStep(s));
            && ToReturn(s') < ToReturn(s) && (s'.loop.Stopped? || Closing(s'.loop))
            && s'.executed == s.executed && s'.accepted == s.accepted
  {
    assert s.loop.Awaiting? && !s.acked ==> Controls(s.channel) != [];
  }

  predicate OnlyClosing(steps: seq<Step>) {
    forall i :: 0 <= i < |steps| ==>
      steps[i].ByDispatcher? ||
      (steps[i].ByLoop? && (steps[i].act.SaveLeftovers? || steps[i].act.Retire? || steps[i].act.SendFinish?
                            || steps[i].act.ReturnFromRun?))
  }

  predicate Returned(s: State, s': State) {
    s'.loop.Stopped? && s'.executed == s.executed && s'.accepted == s.accepted
  }

  /** From every reachable state in which a run is ending, a bounded list of
      steps of loop thread and dispatcher ends with the return, and nothing is
      executed or accepted on the way. */
  lemma {:induction false} EndingRunReturns(run: seq<Step>) returns (steps: seq<Step>)
    requires After(run).Some? && Closing(After(run).value.loop)
    ensures |steps| <= ToReturn(After(run).value) && OnlyClosing(steps)
    ensures After(run + steps).Some? && Returned(After(run).value, After(run + steps).value)
    decreases ToReturn(After(run).value), 1
  {
    var s := After(run).value;
    SettledAfter(run);
    ClosingNearer(s);
    var rest := RestReturns(run, s, ClosingStep(s));
    steps := [ClosingStep(s)] + rest;
  }

  lemma RestReturns(run: seq<Step>, s: State, e: Step) returns (rest: seq<Step>)
    requires After(run) == Some(s) && Enabled(s, e) && ToReturn(Apply(s, e)) < ToReturn(s)
    requires Apply(s, e).loop.Stopped? || Closing(Apply(s, e).loop)
    requires Apply(s, e).executed == s.executed && Apply(s, e).accepted == s.accepted
    ensures |rest| <= ToReturn(Apply(s, e)) && OnlyClosing(rest)
    ensures After(run + ([e] + rest)).Some? && Returned(s, After(run + ([e] + rest)).value)
    decreases ToReturn(s), 0
  {
    More(run, s, e);
    if Apply(s, e).loop.Stopped? {
      rest := [];
      assert [e] + [] == [e];
    } else {
      rest := EndingRunReturns(run + [e]);
      Reassociate(run, [e], rest);
    }
  }

  // ----- Every call ends with its item accepted -----

  /** The call of a producer ends with this step. */
  predicate Completes(s: State, e: Step)
    requires Enabled(s, e)
  {
    e.ByProducer? && Pc(Apply(s, e), e.p).Idle?
  }

  /** How many calls have ended, and how often the loop thread has queued an
      item of its own. */
  function Scheduled(steps: seq<Step>): (n: nat)
    requires After(steps).Some?
  {
    if steps == [] then 0
    else
      var before, e := steps[..|steps| - 1], steps[|steps| - 1];
      Scheduled(before) + (if e == ByLoop(PushLocal) || Completes(After(before).value, e) then 1 else 0)
  }

  lemma AcceptsCall(s: State, p: nat, e: CallStep)
    requires Known(s) && CanCall(s, p, e)
    ensures |Call(s, p, e).accepted| == |s.accepted| + (if Pc(Call(s, p, e), p).Idle? then 1 else 0)
  {
    var s' := Call(s, p, e);
    if e.SendHandle? || (e.TryDirect? && Accepting(s)) {
      assert s'.accepted == s.accepted + {OwnHandle(s, p)} && OwnHandle(s, p) !in s.accepted;
    } else if e.SendOther? || (e.TryOther? && Accepting(s)) {
      assert s'.accepted == s.accepted + {OwnOther(s, p)} && OwnOther(s, p) !in s.accepted;
    } else {
      CallUnderway(s, p, e);
    }
  }

  lemma CallUnderway(s: State, p: nat, e: CallStep)
    requires CanCall(s, p, e) && !e.SendHandle? && !e.SendOther? && ((e.TryDirect? || e.TryOther?) ==> !Accepting(s))
    ensures Call(s, p, e).accepted == s.accepted && !Pc(Call(s, p, e), p).Idle?
  {
  }

  lemma AcceptsLoop(s: State, e: LoopStep)
    requires Known(s) && CanLoop(s, e)
    ensures |Loop(s, e).accepted| == |s.accepted| + (if e.PushLocal? then 1 else 0)
  {
    if e.PushLocal? {
      assert Local(s.localEnqueues + s.unnoted) !in s.accepted;
    } else {
      LoopAcceptsNone(s, e);
    }
  }

  lemma LoopAcceptsNone(s: State, e: LoopStep)
    requires CanLoop(s, e) && !e.PushLocal?
    ensures Loop(s, e).accepted == s.accepted
  {
  }

  /** There are as many accepted items as calls that have ended and items the
      loop thread queued itself. */
  lemma {:induction false} EveryCallAccepted(steps: seq<Step>)
    requires After(steps).Some?
    ensures |After(steps).value.accepted| == Scheduled(steps)
  {
    if steps != [] {
      var before, e := steps[..|steps| - 1], steps[|steps| - 1];
      EveryCallAccepted(before);
      EveryRunKeepsInvariant(before);
      AcceptsStep(After(before).value, e);
    }
  }

  lemma AcceptsStep(s: State, e: Step)
    requires Known(s) && Enabled(s, e)
    ensures |Apply(s, e).accepted| == |s.accepted| + (if e == ByLoop(PushLocal) || Completes(s, e) then 1 else 0)
  {
    match e
    case ByProducer(p, call) => AcceptsCall(s, p, call);
    case ByDispatcher(move) => DispatcherHistory(s, move);
    case ByLoop(act) => AcceptsLoop(s, act);
  }

  function CallNext(pc: Producer): (e: CallStep)
    requires !pc.Idle?
  {
    match pc
    case Probing(_) => Probe
    case Direct(_) => TryDirect
    case Reserving(_) => Reserve
    case Sending(_) => SendHandle
    case OtherDirect(_) => TryOther
    case OtherSending(_) => SendOther
  }

  function CallRank(pc: Producer): (n: nat) {
    match pc
    case Idle => 0
    case Probing(_) => 4
    case Direct(_) => 3
    case Reserving(_) => 2
    case Sending(_) => 1
    case OtherDirect(_) => 2
    case OtherSending(_) => 1
  }

  lemma CallNearer(s: State, p: nat)
    requires !Pc(s, p).Idle?
    ensures CanCall(s, p, CallNext(Pc(s, p)))
    ensures CallRank(Pc(Call(s, p, CallNext(Pc(s, p))), p)) < CallRank(Pc(s, p))
  {
  }

  predicate OnlyOf(steps: seq<Step>, p: nat) {
    forall i :: 0 <= i < |steps| ==> steps[i].ByProducer? && steps[i].p == p
  }

  /** A call never waits: at most four steps of its own end it. */
  lemma {:induction false} CallEnds(run: seq<Step>, p: nat) returns (steps: seq<Step>)
    requires After(run).Some?
    ensures |steps| <= CallRank(Pc(After(run).value, p)) <= 4 && OnlyOf(steps, p)
    ensures After(run + steps).Some? && Pc(After(run + steps).value, p).Idle?
    decreases CallRank(Pc(After(run).value, p))
  {
    var s := After(run).value;
    if Pc(s, p).Idle? {
      steps := [];
      assert run + [] == run;
    } else {
      CallNearer(s, p);
      var e := ByProducer(p, CallNext(Pc(s, p)));
      More(run, s, e);
      var rest := CallEnds(run + [e], p);
      Reassociate(run, [e], rest);
      steps := [e] + rest;
    }
  }

  /** The short way: with no handle counted and the run accepting, a handle call
      puts its item at the end of the run's queue in two steps; otherwise it
      goes by the channel. */
  lemma DirectExactly(s: State, p: nat)
    requires Control(s) && Pc(s, p).Probing?
    ensures var direct := s.channelHandles == 0 && Accepting(s);
            var probed := Call(s, p, Probe);
            && (Pc(probed, p).Direct? <==> s.channelHandles == 0)
            && (s.channelHandles == 0 ==>
                  var s' := Call(probed, p, TryDirect);
                  && (Pc(s', p).Idle? <==> direct)
                  && Queue(s') == Queue(s) + (if direct then [Marked(OwnHandle(s, p), s.localEnqueues)] else []))
  {
    if s.channelHandles == 0 {
      var probed := Call(s, p, Probe);
      assert Pc(probed, p) == Direct(Pc(s, p).birth) && Queue(probed) == Queue(s);
    }
  }
}
