/** A woken task is polled: once no new wakes come, every way in which the
    runtime goes on leads to the poll, in a number of steps that what is queued
    bounds, and nothing ever gets ahead of the task (src/vibeio/executor.rs). */
module ExecutorProgress {
  import opened ExecutorTasks
  import opened Wrappers

  /** Steps of the runtime thread, and pushes of wakes already under way. */
  predicate Onward(e: Step) {
    !e.Spawn? && !e.WakeSwap? && !e.CancelDrop? && !e.CancelWake?
  }

  /** What the runtime thread does next. */
  function RuntimeStep(s: State): (e: Step) {
    if s.held.Some? then MarkDequeued
    else
      match s.phase
      case TakingSlot => if s.next.Some? then TakeNext else EndSlot
      case DrainingRemote(budget) => if budget > 0 && s.remote != [] then PopRemote else EndRemote
      case DrainingLocal(budget) => if budget > 0 && s.local != [] then PopLocal else EndLocal
      case Running =>
        if s.polling.Some? then
          if s.polling.value in s.tasks && s.tasks[s.polling.value].canceled then PollReady else PollPending
        else if s.batch != [] then PollBegin
        else NextTurn
  }

  /** The runtime thread never gets stuck. */
  lemma RuntimeGoesOn(s: State)
    requires Invariant(s) && Phased(s)
    ensures Enabled(s, RuntimeStep(s)) && Onward(RuntimeStep(s))
  {
    if s.held.Some? {
      assert s.held.value in Places(s);
    } else if s.polling.Some? {
      assert InSlab(s.tasks, s.slab, s.polling.value);
    } else if s.batch != [] {
      assert s.batch[0] in s.batch;
    }
  }

  // ----- How far the poll can be -----

  function Flag(b: bool): (n: nat) {
    if b then 1 else 0
  }

  /** Tasks in the fast slot, the remote queue and the local queue. */
  function Entries(s: State): (n: nat) {
    Flag(s.next.Some?) + |s.remote| + |s.local|
  }

  /** Phase changes from the beginning of a turn to its first pop. */
  function FromSlot(s: State): (n: nat) {
    if s.next.Some? then 0 else if s.remote != [] then 1 else 2
  }

  function FromLocal(s: State, budget: nat): (n: nat) {
    if budget > 0 && s.local != [] then 0 else 2 + FromSlot(s)
  }

  /** Phase changes until something is popped, or until the batch is polled if
      `t` is in it. */
  function Rank(s: State, t: nat): (n: nat)
    ensures n <= 5
  {
    if s.held.Some? then 0
    else if t in s.batch then
      match s.phase
      case TakingSlot => 3
      case DrainingRemote(_) => 2
      case DrainingLocal(_) => 1
      case Running => 0
    else
      match s.phase
      case TakingSlot => FromSlot(s)
      case DrainingRemote(budget) => if budget > 0 && s.remote != [] then 0 else 1 + FromLocal(s, budget)
      case DrainingLocal(budget) => FromLocal(s, budget)
      case Running => 1 + FromSlot(s)
  }

  /** An upper bound on the steps before the poll of `t`: it counts all that is
      queued, on any path, and all that is in hand. */
  function Distance(s: State, t: nat): (n: nat) {
    16 * |s.pushing| + 9 * Entries(s) + 8 * Flag(s.held.Some?) + 2 * |s.batch| + Flag(s.polling.Some?) + Rank(s, t)
  }

  /** `t` is in a queue, in hand or in the batch. */
  predicate Placed(s: State, t: nat) {
    t in s.batch || s.held == Some(t) || s.next == Some(t) || t in s.local || t in s.remote
  }

  /** Live, woken and not polled since. */
  predicate Awaits(s: State, t: nat) {
    Live(s, t) && t in s.due
  }

  predicate Polls(s: State, e: Step, t: nat)
    requires Enabled(s, e)
  {
    e.PollBegin? && s.batch[0] == t
  }

  /** The poll of `t` under way completes, and with it the task. */
  predicate Completes(s: State, e: Step, t: nat) {
    e.PollReady? && s.polling == Some(t)
  }

  /** `t` still awaits its poll, and is nearer. */
  ghost predicate Nearer(s: State, s': State, t: nat) {
    Awaits(s', t) && Placed(s', t) && Distance(s', t) < Distance(s, t)
  }

  /** Tokens and tasks agree. */
  ghost predicate Owned(s: State) {
    forall k :: k in s.slab ==> InSlab(s.tasks, s.slab, s.slab[k]) && s.tasks[s.slab[k]].token == k
  }

  lemma PollBeginNearer(s: State, t: nat)
    requires Owned(s) && Phased(s) && Awaits(s, t) && Placed(s, t) && Enabled(s, PollBegin) && s.batch[0] != t
    ensures Nearer(s, Apply(s, PollBegin), t)
  {
    if Live(s, s.batch[0]) {
      FreedOnce(s.tasks, s.slab, s.batch[0]);
    }
    assert t in s.batch ==> t in s.batch[1..];
  }

  lemma PollPendingNearer(s: State, t: nat)
    requires Awaits(s, t) && Placed(s, t) && Enabled(s, PollPending)
    ensures Nearer(s, Apply(s, PollPending), t)
  {
  }

  lemma PollReadyNearer(s: State, t: nat)
    requires Owned(s) && Awaits(s, t) && Placed(s, t) && Enabled(s, PollReady)
    requires s.polling != Some(t) && Live(s, s.polling.value)
    ensures Nearer(s, Apply(s, PollReady), t)
  {
    FreedOnce(s.tasks, s.slab, s.polling.value);
  }

  lemma MarkNearer(s: State, t: nat)
    requires Phased(s) && Awaits(s, t) && Placed(s, t) && Enabled(s, MarkDequeued)
    ensures Nearer(s, Apply(s, MarkDequeued), t)
  {
    var s' := Apply(s, MarkDequeued);
    assert s'.batch == s.batch + [s.held.value];
    assert s'.batch[|s.batch|] == s.held.value;
  }

  lemma PopNearer(s: State, e: Step, t: nat)
    requires Phased(s) && Awaits(s, t) && Placed(s, t) && Enabled(s, e) && (e.TakeNext? || e.PopLocal? || e.PopRemote?)
    ensures Nearer(s, Apply(s, e), t)
  {
    if e.PopLocal? {
      assert t in s.local ==> t == s.local[0] || t in s.local[1..];
    } else if e.PopRemote? {
      assert t in s.remote ==> t == s.remote[0] || t in s.remote[1..];
    }
  }

  lemma PhaseNearer(s: State, e: Step, t: nat)
    requires Phased(s) && Awaits(s, t) && Placed(s, t) && Enabled(s, e)
    requires e.EndSlot? || e.EndRemote? || e.EndLocal? || e.NextTurn?
    ensures Nearer(s, Apply(s, e), t)
  {
  }

  lemma PushNearer(s: State, e: Step, t: nat)
    requires Awaits(s, t) && Placed(s, t) && Enabled(s, e) && (e.PushLocal? || e.PushRemote?)
    ensures Nearer(s, Apply(s, e), t)
  {
    assert |s.pushing - multiset{e.t}| == |s.pushing| - 1;
  }

  lemma PollNearer(s: State, e: Step, t: nat)
    requires Invariant(s) && Phased(s) && Awaits(s, t) && Placed(s, t) && Enabled(s, e)
    requires e.PollBegin? || e.PollPending? || e.PollReady?
    ensures Polls(s, e, t) || Completes(s, e, t) || Nearer(s, Apply(s, e), t)
  {
    if e.PollPending? {
      PollPendingNearer(s, t);
    } else if e.PollBegin? && s.batch[0] != t {
      PollBeginNearer(s, t);
    } else if e.PollReady? && s.polling != Some(t) {
      assert InSlab(s.tasks, s.slab, s.polling.value);
      PollReadyNearer(s, t);
    }
  }

  /** Whatever the runtime and the wakes under way do next: `t` is polled, or
      its task completes, or the poll is nearer. */
  lemma OnwardNearer(s: State, e: Step, t: nat)
    requires Invariant(s) && Phased(s) && Awaits(s, t) && Placed(s, t) && Enabled(s, e) && Onward(e)
    ensures Polls(s, e, t) || Completes(s, e, t) || Nearer(s, Apply(s, e), t)
  {
    if e.PollBegin? || e.PollPending? || e.PollReady? {
      PollNearer(s, e, t);
    } else if e.MarkDequeued? {
      MarkNearer(s, t);
    } else if e.TakeNext? || e.PopLocal? || e.PopRemote? {
      PopNearer(s, e, t);
    } else if e.PushLocal? || e.PushRemote? {
      PushNearer(s, e, t);
    } else {
      PhaseNearer(s, e, t);
    }
  }

  // ----- The poll comes -----

  /** Steps without a new wake, enabled in turn, none of which polls `t` or
      completes its task. */
  predicate Spares(s: State, steps: seq<Step>, t: nat)
    decreases |steps|
  {
    steps != [] ==>
      && Onward(steps[0]) && Enabled(s, steps[0]) && !Polls(s, steps[0], t) && !Completes(s, steps[0], t)
      && Spares(Apply(s, steps[0]), steps[1..], t)
  }

  /** Once a woken live task is queued, no way of going on without new wakes can
      spare it for more than `Distance` steps. */
  lemma {:induction false} SparedAtMost(s: State, steps: seq<Step>, t: nat)
    requires Invariant(s) && Phased(s) && Awaits(s, t) && Placed(s, t) && Spares(s, steps, t)
    ensures |steps| <= Distance(s, t)
    decreases |steps|
  {
    if steps != [] {
      OnwardNearer(s, steps[0], t);
      InvariantStep(s, steps[0]);
      SparedAtMost(Apply(s, steps[0]), steps[1..], t);
    }
  }

  /** A poll of `t` under way that can only end with its task. */
  predicate Ending(s: State, t: nat) {
    s.polling == Some(t) && t in s.tasks && s.tasks[t].canceled
  }

  /** These steps are enabled in turn and end with the poll of `t`. */
  predicate LeadsToPoll(s: State, steps: seq<Step>, t: nat)
    decreases |steps|
  {
    && steps != [] && Enabled(s, steps[0])
    && if |steps| == 1 then Polls(s, steps[0], t) && Served(s, Apply(s, steps[0]), t)
       else LeadsToPoll(Apply(s, steps[0]), steps[1..], t)
  }

  /** The future of `t` is out for the poll; a task whose future was dropped is
      gone instead. */
  predicate Served(s: State, s': State, t: nat) {
    t in s.tasks && if s.tasks[t].future.Gone? then !Live(s', t) else s'.polling == Some(t)
  }

  /** A poll that reaches a live task does that. */
  lemma PollServes(s: State, t: nat)
    requires Invariant(s) && Enabled(s, PollBegin) && Polls(s, PollBegin, t) && Live(s, t)
    ensures Served(s, Apply(s, PollBegin), t)
  {
  }

  /** The runtime's own next steps are such a way. */
  lemma {:induction false} RuntimeLeadsToPoll(s: State, t: nat) returns (steps: seq<Step>)
    requires Invariant(s) && Phased(s) && Awaits(s, t) && Placed(s, t) && !Ending(s, t)
    ensures |steps| <= Distance(s, t) + 1 && LeadsToPoll(s, steps, t)
    decreases Distance(s, t)
  {
    var e := RuntimeStep(s);
    RuntimeGoesOn(s);
    if Polls(s, e, t) {
      PollServes(s, t);
      steps := [e];
    } else {
      OnwardNearer(s, e, t);
      InvariantStep(s, e);
      NotCompleting(s, t);
      NotEnding(s, e, t);
      var rest := RuntimeLeadsToPoll(Apply(s, e), t);
      steps := [e] + rest;
      assert steps[1..] == rest;
    }
  }

  lemma NotCompleting(s: State, t: nat)
    requires t in s.tasks && !Ending(s, t)
    ensures !Completes(s, RuntimeStep(s), t)
  {
  }

  lemma NotEnding(s: State, e: Step, t: nat)
    requires t in s.tasks && !Ending(s, t) && Enabled(s, e) && Onward(e) && !Polls(s, e, t)
    ensures !Ending(Apply(s, e), t)
  {
    if e.PollBegin? {
      OtherPolled(s, t);
    } else {
      SameCanceled(s, e, t);
    }
  }

  lemma OtherPolled(s: State, t: nat)
    requires Enabled(s, PollBegin) && s.batch[0] != t
    ensures Apply(s, PollBegin).polling != Some(t)
  {
  }

  lemma SameCanceled(s: State, e: Step, t: nat)
    requires t in s.tasks && Enabled(s, e) && Onward(e) && !e.PollBegin?
    ensures var s' := Apply(s, e);
            && t in s'.tasks && s'.tasks[t].canceled == s.tasks[t].canceled
            && (s'.polling == s.polling || s'.polling.None?)
  {
  }

  /** So the wake of a live task is followed by its poll, in every reachable
      state: after the push of its waker, if that is still to come, the
      runtime's steps lead to it. */
  lemma EveryWakeIsPolled(run: seq<Step>, t: nat) returns (steps: seq<Step>)
    requires After(run).Some? && Live(After(run).value, t) && WokenSince(run, t) && !Ending(After(run).value, t)
    ensures var s := After(run).value;
            |steps| <= Distance(s, t) + 1 && LeadsToPoll(s, steps, t)
  {
    InvariantAfter(run);
    DueExactly(run, t);
    var s := After(run).value;
    if Placed(s, t) {
      steps := RuntimeLeadsToPoll(s, t);
    } else {
      var e := PushRemote(t);
      AwaitsSomewhere(s, t);
      PushedPlaced(s, t);
      InvariantStep(s, e);
      var rest := RuntimeLeadsToPoll(Apply(s, e), t);
      steps := [e] + rest;
      assert steps[1..] == rest;
    }
  }

  lemma AwaitsSomewhere(s: State, t: nat)
    requires Invariant(s) && Awaits(s, t)
    ensures Placed(s, t) || t in s.pushing
  {
    if t !in s.batch {
      assert t in Places(s);
    }
  }

  lemma PushedPlaced(s: State, t: nat)
    requires Awaits(s, t) && !Ending(s, t) && t in s.pushing
    ensures Enabled(s, PushRemote(t))
    ensures var s' := Apply(s, PushRemote(t));
            Awaits(s', t) && !Ending(s', t) && Placed(s', t) && Distance(s', t) < Distance(s, t)
  {
    var s' := Apply(s, PushRemote(t));
    assert |s.pushing - multiset{t}| == |s.pushing| - 1;
    assert s'.remote[|s.remote|] == t;
  }

  /** The one exception: a task that cancelled itself in the poll under way
      ends with it. */
  lemma EndingEnds(s: State, t: nat)
    requires Invariant(s) && Ending(s, t)
    ensures Enabled(s, PollReady) && !Enabled(s, PollPending) && !Live(DoPollReady(s), t)
  {
    assert InSlab(s.tasks, s.slab, t);
  }

  // ----- Nothing gets ahead -----

  /** How many entries are ahead of `t`. */
  function Ahead(queue: seq<nat>, t: nat): (n: nat)
    ensures n <= |queue| && (t in queue ==> n < |queue| && queue[n] == t)
  {
    if queue == [] || queue[0] == t then 0 else 1 + Ahead(queue[1..], t)
  }

  lemma {:induction false} AheadConcat(queue: seq<nat>, more: seq<nat>, t: nat)
    ensures Ahead(queue + more, t) == if t in queue then Ahead(queue, t) else |queue| + Ahead(more, t)
  {
    if queue == [] {
      assert queue + more == more;
    } else {
      assert (queue + more)[1..] == queue[1..] + more;
      AheadConcat(queue[1..], more, t);
    }
  }

  /** `t` keeps its place or moves up in a queue. */
  predicate KeepsPlace(before: seq<nat>, after: seq<nat>, t: nat, popped: bool) {
    t in after && Ahead(after, t) + Flag(popped) == Ahead(before, t)
  }

  lemma QueueMoves(queue: seq<nat>, more: seq<nat>, t: nat)
    requires t in queue
    ensures KeepsPlace(queue, queue, t, false) && KeepsPlace(queue, queue + more, t, false)
    ensures queue[0] != t ==> KeepsPlace(queue, queue[1..], t, true)
  {
    AheadConcat(queue, more, t);
  }

  /** In every continuation: what is ahead of a task in the batch, in the local
      queue or in the remote queue never grows, and each poll or pop there
      makes it one less, until the task itself is polled or popped. */
  lemma NeverOvertaken(s: State, e: Step, t: nat)
    requires Enabled(s, e)
    ensures var s' := Apply(s, e);
            && (t in s.batch && !(e.PollBegin? && s.batch[0] == t) ==> KeepsPlace(s.batch, s'.batch, t, e.PollBegin?))
            && (t in s.local && !(e.PopLocal? && s.local[0] == t) ==> KeepsPlace(s.local, s'.local, t, e.PopLocal?))
            && (t in s.remote && !(e.PopRemote? && s.remote[0] == t) ==>
                  KeepsPlace(s.remote, s'.remote, t, e.PopRemote?))
  {
    BatchMoves(s, e, t);
    LocalMoves(s, e, t);
    RemoteMoves(s, e, t);
  }

  lemma BatchMoves(s: State, e: Step, t: nat)
    requires Enabled(s, e)
    ensures t in s.batch && !(e.PollBegin? && s.batch[0] == t) ==>
              KeepsPlace(s.batch, Apply(s, e).batch, t, e.PollBegin?)
  {
    if t in s.batch {
      BatchAfter(s, e);
      QueueMoves(s.batch, if e.MarkDequeued? then [s.held.value] else [], t);
    }
  }

  lemma BatchAfter(s: State, e: Step)
    requires Enabled(s, e)
    ensures Apply(s, e).batch == if e.PollBegin? then s.batch[1..]
                                 else if e.MarkDequeued? then s.batch + [s.held.value] else s.batch
  {
  }

  lemma LocalMoves(s: State, e: Step, t: nat)
    requires Enabled(s, e)
    ensures t in s.local && !(e.PopLocal? && s.local[0] == t) ==> KeepsPlace(s.local, Apply(s, e).local, t, e.PopLocal?)
  {
    if t in s.local {
      QueueMoves(s.local, if e.Spawn? || e.PushLocal? then [e.t] else [], t);
    }
  }

  lemma RemoteMoves(s: State, e: Step, t: nat)
    requires Enabled(s, e)
    ensures t in s.remote && !(e.PopRemote? && s.remote[0] == t) ==>
              KeepsPlace(s.remote, Apply(s, e).remote, t, e.PopRemote?)
  {
    if t in s.remote {
      QueueMoves(s.remote, if e.PushRemote? then [e.t] else [], t);
    }
  }

  /** Between the queues: a task about to be pushed, in the fast slot or in the
      drain's hand stays there until it moves on to the next place. */
  lemma NeverDropped(s: State, e: Step, t: nat)
    requires Live(s, t) && Enabled(s, e)
    ensures var s' := Apply(s, e);
            && (t in s.pushing ==> t in s'.pushing || t in s'.remote || s'.next == Some(t) || t in s'.local)
            && (s.next == Some(t) ==> s'.next == Some(t) || s'.held == Some(t))
            && (s.held == Some(t) ==> s'.held == Some(t) || t in s'.batch)
  {
    if t in s.pushing {
      PushingMoves(s, e, t);
    }
    if e.MarkDequeued? && s.held == Some(t) {
      assert Apply(s, e).batch[|s.batch|] == t;
    }
  }

  lemma PushingMoves(s: State, e: Step, t: nat)
    requires Live(s, t) && Enabled(s, e) && t in s.pushing
    ensures var s' := Apply(s, e);
            t in s'.pushing || t in s'.remote || s'.next == Some(t) || t in s'.local
  {
    if e == PushRemote(t) {
      assert Apply(s, e).remote[|s.remote|] == t;
    } else if e == PushLocal(t) {
      assert s.next.Some? ==> Apply(s, e).local[|s.local|] == t;
    }
  }
}
