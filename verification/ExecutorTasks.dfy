/** Tasks of the async runtime: the `queued` flag, the three ready queues and
    the slab of tokens (src/vibeio/executor.rs and src/vibeio/task.rs).

    One step is one atomic action. Wakes come from any thread; what only the
    runtime thread touches moves with that thread's steps. A turn of the
    runtime collects a batch (fast slot, remote queue, local queue, at most 256
    tasks) and then polls it. */
module ExecutorTasks {
  import opened Wrappers

  /** A task's future: in its slot, out for a poll, or dropped. */
  datatype Future = Stored | Polled | Gone

  datatype Task = Task(token: nat, queued: bool, future: Future, canceled: bool)

  const TASK_BATCH_SIZE: nat := 256

  /** Where the runtime thread is in its turn; `budget` is what the batch may
      still take. */
  datatype Phase =
    | TakingSlot
    | DrainingRemote(budget: nat)
    | DrainingLocal(budget: nat)
    | Running                      // polls the batch, then begins another turn

  datatype State = State(
    phase: Phase,
    tasks: map<nat, Task>,
    slab: map<nat, nat>,     // token to task
    next: Option<nat>,       // the fast slot
    local: seq<nat>,
    remote: seq<nat>,
    held: Option<nat>,       // popped by the drain, flag not cleared yet
    pushing: multiset<nat>,  // wakes between flag swap and push
    batch: seq<nat>,
    polling: Option<nat>,
    cancelling: multiset<nat>,  // cancels that dropped the future, before their wake
    // history: woken and not polled since, and whose token was freed
    due: set<nat>,
    freed: multiset<nat>)

  function Init(): State {
    State(Running, map[], map[], None, [], [], None, multiset{}, [], None, multiset{}, {}, multiset{})
  }

  datatype Step =
    | Spawn(t: nat, token: nat)
    | WakeSwap(t: nat)        // any thread
    | PushRemote(t: nat)      // a wake off the runtime thread, or one that cannot borrow
    | PushLocal(t: nat)       // a wake on the runtime thread
    | CancelDrop(t: nat)      // dropping the future runs its destructors
    | CancelWake(t: nat)
    | TakeNext | PopLocal | PopRemote
    | MarkDequeued
    | PollBegin | PollPending | PollReady
    | EndSlot | EndRemote | EndLocal | NextTurn

  /** The slab still holds the task under its token. */
  predicate InSlab(tasks: map<nat, Task>, slab: map<nat, nat>, t: nat) {
    t in tasks && tasks[t].token in slab && slab[tasks[t].token] == t
  }

  predicate Live(s: State, t: nat) {
    InSlab(s.tasks, s.slab, t)
  }

  /** What a step needs apart from its time in the turn. */
  predicate Possible(s: State, e: Step) {
    match e
    case Spawn(t, token) => t !in s.tasks && token !in s.slab
    case WakeSwap(t) => t in s.tasks
    case PushRemote(t) => t in s.pushing
    case PushLocal(t) => t in s.pushing && t in s.tasks
    case CancelDrop(t) => t in s.tasks
    case CancelWake(t) => t in s.cancelling && t in s.tasks
    case TakeNext => s.held.None? && s.next.Some?
    case PopLocal => s.held.None? && s.local != []
    case PopRemote => s.held.None? && s.remote != []
    case MarkDequeued => s.held.Some? && s.held.value in s.tasks
    case PollBegin => s.polling.None? && s.batch != [] && s.batch[0] in s.tasks
    case PollPending => s.polling.Some? && s.polling.value in s.tasks && !s.tasks[s.polling.value].canceled
    case PollReady => s.polling.Some? && s.polling.value in s.tasks && s.tasks[s.polling.value].token in s.slab
    case EndSlot => s.held.None? && s.next.None?
    case EndRemote => s.held.None?
    case EndLocal => s.held.None?
    case NextTurn => s.batch == [] && s.polling.None?
  }

  /** When in a turn the runtime thread takes a step. Wakes, spawns and cancels
      are not bound to it. */
  predicate InTurn(s: State, e: Step) {
    match s.phase
    case TakingSlot => !e.PopLocal? && !e.PopRemote? && !e.PollBegin? && !e.EndRemote? && !e.EndLocal? && !e.NextTurn?
    case DrainingRemote(budget) =>
      && !e.TakeNext? && !e.PopLocal? && !e.PollBegin? && !e.EndSlot? && !e.EndLocal? && !e.NextTurn?
      && (e.PopRemote? || e.MarkDequeued? ==> budget > 0) && (e.EndRemote? ==> budget == 0 || s.remote == [])
    case DrainingLocal(budget) =>
      && !e.TakeNext? && !e.PopRemote? && !e.PollBegin? && !e.EndSlot? && !e.EndRemote? && !e.NextTurn?
      && (e.PopLocal? || e.MarkDequeued? ==> budget > 0) && (e.EndLocal? ==> budget == 0 || s.local == [])
    case Running =>
      && !e.TakeNext? && !e.PopLocal? && !e.PopRemote? && !e.MarkDequeued?
      && !e.EndSlot? && !e.EndRemote? && !e.EndLocal?
  }

  predicate Enabled(s: State, e: Step) {
    Possible(s, e) && InTurn(s, e)
  }

  function Swap(s: State, t: nat): State
    requires t in s.tasks
  {
    if s.tasks[t].queued then s.(due := s.due + {t})
    else s.(tasks := s.tasks[t := s.tasks[t].(queued := true)], pushing := s.pushing + multiset{t}, due := s.due + {t})
  }

  function DoSpawn(s: State, t: nat, token: nat): State {
    s.(tasks := s.tasks[t := Task(token, true, Stored, false)], slab := s.slab[token := t],
       local := s.local + [t], due := s.due + {t})
  }

  /** A wake whose task left the slab is dropped with the flag still set. */
  function DoPushLocal(s: State, t: nat): State {
    var s := s.(pushing := s.pushing - multiset{t});
    if !Live(s, t) then s
    else if s.next.None? then s.(next := Some(t))
    else s.(local := s.local + [t])
  }

  /** The future goes, unless it is out for a poll. */
  function Dropped(task: Task): Task {
    task.(canceled := true, future := if task.future.Stored? then Gone else task.future)
  }

  function DoCancelDrop(s: State, t: nat): State
    requires t in s.tasks
  {
    s.(tasks := s.tasks[t := Dropped(s.tasks[t])], cancelling := s.cancelling + multiset{t})
  }

  function DoCancelWake(s: State, t: nat): State
    requires t in s.tasks
  {
    Swap(s.(cancelling := s.cancelling - multiset{t}), t)
  }

  function DoPopRemote(s: State): State
    requires s.remote != []
  {
    s.(remote := s.remote[1..], held := if Live(s, s.remote[0]) then Some(s.remote[0]) else None)
  }

  function DoMarkDequeued(s: State): State
    requires Possible(s, MarkDequeued)
  {
    var t := s.held.value;
    s.(tasks := s.tasks[t := s.tasks[t].(queued := false)], held := None, batch := s.batch + [t])
  }

  /** Frees a token, whoever holds it. */
  function Free(s: State, token: nat): State
    requires token in s.slab
  {
    s.(slab := s.slab - {token}, freed := s.freed + multiset{s.slab[token]})
  }

  function DoPollBegin(s: State): State
    requires Possible(s, PollBegin)
  {
    var t := s.batch[0];
    var s := s.(batch := s.batch[1..], due := s.due - {t});
    if !s.tasks[t].future.Gone? then s.(tasks := s.tasks[t := s.tasks[t].(future := Polled)], polling := Some(t))
    else if Live(s, t) then Free(s, s.tasks[t].token)
    else s
  }

  function DoPollPending(s: State): State
    requires Possible(s, PollPending)
  {
    var t := s.polling.value;
    s.(tasks := s.tasks[t := s.tasks[t].(future := Stored)], polling := None)
  }

  function DoPollReady(s: State): State
    requires Possible(s, PollReady)
  {
    var t := s.polling.value;
    Free(s.(tasks := s.tasks[t := s.tasks[t].(future := Gone)], polling := None), s.tasks[t].token)
  }

  function Effect(s: State, e: Step): State
    requires Possible(s, e)
  {
    match e
    case Spawn(t, token) => DoSpawn(s, t, token)
    case WakeSwap(t) => Swap(s, t)
    case PushRemote(t) => s.(pushing := s.pushing - multiset{t}, remote := s.remote + [t])
    case PushLocal(t) => DoPushLocal(s, t)
    case CancelDrop(t) => DoCancelDrop(s, t)
    case CancelWake(t) => DoCancelWake(s, t)
    case TakeNext => s.(next := None, held := s.next)
    case PopLocal => s.(local := s.local[1..], held := Some(s.local[0]))
    case PopRemote => DoPopRemote(s)
    case MarkDequeued => DoMarkDequeued(s)
    case PollBegin => DoPollBegin(s)
    case PollPending => DoPollPending(s)
    case PollReady => DoPollReady(s)
    case EndSlot => s
    case EndRemote => s
    case EndLocal => s
    case NextTurn => s
  }

  function NextPhase(s: State, e: Step): (phase: Phase)
    requires InTurn(s, e)
  {
    match s.phase
    case TakingSlot =>
      if e.EndSlot? then DrainingRemote(TASK_BATCH_SIZE)
      else if e.MarkDequeued? then DrainingRemote(TASK_BATCH_SIZE - 1)
      else s.phase
    case DrainingRemote(budget) =>
      if e.EndRemote? then DrainingLocal(budget)
      else if e.MarkDequeued? then DrainingRemote(budget - 1)
      else s.phase
    case DrainingLocal(budget) =>
      if e.EndLocal? then Running
      else if e.MarkDequeued? then DrainingLocal(budget - 1)
      else s.phase
    case Running => if e.NextTurn? then TakingSlot else s.phase
  }

  function Apply(s: State, e: Step): (s': State)
    requires Enabled(s, e)
  {
    Effect(s, e).(phase := NextPhase(s, e))
  }

  function After(steps: seq<Step>): Option<State> {
    if steps == [] then Some(Init())
    else
      var prev := After(steps[..|steps| - 1]);
      var e := steps[|steps| - 1];
      if prev.Some? && Enabled(prev.value, e) then Some(Apply(prev.value, e)) else None
  }

  // ----- Queue membership -----

  function One(o: Option<nat>): multiset<nat> {
    if o.Some? then multiset{o.value} else multiset{}
  }

  /** Fast slot, local queue and remote queue. */
  function Queued(s: State): multiset<nat> {
    One(s.next) + multiset(s.local) + multiset(s.remote)
  }

  /** Everywhere a set flag may point to: a queue, the drain's hand, or a wake
      that still has to push. */
  function Places(s: State): multiset<nat> {
    Queued(s) + One(s.held) + s.pushing
  }

  /** A task is at one place at most, always with its flag set; a live task
      with its flag set is at one place. */
  ghost predicate Members(places: multiset<nat>, tasks: map<nat, Task>, slab: map<nat, nat>) {
    && (forall t :: t in places ==> t in tasks && tasks[t].queued)
    && (forall t :: places[t] <= 1)
    && (forall t :: InSlab(tasks, slab, t) && tasks[t].queued ==> t in places)
  }

  /** A woken live task is queued or already in the batch; a task whose future
      is gone but whose slot is not freed yet is too, or a cancel has still to
      wake it. */
  ghost predicate Remembered(tasks: map<nat, Task>, slab: map<nat, nat>, batch: seq<nat>, due: set<nat>,
                             cancelling: multiset<nat>) {
    && (forall t :: t in batch ==> t in tasks)
    && (forall t :: InSlab(tasks, slab, t) && t in due ==> tasks[t].queued || t in batch)
    && (forall t :: InSlab(tasks, slab, t) && tasks[t].future.Gone? ==>
          tasks[t].queued || t in batch || t in cancelling)
  }

  /** Tokens and tasks agree, only the task being polled has its future out,
      a task with a future owns its slot, and a token is freed exactly once,
      when its task dies. */
  ghost predicate Slots(tasks: map<nat, Task>, slab: map<nat, nat>, polling: Option<nat>, freed: multiset<nat>) {
    && (forall k :: k in slab ==> InSlab(tasks, slab, slab[k]) && tasks[slab[k]].token == k)
    && (forall t :: t in tasks && tasks[t].future.Polled? ==> polling == Some(t))
    && (polling.Some? ==> polling.value in tasks && tasks[polling.value].future.Polled?)
    && (forall t :: t in tasks && !tasks[t].future.Gone? ==> InSlab(tasks, slab, t))
    && (forall t :: freed[t] == if t in tasks && !InSlab(tasks, slab, t) then 1 else 0)
  }

  ghost predicate Invariant(s: State) {
    && Members(Places(s), s.tasks, s.slab)
    && Remembered(s.tasks, s.slab, s.batch, s.due, s.cancelling)
    && Slots(s.tasks, s.slab, s.polling, s.freed)
  }

  /** The batch and the budget of the turn. */
  predicate Phased(s: State) {
    match s.phase
    case TakingSlot => s.batch == [] && s.polling.None?
    case DrainingRemote(budget) =>
      |s.batch| + budget == TASK_BATCH_SIZE && s.polling.None? && (s.held.Some? ==> budget > 0)
    case DrainingLocal(budget) =>
      |s.batch| + budget == TASK_BATCH_SIZE && s.polling.None? && (s.held.Some? ==> budget > 0)
    case Running => |s.batch| <= TASK_BATCH_SIZE && s.held.None?
  }

  // ----- Members -----

  lemma MembersEnqueue(places: multiset<nat>, tasks: map<nat, Task>, slab: map<nat, nat>, t: nat)
    requires Members(places, tasks, slab) && t in tasks && !tasks[t].queued
    ensures Members(places + multiset{t}, tasks[t := tasks[t].(queued := true)], slab)
  {
    var tasks' := tasks[t := tasks[t].(queued := true)];
    assert forall u :: InSlab(tasks', slab, u) <==> InSlab(tasks, slab, u);
  }

  lemma MembersDequeue(places: multiset<nat>, tasks: map<nat, Task>, slab: map<nat, nat>, t: nat)
    requires Members(places, tasks, slab) && t in places
    ensures Members(places - multiset{t}, tasks[t := tasks[t].(queued := false)], slab)
  {
    var tasks' := tasks[t := tasks[t].(queued := false)];
    assert forall u :: InSlab(tasks', slab, u) <==> InSlab(tasks, slab, u);
  }

  lemma MembersDrop(places: multiset<nat>, tasks: map<nat, Task>, slab: map<nat, nat>, t: nat)
    requires Members(places, tasks, slab) && t in places && !InSlab(tasks, slab, t)
    ensures Members(places - multiset{t}, tasks, slab)
  {
  }

  lemma MembersSpawn(places: multiset<nat>, tasks: map<nat, Task>, slab: map<nat, nat>, t: nat, token: nat)
    requires Members(places, tasks, slab) && t !in tasks && token !in slab
    ensures Members(places + multiset{t}, tasks[t := Task(token, true, Stored, false)], slab[token := t])
  {
    assert t !in places;
    var tasks', slab' := tasks[t := Task(token, true, Stored, false)], slab[token := t];
    assert forall u :: InSlab(tasks', slab', u) ==> u == t || InSlab(tasks, slab, u);
  }

  /** Tokens and flags decide membership; futures do not. */
  lemma MembersFrame(places: multiset<nat>, tasks: map<nat, Task>, tasks': map<nat, Task>, slab: map<nat, nat>,
                     slab': map<nat, nat>)
    requires Members(places, tasks, slab) && tasks'.Keys == tasks.Keys
    requires forall t :: t in tasks ==> tasks'[t].token == tasks[t].token && tasks'[t].queued == tasks[t].queued
    requires forall t :: InSlab(tasks', slab', t) ==> InSlab(tasks, slab, t)
    ensures Members(places, tasks', slab')
  {
  }

  // ----- Remembered -----

  lemma RememberedSpawn(tasks: map<nat, Task>, slab: map<nat, nat>, batch: seq<nat>, due: set<nat>,
                        cancelling: multiset<nat>, t: nat, token: nat)
    requires Remembered(tasks, slab, batch, due, cancelling) && t !in tasks && token !in slab
    ensures Remembered(tasks[t := Task(token, true, Stored, false)], slab[token := t], batch, due + {t}, cancelling)
  {
    var tasks', slab' := tasks[t := Task(token, true, Stored, false)], slab[token := t];
    assert forall u :: InSlab(tasks', slab', u) ==> u == t || InSlab(tasks, slab, u);
  }

  lemma RememberedQueued(tasks: map<nat, Task>, slab: map<nat, nat>, batch: seq<nat>, due: set<nat>,
                         cancelling: multiset<nat>, t: nat, task: Task)
    requires Remembered(tasks, slab, batch, due, cancelling) && t in tasks && task.token == tasks[t].token
    requires task.queued
    ensures Remembered(tasks[t := task], slab, batch, due + {t}, cancelling)
  {
    assert forall u :: InSlab(tasks[t := task], slab, u) <==> InSlab(tasks, slab, u);
  }

  lemma RememberedDequeued(tasks: map<nat, Task>, slab: map<nat, nat>, batch: seq<nat>, due: set<nat>,
                           cancelling: multiset<nat>, t: nat)
    requires Remembered(tasks, slab, batch, due, cancelling) && t in tasks
    ensures Remembered(tasks[t := tasks[t].(queued := false)], slab, batch + [t], due, cancelling)
  {
    var tasks' := tasks[t := tasks[t].(queued := false)];
    assert forall u :: InSlab(tasks', slab, u) <==> InSlab(tasks, slab, u);
    assert t in batch + [t];
  }

  lemma RememberedDropped(tasks: map<nat, Task>, slab: map<nat, nat>, batch: seq<nat>, due: set<nat>,
                          cancelling: multiset<nat>, t: nat)
    requires Remembered(tasks, slab, batch, due, cancelling) && t in tasks
    ensures Remembered(tasks[t := Dropped(tasks[t])], slab, batch, due, cancelling + multiset{t})
  {
    assert forall u :: InSlab(tasks[t := Dropped(tasks[t])], slab, u) <==> InSlab(tasks, slab, u);
  }

  lemma RememberedWoken(tasks: map<nat, Task>, slab: map<nat, nat>, batch: seq<nat>, due: set<nat>,
                        cancelling: multiset<nat>, t: nat)
    requires Remembered(tasks, slab, batch, due, cancelling) && t in tasks && tasks[t].queued
    ensures Remembered(tasks, slab, batch, due, cancelling - multiset{t})
  {
  }

  /** The first of the batch is polled, or its slot is freed, or it is dead. */
  lemma RememberedPolled(tasks: map<nat, Task>, slab: map<nat, nat>, batch: seq<nat>, due: set<nat>,
                         cancelling: multiset<nat>, t: nat, task: Task, slab': map<nat, nat>)
    requires Remembered(tasks, slab, batch, due, cancelling) && batch != [] && batch[0] == t
    requires task.token == tasks[t].token
    requires task.future.Gone? ==> !InSlab(tasks, slab', t)
    requires forall u :: InSlab(tasks, slab', u) ==> InSlab(tasks, slab, u)
    ensures Remembered(tasks[t := task], slab', batch[1..], due - {t}, cancelling)
  {
    assert forall u :: InSlab(tasks[t := task], slab', u) <==> InSlab(tasks, slab', u);
    assert forall u :: u in batch ==> u == t || u in batch[1..];
  }

  /** The poll of `t` ends: its future returns to the slot, or the slot is
      freed. */
  lemma RememberedPollEnds(tasks: map<nat, Task>, slab: map<nat, nat>, batch: seq<nat>, due: set<nat>,
                           cancelling: multiset<nat>, t: nat, future: Future, slab': map<nat, nat>)
    requires Remembered(tasks, slab, batch, due, cancelling) && t in tasks
    requires future.Gone? ==> !InSlab(tasks, slab', t)
    requires forall u :: InSlab(tasks, slab', u) ==> InSlab(tasks, slab, u)
    ensures Remembered(tasks[t := tasks[t].(future := future)], slab', batch, due, cancelling)
  {
    var tasks' := tasks[t := tasks[t].(future := future)];
    assert forall u :: InSlab(tasks', slab', u) <==> InSlab(tasks, slab', u);
  }

  // ----- Slots -----

  lemma SlotsSpawn(tasks: map<nat, Task>, slab: map<nat, nat>, polling: Option<nat>, freed: multiset<nat>, t: nat,
                   token: nat)
    requires Slots(tasks, slab, polling, freed) && t !in tasks && token !in slab
    ensures Slots(tasks[t := Task(token, true, Stored, false)], slab[token := t], polling, freed)
  {
    var tasks', slab' := tasks[t := Task(token, true, Stored, false)], slab[token := t];
    assert forall u :: u in tasks ==> (InSlab(tasks', slab', u) <==> InSlab(tasks, slab, u));
  }

  /** Flags may change, and a stored future may be dropped. */
  lemma SlotsTouch(tasks: map<nat, Task>, slab: map<nat, nat>, polling: Option<nat>, freed: multiset<nat>, t: nat,
                   task: Task)
    requires Slots(tasks, slab, polling, freed) && t in tasks && task.token == tasks[t].token
    requires task.future == tasks[t].future || (tasks[t].future.Stored? && task.future.Gone?)
    ensures Slots(tasks[t := task], slab, polling, freed)
  {
    assert forall u :: InSlab(tasks[t := task], slab, u) <==> InSlab(tasks, slab, u);
  }

  lemma SlotsPoll(tasks: map<nat, Task>, slab: map<nat, nat>, freed: multiset<nat>, t: nat)
    requires Slots(tasks, slab, None, freed) && t in tasks && tasks[t].future.Stored?
    ensures Slots(tasks[t := tasks[t].(future := Polled)], slab, Some(t), freed)
  {
    var tasks' := tasks[t := tasks[t].(future := Polled)];
    assert forall u :: InSlab(tasks', slab, u) <==> InSlab(tasks, slab, u);
  }

  lemma SlotsPending(tasks: map<nat, Task>, slab: map<nat, nat>, freed: multiset<nat>, t: nat)
    requires Slots(tasks, slab, Some(t), freed)
    ensures Slots(tasks[t := tasks[t].(future := Stored)], slab, None, freed)
  {
    var tasks' := tasks[t := tasks[t].(future := Stored)];
    assert forall u :: InSlab(tasks', slab, u) <==> InSlab(tasks, slab, u);
  }

  lemma FreedOnce(tasks: map<nat, Task>, slab: map<nat, nat>, t: nat)
    requires InSlab(tasks, slab, t)
    requires forall k :: k in slab ==> InSlab(tasks, slab, slab[k]) && tasks[slab[k]].token == k
    ensures forall u :: InSlab(tasks, slab - {tasks[t].token}, u) <==> InSlab(tasks, slab, u) && u != t
  {
  }

  lemma SlotsFree(tasks: map<nat, Task>, slab: map<nat, nat>, freed: multiset<nat>, t: nat)
    requires Slots(tasks, slab, None, freed) && InSlab(tasks, slab, t) && tasks[t].future.Gone?
    ensures Slots(tasks, slab - {tasks[t].token}, None, freed + multiset{t})
  {
    FreedOnce(tasks, slab, t);
  }

  lemma SlotsReady(tasks: map<nat, Task>, slab: map<nat, nat>, freed: multiset<nat>, t: nat)
    requires Slots(tasks, slab, Some(t), freed)
    ensures InSlab(tasks, slab, t)
    ensures Slots(tasks[t := tasks[t].(future := Gone)], slab - {tasks[t].token}, None, freed + multiset{t})
  {
    FreedOnce(tasks, slab, t);
    var tasks' := tasks[t := tasks[t].(future := Gone)];
    assert forall u :: InSlab(tasks', slab - {tasks[t].token}, u) <==> InSlab(tasks, slab - {tasks[t].token}, u);
  }

  // ----- Every step -----

  lemma SpawnStep(s: State, t: nat, token: nat)
    requires Invariant(s) && Possible(s, Spawn(t, token))
    ensures Invariant(DoSpawn(s, t, token))
  {
    MembersSpawn(Places(s), s.tasks, s.slab, t, token);
    RememberedSpawn(s.tasks, s.slab, s.batch, s.due, s.cancelling, t, token);
    SlotsSpawn(s.tasks, s.slab, s.polling, s.freed, t, token);
    assert Places(DoSpawn(s, t, token)) == Places(s) + multiset{t};
  }

  lemma SwapPlaces(s: State, t: nat)
    requires t in s.tasks
    ensures Places(Swap(s, t)) == if s.tasks[t].queued then Places(s) else Places(s) + multiset{t}
  {
  }

  lemma SwapMembers(s: State, t: nat)
    requires Members(Places(s), s.tasks, s.slab) && t in s.tasks
    ensures Members(Places(Swap(s, t)), Swap(s, t).tasks, s.slab)
  {
    SwapPlaces(s, t);
    if !s.tasks[t].queued {
      MembersEnqueue(Places(s), s.tasks, s.slab, t);
    }
  }

  lemma SwapSlots(s: State, t: nat)
    requires t in s.tasks && Remembered(s.tasks, s.slab, s.batch, s.due, s.cancelling)
    requires Slots(s.tasks, s.slab, s.polling, s.freed)
    ensures var s' := Swap(s, t);
            Remembered(s'.tasks, s.slab, s.batch, s'.due, s.cancelling) && Slots(s'.tasks, s.slab, s.polling, s.freed)
  {
    var task := s.tasks[t].(queued := true);
    assert Swap(s, t).tasks == s.tasks[t := task];
    RememberedQueued(s.tasks, s.slab, s.batch, s.due, s.cancelling, t, task);
    SlotsTouch(s.tasks, s.slab, s.polling, s.freed, t, task);
  }

  lemma SwapStep(s: State, t: nat)
    requires Invariant(s) && t in s.tasks
    ensures Invariant(Swap(s, t))
  {
    SwapMembers(s, t);
    SwapSlots(s, t);
  }

  lemma {:induction false} CancelDropStep(s: State, t: nat)
    requires Invariant(s) && t in s.tasks
    ensures Invariant(DoCancelDrop(s, t))
  {
    var s', task := DoCancelDrop(s, t), Dropped(s.tasks[t]);
    assert Places(s') == Places(s);
    MembersPolled(Places(s), s.tasks, s.slab, t, task, s.slab);
    RememberedDropped(s.tasks, s.slab, s.batch, s.due, s.cancelling, t);
    SlotsTouch(s.tasks, s.slab, s.polling, s.freed, t, task);
  }

  lemma {:induction false} CancelWakeStep(s: State, t: nat)
    requires Invariant(s) && t in s.tasks
    ensures Invariant(DoCancelWake(s, t))
  {
    SwapStep(s, t);
    var s' := Swap(s, t);
    assert DoCancelWake(s, t) == s'.(cancelling := s.cancelling - multiset{t});
    assert Places(DoCancelWake(s, t)) == Places(s');
    RememberedWoken(s'.tasks, s'.slab, s'.batch, s'.due, s'.cancelling, t);
  }

  lemma PushLocalQueued(s: State, t: nat)
    ensures Queued(DoPushLocal(s, t)) == if Live(s, t) then Queued(s) + multiset{t} else Queued(s)
  {
  }

  lemma PushLocalPlaces(s: State, t: nat)
    requires t in s.pushing
    ensures Places(DoPushLocal(s, t)) == if Live(s, t) then Places(s) else Places(s) - multiset{t}
  {
    PushLocalQueued(s, t);
    Moved(Queued(s), One(s.held), s.pushing, t);
  }

  lemma Moved(a: multiset<nat>, b: multiset<nat>, c: multiset<nat>, t: nat)
    requires t in c
    ensures (a + multiset{t}) + b + (c - multiset{t}) == a + b + c
    ensures a + b + (c - multiset{t}) == a + b + c - multiset{t}
  {
  }

  lemma PushLocalStep(s: State, t: nat)
    requires Invariant(s) && Possible(s, PushLocal(t))
    ensures Invariant(DoPushLocal(s, t))
  {
    PushLocalPlaces(s, t);
    if !Live(s, t) {
      MembersDrop(Places(s), s.tasks, s.slab, t);
    }
  }

  lemma PushRemotePlaces(s: State, t: nat)
    requires t in s.pushing
    ensures Places(Effect(s, PushRemote(t))) == Places(s)
  {
    PushedPlaces(One(s.next) + multiset(s.local), s.remote, One(s.held), s.pushing, t);
  }

  lemma PushedPlaces(front: multiset<nat>, remote: seq<nat>, held: multiset<nat>, pushing: multiset<nat>, t: nat)
    requires t in pushing
    ensures front + multiset(remote + [t]) + held + (pushing - multiset{t}) == front + multiset(remote) + held + pushing
  {
    assert multiset(remote + [t]) == multiset(remote) + multiset{t};
  }

  lemma PopLocalPlaces(s: State)
    requires Possible(s, PopLocal)
    ensures Places(Effect(s, PopLocal)) == Places(s)
  {
    PoppedPlaces(One(s.next), s.local, multiset(s.remote), s.pushing);
  }

  lemma PoppedPlaces(front: multiset<nat>, queue: seq<nat>, rest: multiset<nat>, pushing: multiset<nat>)
    requires queue != []
    ensures front + multiset(queue[1..]) + rest + multiset{queue[0]} + pushing
            == front + multiset(queue) + rest + multiset{} + pushing
  {
    assert queue == [queue[0]] + queue[1..];
  }

  lemma PopRemotePlaces(s: State)
    requires Possible(s, PopRemote)
    ensures Places(DoPopRemote(s)) == if Live(s, s.remote[0]) then Places(s) else Places(s) - multiset{s.remote[0]}
  {
    assert s.remote == [s.remote[0]] + s.remote[1..];
  }

  lemma PopRemoteStep(s: State)
    requires Invariant(s) && Possible(s, PopRemote)
    ensures Invariant(DoPopRemote(s))
  {
    PopRemotePlaces(s);
    if !Live(s, s.remote[0]) {
      assert s.remote[0] in Places(s);
      MembersDrop(Places(s), s.tasks, s.slab, s.remote[0]);
    }
  }

  lemma MarkDequeuedStep(s: State)
    requires Invariant(s) && Possible(s, MarkDequeued)
    ensures Invariant(DoMarkDequeued(s))
  {
    var t := s.held.value;
    MembersDequeue(Places(s), s.tasks, s.slab, t);
    RememberedDequeued(s.tasks, s.slab, s.batch, s.due, s.cancelling, t);
    SlotsTouch(s.tasks, s.slab, s.polling, s.freed, t, s.tasks[t].(queued := false));
    assert Places(DoMarkDequeued(s)) == Places(s) - multiset{t};
  }

  /** What a poll that begins does to task table and slab. */
  lemma PollBeginShape(s: State)
    requires Slots(s.tasks, s.slab, s.polling, s.freed) && Possible(s, PollBegin)
    ensures var s' := DoPollBegin(s);
            var t := s.batch[0];
            && s'.tasks == s.tasks[t := s'.tasks[t]]
            && s'.tasks[t].token == s.tasks[t].token && s'.tasks[t].queued == s.tasks[t].queued
            && (s'.tasks[t].future.Gone? ==> !InSlab(s.tasks, s'.slab, t))
            && (forall u :: InSlab(s.tasks, s'.slab, u) ==> InSlab(s.tasks, s.slab, u))
            && Slots(s'.tasks, s'.slab, s'.polling, s'.freed)
  {
    var t := s.batch[0];
    if !s.tasks[t].future.Gone? {
      SlotsPoll(s.tasks, s.slab, s.freed, t);
    } else if Live(s, t) {
      FreedOnce(s.tasks, s.slab, t);
      SlotsFree(s.tasks, s.slab, s.freed, t);
    }
  }

  lemma PollBeginStep(s: State)
    requires Invariant(s) && Possible(s, PollBegin)
    ensures Invariant(DoPollBegin(s))
  {
    var s', t := DoPollBegin(s), s.batch[0];
    PollBeginShape(s);
    RememberedPolled(s.tasks, s.slab, s.batch, s.due, s.cancelling, t, s'.tasks[t], s'.slab);
    MembersPolled(Places(s), s.tasks, s.slab, t, s'.tasks[t], s'.slab);
    assert Places(s') == Places(s);
  }

  lemma MembersPolled(places: multiset<nat>, tasks: map<nat, Task>, slab: map<nat, nat>, t: nat, task: Task,
                      slab': map<nat, nat>)
    requires Members(places, tasks, slab) && t in tasks && task.token == tasks[t].token
    requires task.queued == tasks[t].queued
    requires forall u :: InSlab(tasks, slab', u) ==> InSlab(tasks, slab, u)
    ensures Members(places, tasks[t := task], slab')
  {
    assert forall u :: InSlab(tasks[t := task], slab', u) ==> InSlab(tasks, slab', u);
    MembersFrame(places, tasks, tasks[t := task], slab, slab');
  }

  lemma PollPendingStep(s: State)
    requires Invariant(s) && Possible(s, PollPending)
    ensures Invariant(DoPollPending(s))
  {
    var s', t := DoPollPending(s), s.polling.value;
    assert Places(s') == Places(s);
    SlotsPending(s.tasks, s.slab, s.freed, t);
    RememberedPollEnds(s.tasks, s.slab, s.batch, s.due, s.cancelling, t, s'.tasks[t].future, s'.slab);
    MembersFrame(Places(s), s.tasks, s'.tasks, s.slab, s'.slab);
  }

  lemma PollReadyStep(s: State)
    requires Invariant(s) && Possible(s, PollReady)
    ensures Invariant(DoPollReady(s))
  {
    var s', t := DoPollReady(s), s.polling.value;
    assert Places(s') == Places(s);
    SlotsReady(s.tasks, s.slab, s.freed, t);
    FreedOnce(s.tasks, s.slab, t);
    RememberedPollEnds(s.tasks, s.slab, s.batch, s.due, s.cancelling, t, s'.tasks[t].future, s'.slab);
    MembersGone(Places(s), s.tasks, s.slab, t, s'.slab);
  }

  lemma MembersGone(places: multiset<nat>, tasks: map<nat, Task>, slab: map<nat, nat>, t: nat, slab': map<nat, nat>)
    requires Members(places, tasks, slab) && t in tasks
    requires forall u :: InSlab(tasks, slab', u) ==> InSlab(tasks, slab, u)
    ensures Members(places, tasks[t := tasks[t].(future := Gone)], slab')
  {
    var tasks' := tasks[t := tasks[t].(future := Gone)];
    assert forall u :: InSlab(tasks', slab', u) ==> InSlab(tasks, slab', u);
    MembersFrame(places, tasks, tasks', slab, slab');
  }

  lemma InvariantEffect(s: State, e: Step)
    requires Invariant(s) && Possible(s, e)
    ensures Invariant(Effect(s, e))
  {
    if e.Spawn? || e.WakeSwap? || e.PushRemote? || e.PushLocal? || e.CancelDrop? || e.CancelWake? {
      InvariantWake(s, e);
    } else if e.PollBegin? || e.PollPending? || e.PollReady? {
      InvariantPoll(s, e);
    } else {
      InvariantCollect(s, e);
    }
  }

  lemma InvariantWake(s: State, e: Step)
    requires Invariant(s) && Possible(s, e)
    requires e.Spawn? || e.WakeSwap? || e.PushRemote? || e.PushLocal? || e.CancelDrop? || e.CancelWake?
    ensures Invariant(Effect(s, e))
  {
    if e.Spawn? {
      SpawnStep(s, e.t, e.token);
    } else if e.WakeSwap? {
      SwapStep(s, e.t);
    } else if e.PushRemote? {
      PushRemotePlaces(s, e.t);
    } else if e.PushLocal? {
      PushLocalStep(s, e.t);
    } else if e.CancelDrop? {
      CancelDropStep(s, e.t);
    } else {
      CancelWakeStep(s, e.t);
    }
  }

  lemma InvariantPoll(s: State, e: Step)
    requires Invariant(s) && Possible(s, e) && (e.PollBegin? || e.PollPending? || e.PollReady?)
    ensures Invariant(Effect(s, e))
  {
    if e.PollBegin? {
      PollBeginStep(s);
    } else if e.PollPending? {
      PollPendingStep(s);
    } else {
      PollReadyStep(s);
    }
  }

  lemma TakeNextStep(s: State)
    requires Invariant(s) && Possible(s, TakeNext)
    ensures Invariant(Effect(s, TakeNext))
  {
    assert Places(Effect(s, TakeNext)) == Places(s);
  }

  lemma InvariantCollect(s: State, e: Step)
    requires Invariant(s) && Possible(s, e)
    requires || e.TakeNext? || e.PopLocal? || e.PopRemote? || e.MarkDequeued?
             || e.EndSlot? || e.EndRemote? || e.EndLocal? || e.NextTurn?
    ensures Invariant(Effect(s, e))
  {
    if e.TakeNext? {
      TakeNextStep(s);
    } else if e.PopLocal? {
      PopLocalPlaces(s);
    } else if e.PopRemote? {
      PopRemoteStep(s);
    } else if e.MarkDequeued? {
      MarkDequeuedStep(s);
    } else {
      assert Effect(s, e) == s;
    }
  }

  lemma PhasedStep(s: State, e: Step)
    requires Phased(s) && Enabled(s, e)
    ensures Phased(Apply(s, e))
  {
  }

  lemma InvariantStep(s: State, e: Step)
    requires Invariant(s) && Phased(s) && Enabled(s, e)
    ensures Invariant(Apply(s, e)) && Phased(Apply(s, e))
  {
    InvariantEffect(s, e);
    assert Places(Apply(s, e)) == Places(Effect(s, e));
    PhasedStep(s, e);
  }

  lemma {:induction false} InvariantAfter(steps: seq<Step>)
    requires After(steps).Some?
    ensures Invariant(After(steps).value) && Phased(After(steps).value)
  {
    if steps == [] {
      assert Places(Init()) == multiset{};
    } else {
      InvariantAfter(steps[..|steps| - 1]);
      InvariantStep(After(steps[..|steps| - 1]).value, steps[|steps| - 1]);
    }
  }

  // ----- Wakes, read off the run -----

  /** Spawning counts as a wake. */
  predicate Wakes(e: Step, t: nat) {
    (e.Spawn? || e.WakeSwap? || e.CancelWake?) && e.t == t
  }

  predicate Reaches(s: State, e: Step, t: nat) {
    e.PollBegin? && s.batch != [] && s.batch[0] == t
  }

  /** The task was woken, and no poll has reached it since. */
  predicate WokenSince(steps: seq<Step>, t: nat)
    requires After(steps).Some?
  {
    steps != [] &&
    var before, e := steps[..|steps| - 1], steps[|steps| - 1];
    Wakes(e, t) || (WokenSince(before, t) && !Reaches(After(before).value, e, t))
  }

  lemma DueStep(s: State, e: Step, t: nat)
    requires Possible(s, e)
    ensures t in Effect(s, e).due <==> Wakes(e, t) || (t in s.due && !Reaches(s, e, t))
  {
  }

  lemma {:induction false} DueExactly(steps: seq<Step>, t: nat)
    requires After(steps).Some?
    ensures t in After(steps).value.due <==> WokenSince(steps, t)
  {
    if steps != [] {
      var before, e := steps[..|steps| - 1], steps[|steps| - 1];
      DueExactly(before, t);
      DueStep(After(before).value, e, t);
    }
  }

  // ----- The theorems -----

  /** In every reachable state a task occurs at most once across the three
      queues; a live task with its flag set is queued, held by the drain, or
      about to be pushed by its waker; and a woken live task that was not
      polled since is at one of these places or already in the batch. */
  lemma {:induction false} QueueMembership(steps: seq<Step>, t: nat)
    requires After(steps).Some?
    ensures var s := After(steps).value;
            && Queued(s)[t] <= 1
            && (t in Queued(s) ==> t in s.tasks && s.tasks[t].queued)
            && (Live(s, t) && s.tasks[t].queued ==> t in Queued(s) || s.held == Some(t) || t in s.pushing)
            && (Live(s, t) && WokenSince(steps, t) ==>
                  t in Queued(s) || s.held == Some(t) || t in s.pushing || t in s.batch)
  {
    InvariantAfter(steps);
    DueExactly(steps, t);
    var s := After(steps).value;
    assert Places(s)[t] == Queued(s)[t] + One(s.held)[t] + s.pushing[t];
  }

  /** In every reachable state a token is freed at most once per task, and
      exactly when the task left the slab; a task that has or runs its future
      owns its slot, so ending a poll frees its own token; and a task whose
      future is gone keeps a place from which its slot is still reclaimed, or
      its cancel has still to give it one. */
  lemma {:induction false} SlotSafety(steps: seq<Step>, t: nat)
    requires After(steps).Some?
    ensures var s := After(steps).value;
            && s.freed[t] == (if t in s.tasks && !Live(s, t) then 1 else 0)
            && (t in s.tasks && !s.tasks[t].future.Gone? ==> Live(s, t))
            && (s.polling == Some(t) ==> Live(s, t))
            && (Live(s, t) && s.tasks[t].future.Gone? ==>
                  t in Queued(s) || s.held == Some(t) || t in s.pushing || t in s.batch || t in s.cancelling)
  {
    InvariantAfter(steps);
    var s := After(steps).value;
    assert Places(s)[t] == Queued(s)[t] + One(s.held)[t] + s.pushing[t];
  }

  /** A step that frees a token frees the one of the task being polled: the
      shell of a dead task never frees a slot that a later task reused. */
  lemma {:induction false} FreesOnlyOwnSlot(steps: seq<Step>, e: Step)
    requires After(steps).Some? && Enabled(After(steps).value, e)
    ensures FreesOwn(After(steps).value, e, Apply(After(steps).value, e).freed)
  {
    InvariantAfter(steps);
    var s := After(steps).value;
    if e.PollReady? {
      SlotsReady(s.tasks, s.slab, s.freed, s.polling.value);
    } else if e.PollBegin? {
      PollBeginFrees(s);
    } else {
      FreesNothing(s, e);
    }
  }

  /** Only the end of a poll and the poll of a dropped future free a token. */
  ghost predicate FreesOwn(s: State, e: Step, freed': multiset<nat>)
    requires Possible(s, e)
  {
    if e.PollReady? then freed' == s.freed + multiset{s.polling.value}
    else if e.PollBegin? && s.tasks[s.batch[0]].future.Gone? && Live(s, s.batch[0]) then
      freed' == s.freed + multiset{s.batch[0]}
    else freed' == s.freed
  }

  lemma FreesNothing(s: State, e: Step)
    requires Possible(s, e) && !e.PollReady? && !e.PollBegin?
    ensures Effect(s, e).freed == s.freed
  {
  }

  lemma PollBeginFrees(s: State)
    requires Slots(s.tasks, s.slab, s.polling, s.freed) && Possible(s, PollBegin)
    ensures FreesOwn(s, PollBegin, DoPollBegin(s).freed)
  {
  }

  // ----- Cancelled tasks -----

  /** Cancelled, and its future not back in its slot. */
  predicate Cancelled(s: State, t: nat) {
    t in s.tasks && s.tasks[t].canceled && !s.tasks[t].future.Stored?
  }

  lemma CancelledStep(s: State, e: Step, t: nat)
    requires Enabled(s, e) && Cancelled(s, t)
    ensures Cancelled(Apply(s, e), t)
  {
    if e.PollBegin? || e.PollPending? || e.PollReady? {
      CancelledPoll(s, e, t);
    } else if e.WakeSwap? || e.CancelWake? || e.MarkDequeued? {
      CancelledFlag(s, e, t);
    }
  }

  lemma CancelledPoll(s: State, e: Step, t: nat)
    requires Possible(s, e) && Cancelled(s, t) && (e.PollBegin? || e.PollPending? || e.PollReady?)
    ensures Cancelled(Effect(s, e), t)
  {
  }

  lemma CancelledFlag(s: State, e: Step, t: nat)
    requires Possible(s, e) && Cancelled(s, t) && (e.WakeSwap? || e.CancelWake? || e.MarkDequeued?)
    ensures Cancelled(Effect(s, e), t)
  {
  }

  lemma {:induction false} CancelledStays(steps: seq<Step>, k: nat, t: nat)
    requires After(steps).Some? && k < |steps| && steps[k] == CancelDrop(t)
    ensures Cancelled(After(steps).value, t)
    decreases |steps|
  {
    var before := steps[..|steps| - 1];
    if k < |steps| - 1 {
      CancelledStays(before, k, t);
      CancelledStep(After(before).value, steps[|steps| - 1], t);
    }
  }

  /** After a cancel no poll of the task begins any more. */
  lemma {:induction false} CancelledNeverPolled(steps: seq<Step>, k: nat, t: nat)
    requires After(steps).Some? && k < |steps| && steps[k] == CancelDrop(t) && steps[|steps| - 1] == PollBegin
    ensures After(steps).value.polling != Some(t)
  {
    var before := steps[..|steps| - 1];
    assert k < |steps| - 1 && before[k] == steps[k];
    InvariantAfter(before);
    CancelledStays(before, k, t);
    NoPollBegins(After(before).value, steps[|steps| - 1], t);
  }

  /** And if the cancel found the future in its slot, none is under way either. */
  lemma {:induction false} DroppedNeverPolled(steps: seq<Step>, k: nat, t: nat)
    requires After(steps).Some? && k < |steps| && steps[k] == CancelDrop(t) && DropFinds(steps[..k], t, Stored)
    ensures After(steps).value.polling != Some(t)
    decreases |steps|
  {
    var before, e := steps[..|steps| - 1], steps[|steps| - 1];
    InvariantAfter(before);
    if k < |steps| - 1 {
      assert before[..k] == steps[..k];
      DroppedNeverPolled(before, k, t);
      CancelledStays(before, k, t);
      NoPollBegins(After(before).value, e, t);
    } else {
      assert steps[..k] == before;
      DropBeginsNone(After(before).value, t);
    }
  }

  lemma DropBeginsNone(s: State, t: nat)
    requires Slots(s.tasks, s.slab, s.polling, s.freed) && Enabled(s, CancelDrop(t)) && s.tasks[t].future.Stored?
    ensures Apply(s, CancelDrop(t)).polling != Some(t)
  {
  }

  /** The cancel that follows this run finds the task's future so. */
  predicate DropFinds(steps: seq<Step>, t: nat, future: Future) {
    var s := After(steps);
    s.Some? && t in s.value.tasks && s.value.tasks[t].future == future
  }

  lemma NoPollBegins(s: State, e: Step, t: nat)
    requires Slots(s.tasks, s.slab, s.polling, s.freed) && Enabled(s, e) && Cancelled(s, t)
    ensures s.polling != Some(t) ==> Apply(s, e).polling != Some(t)
    ensures e == PollBegin ==> Apply(s, e).polling != Some(t)
  {
  }
}
