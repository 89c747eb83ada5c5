/** Cancellation, removal and invocation of Python timers: the shared
    tombstone counter and the single ownership of a timer's payload
    (`TimerCallback` in src/engine/callbacks.rs, handed over by
    `LocalTimers::collect` in src/engine/loop_core.rs).

    The per-timer lock is explicit: a critical section is several steps, so
    that a reader of the cancelled flag can see a cancel in progress. */
module TimerCallback {
  import opened Wrappers

  /** Progress of the operation that holds the timer's lock. */
  datatype Hold =
    | Free
    | CancelLocked    // before the swap of the flag
    | CancelMarked    // flag set, before the counter
    | CancelCounted   // before the payload is taken
    | DequeueLocked   // before the counter
    | DequeueCounted  // before `queued` is cleared

  /** Where the timer is on its way from the queue to the drain. `looked` is
      whether it looked cancelled when it left the queue; one that left before
      its deadline did. */
  datatype Place =
    | InQueue
    | Popped(looked: bool)              // before `dequeue`
    | Handed(looked: bool)              // in the ready queue
    | Finished(looked: bool, ran: bool)

  /** A Python timer owns its payload; a timer of the Rust interface shares an
      immutable callback that is cancelled through its own flag. */
  datatype Timer = Timer(
    owned: bool,
    ready: bool,            // the payload is still inside
    queued: bool,
    cancelled: bool,
    sharedCancelled: bool,
    hold: Hold,
    place: Place,
    dropped: bool,          // a dropped timer stays as a record
    toCanceller: nat,       // history: who received the payload
    toInvoker: nat)

  datatype State = State(timers: map<nat, Timer>, counter: int)

  function Init(): State {
    State(map[], 0)
  }

  datatype Step =
    | New(owned: bool)
    | CancelLock | CancelSwap | CancelCount | CancelTake
    | SharedCancel
    | Pop(due: bool)        // the collector takes it out of the queue
    | DequeueLock | DequeueCount | DequeueClear
    | Invoke                // `take_ready`, or the shared callback
    | Drop

  predicate LooksCancelled(t: Timer) {
    t.cancelled || (!t.owned && t.sharedCancelled)
  }

  predicate Can(t: Timer, e: Step) {
    !t.dropped &&
    match e
    case New(_) => false
    case CancelLock => t.owned && t.hold.Free?
    case CancelSwap => t.hold.CancelLocked?
    case CancelCount => t.hold.CancelMarked?
    case CancelTake => t.hold.CancelCounted?
    case SharedCancel => !t.owned
    case Pop(due) => t.place.InQueue? && (due || LooksCancelled(t))
    case DequeueLock => t.hold.Free? && t.place.Popped?
    case DequeueCount => t.hold.DequeueLocked?
    case DequeueClear => t.hold.DequeueCounted? && t.place.Popped?
    case Invoke => t.hold.Free? && t.place.Handed?
    case Drop => t.hold.Free? && !t.place.Popped?
  }

  predicate Enabled(s: State, id: nat, e: Step) {
    if e.New? then id !in s.timers else id in s.timers && Can(s.timers[id], e)
  }

  function Act(t: Timer, e: Step): Timer
    requires Can(t, e)
  {
    match e
    case CancelLock => t.(hold := CancelLocked)
    case CancelSwap => if t.cancelled then t.(hold := Free) else t.(cancelled := true, hold := CancelMarked)
    case CancelCount => t.(hold := CancelCounted)
    case CancelTake =>
      t.(hold := Free, ready := false, toCanceller := if t.ready then t.toCanceller + 1 else t.toCanceller)
    case SharedCancel => t.(sharedCancelled := true)
    case Pop(_) => t.(place := Popped(LooksCancelled(t)))
    case DequeueLock => t.(hold := DequeueLocked)
    case DequeueCount => t.(hold := DequeueCounted)
    case DequeueClear => t.(hold := Free, queued := false, place := Handed(t.place.looked))
    case Invoke =>
      t.(ready := false, toInvoker := if t.ready then t.toInvoker + 1 else t.toInvoker,
         place := Finished(t.place.looked, t.ready || (!t.owned && !t.sharedCancelled)))
    case Drop => t.(dropped := true)
  }

  /** What a step adds to the shared counter. */
  function Delta(t: Timer, e: Step): int {
    match e
    case CancelCount => if t.queued then 1 else 0
    case DequeueCount => if t.queued && t.cancelled then -1 else 0
    case Drop => if t.queued && t.cancelled then -1 else 0
    case _ => 0
  }

  function Fresh(owned: bool): Timer {
    Timer(owned, owned, true, false, false, Free, InQueue, false, 0, 0)
  }

  function Apply(s: State, id: nat, e: Step): State
    requires Enabled(s, id, e)
  {
    if e.New? then s.(timers := s.timers[id := Fresh(e.owned)])
    else State(s.timers[id := Act(s.timers[id], e)], s.counter + Delta(s.timers[id], e))
  }

  function After(steps: seq<(nat, Step)>): Option<State> {
    if steps == [] then Some(Init())
    else
      var prev := After(steps[..|steps| - 1]);
      var (id, e) := steps[|steps| - 1];
      if prev.Some? && Enabled(prev.value, id, e) then Some(Apply(prev.value, id, e)) else None
  }

  // ----- The counter -----

  /** Queued, cancelled and not dropped. */
  predicate Waits(t: Timer) {
    !t.dropped && t.queued && t.cancelled
  }

  /** Counted: queued and cancelled, except between the flag and the
      increment, and between the decrement and the removal. */
  predicate Counts(t: Timer) {
    !t.dropped && t.queued && t.cancelled && !t.hold.CancelMarked? && !t.hold.DequeueCounted?
  }

  function Tombstones(s: State): (ids: set<nat>) {
    set id | id in s.timers && Counts(s.timers[id])
  }

  lemma TombstonesUpdate(s: State, s': State, id: nat, t: Timer)
    requires s'.timers == s.timers[id := t]
    ensures |Tombstones(s')| == |Tombstones(s)| + (if Counts(t) then 1 else 0)
                                - (if id in s.timers && Counts(s.timers[id]) then 1 else 0)
  {
    if Counts(t) {
      assert Tombstones(s') == Tombstones(s) + {id};
    } else {
      assert Tombstones(s') == Tombstones(s) - {id};
    }
  }

  // ----- One timer -----

  ghost predicate Sound(t: Timer) {
    // The payload is inside or went to exactly one taker.
    && t.toCanceller + t.toInvoker + (if t.ready then 1 else 0) == (if t.owned then 1 else 0)
    // A finished cancel has taken the payload.
    && (t.cancelled && !t.hold.CancelMarked? && !t.hold.CancelCounted? ==> !t.ready)
    && (t.hold.CancelMarked? || t.hold.CancelCounted? ==> t.cancelled)
    && (!t.owned ==> !t.cancelled && !t.hold.CancelLocked?)
    && (t.hold.DequeueLocked? || t.hold.DequeueCounted? ==> t.place.Popped?)
    // What looked cancelled stays cancelled, and its cancel has the payload.
    && (!t.place.InQueue? && t.place.looked ==> LooksCancelled(t))
    && (t.place.Handed? && t.place.looked ==> !t.ready)
    && (t.place.Finished? && t.place.looked ==> !t.place.ran)
    && (t.queued <==> t.place.InQueue? || t.place.Popped?)
    && (t.place.Finished? ==> !t.ready)
    && (t.place.Finished? && !t.owned && !t.place.ran ==> t.sharedCancelled)
    // An owned timer ran exactly if the invoker got the payload.
    && t.toInvoker == (if t.owned && t.place.Finished? && t.place.ran then 1 else 0)
  }

  lemma SoundAct(t: Timer, e: Step)
    requires Sound(t) && Can(t, e)
    ensures Sound(Act(t, e))
  {
  }

  lemma CountsAct(t: Timer, e: Step)
    requires Sound(t) && Can(t, e)
    ensures (if Counts(Act(t, e)) then 1 else 0) - (if Counts(t) then 1 else 0) == Delta(t, e)
  {
  }

  ghost predicate Invariant(s: State) {
    && s.counter == |Tombstones(s)|
    && forall id :: id in s.timers ==> Sound(s.timers[id])
  }

  lemma InvariantStep(s: State, id: nat, e: Step)
    requires Invariant(s) && Enabled(s, id, e)
    ensures Invariant(Apply(s, id, e))
  {
    var s' := Apply(s, id, e);
    if e.New? {
      TombstonesUpdate(s, s', id, Fresh(e.owned));
    } else {
      SoundAct(s.timers[id], e);
      CountsAct(s.timers[id], e);
      TombstonesUpdate(s, s', id, Act(s.timers[id], e));
    }
  }

  lemma {:induction false} InvariantAfter(steps: seq<(nat, Step)>)
    requires After(steps).Some?
    ensures Invariant(After(steps).value)
  {
    if steps == [] {
      assert Tombstones(Init()) == {};
    } else {
      InvariantAfter(steps[..|steps| - 1]);
      var (id, e) := steps[|steps| - 1];
      InvariantStep(After(steps[..|steps| - 1]).value, id, e);
    }
  }

  // ----- The theorems -----

  /** Under any interleaving over any set of timers the counter is the number
      of counted timers, so it never underflows; whenever no critical section
      is in progress that is the number of timers both queued and cancelled. */
  lemma CounterIsExact(steps: seq<(nat, Step)>)
    requires After(steps).Some?
    ensures var s := After(steps).value;
            && s.counter == |Tombstones(s)|
            && ((forall id :: id in s.timers ==> s.timers[id].hold.Free?) ==>
                  s.counter == |set id | id in s.timers && Waits(s.timers[id])|)
  {
    InvariantAfter(steps);
    var s := After(steps).value;
    if forall id :: id in s.timers ==> s.timers[id].hold.Free? {
      assert Tombstones(s) == set id | id in s.timers && Waits(s.timers[id]);
    }
  }

  /** A payload goes to at most one of canceller and invoker, a drained timer
      fails to run only because it was cancelled, and a timer that looked
      cancelled when it left the queue never runs, due or not, even if its
      cancel was still in progress then. */
  lemma SingleOwnerAndNoLateRun(steps: seq<(nat, Step)>, id: nat)
    requires After(steps).Some? && id in After(steps).value.timers
    ensures var t := After(steps).value.timers[id];
            && t.toCanceller + t.toInvoker <= 1
            && (t.owned ==> (t.ready <==> t.toCanceller + t.toInvoker == 0))
            && (t.owned && t.place.Finished? ==> (t.place.ran <==> t.toInvoker == 1))
            && (t.place.Finished? && !t.place.ran ==> t.toCanceller == 1 || (!t.owned && t.sharedCancelled))
            && (!t.place.InQueue? && t.place.looked ==> t.toInvoker == 0 && (t.place.Finished? ==> !t.place.ran))
  {
    InvariantAfter(steps);
  }

  /** The timer's callback has run. */
  predicate Ran(s: State, id: nat) {
    id in s.timers && s.timers[id].place.Finished? && s.timers[id].place.ran
  }

  /** The timer left the queue looking cancelled. */
  predicate Looked(s: State, id: nat) {
    id in s.timers && !s.timers[id].place.InQueue? && s.timers[id].place.looked
  }

  /** The collector took the timer out of the queue when it looked cancelled. */
  predicate LeftCancelled(steps: seq<(nat, Step)>, id: nat)
    requires After(steps).Some?
  {
    steps != [] &&
    var before, last := steps[..|steps| - 1], steps[|steps| - 1];
    || LeftCancelled(before, id)
    || (last.0 == id && last.1.Pop? && id in After(before).value.timers
        && LooksCancelled(After(before).value.timers[id]))
  }

  lemma LookedStep(s: State, other: nat, e: Step, id: nat)
    requires Enabled(s, other, e)
    ensures Looked(Apply(s, other, e), id) <==>
              Looked(s, id) || (other == id && e.Pop? && id in s.timers && LooksCancelled(s.timers[id]))
  {
  }

  lemma {:induction false} LookedExactly(steps: seq<(nat, Step)>, id: nat)
    requires After(steps).Some?
    ensures Looked(After(steps).value, id) <==> LeftCancelled(steps, id)
  {
    if steps != [] {
      var before, last := steps[..|steps| - 1], steps[|steps| - 1];
      LookedExactly(before, id);
      LookedStep(After(before).value, last.0, last.1, id);
    }
  }

  // ----- What a cancel does -----

  /** A cancel of the timer has begun, or has marked it. */
  predicate CancelBegun(s: State, id: nat) {
    id in s.timers && s.timers[id].owned && (s.timers[id].cancelled || s.timers[id].hold.CancelLocked?)
  }

  predicate Settled(s: State, id: nat) {
    id in s.timers && s.timers[id].owned && s.timers[id].toCanceller == 1
  }

  predicate SharedOff(s: State, id: nat) {
    id in s.timers && !s.timers[id].owned && s.timers[id].sharedCancelled && !Ran(s, id)
  }

  lemma CancelStep(s: State, other: nat, e: Step, id: nat)
    requires Invariant(s) && Enabled(s, other, e)
    ensures CancelBegun(s, id) ==> CancelBegun(Apply(s, other, e), id)
    ensures Settled(s, id) ==> Settled(Apply(s, other, e), id)
    ensures SharedOff(s, id) ==> SharedOff(Apply(s, other, e), id)
  {
    InvariantStep(s, other, e);
  }

  lemma {:induction false} CancelLasts(steps: seq<(nat, Step)>, k: nat, id: nat)
    requires After(steps).Some? && k <= |steps|
    ensures After(steps[..k]).Some?
    ensures var s, s' := After(steps[..k]).value, After(steps).value;
            && (CancelBegun(s, id) ==> CancelBegun(s', id))
            && (Settled(s, id) ==> Settled(s', id))
            && (SharedOff(s, id) ==> SharedOff(s', id))
    decreases |steps|
  {
    if k == |steps| {
      assert steps[..k] == steps;
    } else {
      var before := steps[..|steps| - 1];
      CancelLasts(before, k, id);
      assert before[..k] == steps[..k];
      InvariantAfter(before);
      CancelStep(After(before).value, steps[|steps| - 1].0, steps[|steps| - 1].1, id);
    }
  }

  /** Once a cancel has locked the timer of a Python handle and the lock has
      been free again before the timer ran, the canceller has the payload and
      the timer never runs. */
  lemma {:induction false} CancelPreventsRun(steps: seq<(nat, Step)>, i: nat, j: nat, id: nat)
    requires After(steps).Some? && i < j <= |steps| && steps[i] == (id, CancelLock)
    requires var s := After(steps[..j]);
             s.Some? && id in s.value.timers && s.value.timers[id].hold.Free? && !Ran(s.value, id)
    ensures id in After(steps).value.timers
    ensures After(steps).value.timers[id].toCanceller == 1 && !Ran(After(steps).value, id)
  {
    CancelLasts(steps, i + 1, id);
    var locked, freed := steps[..i + 1], steps[..j];
    assert locked[..i] == steps[..i] && locked[i] == steps[i];
    assert CancelBegun(After(locked).value, id);
    CancelLasts(freed, i + 1, id);
    assert freed[..i + 1] == locked;
    InvariantAfter(freed);
    CancelLasts(steps, j, id);
    InvariantAfter(steps);
  }

  /** Once a shared timer is cancelled before it ran, it never runs. */
  lemma {:induction false} SharedCancelPreventsRun(steps: seq<(nat, Step)>, i: nat, id: nat)
    requires After(steps).Some? && i < |steps| && steps[i] == (id, SharedCancel)
    requires After(steps[..i]).Some? && !Ran(After(steps[..i]).value, id)
    ensures !Ran(After(steps).value, id)
  {
    CancelLasts(steps, i + 1, id);
    var cancelled := steps[..i + 1];
    assert cancelled[..i] == steps[..i] && cancelled[i] == steps[i];
  }

  /** Somebody began to cancel the timer. */
  ghost predicate CancelAsked(steps: seq<(nat, Step)>, id: nat) {
    (id, CancelLock) in steps || (id, SharedCancel) in steps
  }

  /** And nothing else keeps a timer from running: one that nobody cancels is
      not cancelled, and runs when the drain reaches it. */
  lemma {:induction false} OnlyCancelPreventsRun(steps: seq<(nat, Step)>, id: nat)
    requires After(steps).Some? && id in After(steps).value.timers && !CancelAsked(steps, id)
    ensures var t := After(steps).value.timers[id];
            !LooksCancelled(t) && t.toCanceller == 0 && (t.place.Finished? ==> t.place.ran)
  {
    NeverAsked(steps, id);
    InvariantAfter(steps);
  }

  predicate Untouched(t: Timer) {
    !t.cancelled && !t.sharedCancelled && t.toCanceller == 0
    && (t.hold.Free? || t.hold.DequeueLocked? || t.hold.DequeueCounted?)
  }

  lemma UntouchedAct(t: Timer, e: Step)
    requires Untouched(t) && Can(t, e) && !e.CancelLock? && !e.SharedCancel?
    ensures Untouched(Act(t, e))
  {
  }

  lemma {:induction false} NeverAsked(steps: seq<(nat, Step)>, id: nat)
    requires After(steps).Some? && id in After(steps).value.timers && !CancelAsked(steps, id)
    ensures Untouched(After(steps).value.timers[id])
  {
    var before, last := steps[..|steps| - 1], steps[|steps| - 1];
    assert last in steps && last == (last.0, last.1);
    if id in After(before).value.timers {
      NeverAsked(before, id);
      if last.0 == id {
        UntouchedAct(After(before).value.timers[id], last.1);
      }
    }
  }
}
