/** How a turn of the async runtime fills its batch, and when a task in the
    local queue enters one (src/vibeio/executor.rs). */
module ExecutorTurn {
  import opened Sequences
  import opened Tasks = ExecutorTasks
  import opened Wrappers

  function Min(a: nat, b: nat): (m: nat) {
    if a < b then a else b
  }

  /** How much of the remote queue a budget reaches: stale entries are popped
      for free, so it stops behind the last live entry it can pay for. */
  function RemoteReach(remote: seq<nat>, live: set<nat>, budget: nat): (n: nat)
    ensures n <= |remote|
  {
    if budget == 0 || remote == [] then 0
    else 1 + RemoteReach(remote[1..], live, if remote[0] in live then budget - 1 else budget)
  }

  /** The live tasks among them, in queue order. */
  function FromRemote(remote: seq<nat>, live: set<nat>, budget: nat): (r: seq<nat>)
    ensures |r| <= budget
  {
    if budget == 0 || remote == [] then []
    else if remote[0] in live then [remote[0]] + FromRemote(remote[1..], live, budget - 1)
    else FromRemote(remote[1..], live, budget)
  }

  /** No live task that is popped is lost, and only live tasks get through, in
      queue order; popping stops at an empty queue or right behind the task that
      spends the budget. */
  lemma {:induction false} FromRemoteIsExact(remote: seq<nat>, live: set<nat>, budget: nat)
    ensures FromRemote(remote, live, budget) == Filter(remote[..RemoteReach(remote, live, budget)], t => t in live)
    ensures RemoteReach(remote, live, budget) == |remote| || |FromRemote(remote, live, budget)| == budget
    ensures var reach := RemoteReach(remote, live, budget);
            |FromRemote(remote, live, budget)| == budget > 0 ==> reach > 0 && remote[reach - 1] in live
  {
    if budget != 0 && remote != [] {
      var reach, rest := RemoteReach(remote, live, budget), if remote[0] in live then budget - 1 else budget;
      FromRemoteIsExact(remote[1..], live, rest);
      assert remote[..reach] == [remote[0]] + remote[1..][..reach - 1];
      assert remote[..reach][1..] == remote[1..][..reach - 1];
    }
  }

  class ReadyQueues {
    var next: Option<nat>
    var local: seq<nat>
    var remote: seq<nat>

    constructor ()
      ensures next == None && local == [] && remote == []
    {
      next, local, remote := None, [], [];
    }

    /** Pops live remote tasks, then local tasks, up to the budget. */
    method DrainReadyWith(live: set<nat>, budget: nat) returns (pushed: seq<nat>)
      modifies this`remote, this`local
      ensures remote == old(remote)[RemoteReach(old(remote), live, budget)..]
      ensures var first := FromRemote(old(remote), live, budget);
              var n := Min(budget - |first|, |old(local)|);
              pushed == first + old(local)[..n] && local == old(local)[n..]
    {
      var left: nat;
      pushed, left := DrainRemote(live, budget);
      var more := DrainLocal(left);
      pushed := pushed + more;
    }

    method DrainRemote(live: set<nat>, budget: nat) returns (pushed: seq<nat>, left: nat)
      modifies this`remote
      ensures pushed == FromRemote(old(remote), live, budget) && left == budget - |pushed|
      ensures remote == old(remote)[RemoteReach(old(remote), live, budget)..]
    {
      pushed, left := [], budget;
      ghost var popped: nat := 0;
      while left != 0 && remote != []
        invariant popped <= |old(remote)| && remote == old(remote)[popped..]
        invariant left + |pushed| == budget
        invariant pushed + FromRemote(remote, live, left) == FromRemote(old(remote), live, budget)
        invariant popped + RemoteReach(remote, live, left) == RemoteReach(old(remote), live, budget)
        decreases |remote|
      {
        var t := remote[0];
        remote := remote[1..];
        popped := popped + 1;
        if t in live {
          pushed := pushed + [t];
          left := left - 1;
        }
      }
    }

    method DrainLocal(budget: nat) returns (pushed: seq<nat>)
      modifies this`local
      ensures var n := Min(budget, |old(local)|);
              pushed == old(local)[..n] && local == old(local)[n..]
    {
      pushed := [];
      var left: nat := budget;
      while left != 0 && local != []
        invariant left + |pushed| == budget && |pushed| <= |old(local)|
        invariant local == old(local)[|pushed|..] && pushed == old(local)[..|pushed|]
        decreases |local|
      {
        pushed := pushed + [local[0]];
        local := local[1..];
        left := left - 1;
      }
    }

    /** The batch of one turn: the fast slot, then the drain. */
    method CollectBatch(live: set<nat>) returns (batch: seq<nat>)
      modifies this
      ensures var before := BeforeLocal(old(next), old(remote), live);
              var n := Min(TASK_BATCH_SIZE - |before|, |old(local)|);
              && next == None && remote == RemoteAfter(old(next), old(remote), live)
              && batch == before + old(local)[..n] && local == old(local)[n..]
    {
      ghost var slot := InSlot(next);
      batch := [];
      var budget := TASK_BATCH_SIZE;
      if next.Some? {
        batch := [next.value];
        next := None;
        budget := budget - 1;
      }
      var drained := DrainReadyWith(live, budget);
      ghost var first := FromRemote(old(remote), live, budget);
      Reassociate(slot, first, drained[|first|..]);
      batch := batch + drained;
    }

    /** One turn, with what arrives before and while its batch runs; `entered`
        is what the batch took from the local queue. */
    method TakeTurn(turn: Turn) returns (entered: seq<nat>)
      modifies this
      ensures var seen := old(remote) + turn.arrivals;
              var n := Min(LocalBudget(turn.slot, seen, turn.live), |old(local)|);
              && next == None && entered == old(local)[..n] && local == old(local)[n..] + turn.queued
              && remote == RemoteAfter(turn.slot, seen, turn.live)
    {
      next, remote := turn.slot, remote + turn.arrivals;
      var waiting := |local|;
      var batch := CollectBatch(turn.live);
      entered := batch[|batch| - (waiting - |local|)..];
      local := local + turn.queued;
    }

    method TakeTurns(turns: seq<Turn>) returns (entered: seq<nat>)
      modifies this
      ensures entered == EnteredBatch(old(remote), old(local), turns)
    {
      entered := [];
      ghost var whole := EnteredBatch(remote, local, turns);
      assert turns[0..] == turns;
      for i := 0 to |turns|
        invariant entered + EnteredBatch(remote, local, turns[i..]) == whole
      {
        EnteredNext(entered, remote, local, turns, i);
        var more := TakeTurn(turns[i]);
        entered := entered + more;
      }
    }
  }

  // ----- What a turn takes from the local queue -----

  function InSlot(slot: Option<nat>): (tasks: seq<nat>) {
    if slot.Some? then [slot.value] else []
  }

  /** What a batch takes before it turns to the local queue. */
  function BeforeLocal(slot: Option<nat>, remote: seq<nat>, live: set<nat>): (tasks: seq<nat>)
    ensures |tasks| <= TASK_BATCH_SIZE
  {
    InSlot(slot) + FromRemote(remote, live, TASK_BATCH_SIZE - |InSlot(slot)|)
  }

  function LocalBudget(slot: Option<nat>, remote: seq<nat>, live: set<nat>): (n: nat) {
    TASK_BATCH_SIZE - |BeforeLocal(slot, remote, live)|
  }

  function RemoteAfter(slot: Option<nat>, remote: seq<nat>, live: set<nat>): (r: seq<nat>) {
    remote[RemoteReach(remote, live, TASK_BATCH_SIZE - |InSlot(slot)|)..]
  }

  function Batch(slot: Option<nat>, remote: seq<nat>, live: set<nat>, local: seq<nat>): (tasks: seq<nat>) {
    BeforeLocal(slot, remote, live) + local[..Min(LocalBudget(slot, remote, live), |local|)]
  }

  /** The task at position `p` of the local queue enters this turn's batch
      exactly if slot, live remote tasks taken and `p` stay below 256, and at
      that place. */
  lemma EntersThisTurn(slot: Option<nat>, remote: seq<nat>, live: set<nat>, local: seq<nat>, p: nat)
    requires p < |local|
    ensures var taken := |InSlot(slot)| + |FromRemote(remote, live, TASK_BATCH_SIZE - |InSlot(slot)|)|;
            var batch := Batch(slot, remote, live, local);
            && (taken + p < |batch| <==> taken + p < TASK_BATCH_SIZE)
            && (taken + p < |batch| ==> batch[taken + p] == local[p])
  {
  }

  /** One turn: the task in the fast slot, what other threads pushed before it,
      which of those tasks are live, and what was queued behind the local queue
      while the batch ran. */
  datatype Turn = Turn(slot: Option<nat>, arrivals: seq<nat>, live: set<nat>, queued: seq<nat>)

  /** The local tasks that entered a batch over these turns, in order. */
  function EnteredBatch(remote: seq<nat>, local: seq<nat>, turns: seq<Turn>): (tasks: seq<nat>)
    decreases |turns|
  {
    if turns == [] then []
    else
      var t, seen := turns[0], remote + turns[0].arrivals;
      var n := Min(LocalBudget(t.slot, seen, t.live), |local|);
      local[..n] + EnteredBatch(RemoteAfter(t.slot, seen, t.live), local[n..] + t.queued, turns[1..])
  }

  /** What slots and remote queue leave to the local queue over these turns. */
  function Room(remote: seq<nat>, turns: seq<Turn>): (n: nat)
    decreases |turns|
  {
    if turns == [] then 0
    else
      var t, seen := turns[0], remote + turns[0].arrivals;
      LocalBudget(t.slot, seen, t.live) + Room(RemoteAfter(t.slot, seen, t.live), turns[1..])
  }

  lemma EnteredNext(entered: seq<nat>, remote: seq<nat>, local: seq<nat>, turns: seq<Turn>, i: nat)
    requires i < |turns|
    ensures var t, seen := turns[i], remote + turns[i].arrivals;
            var n := Min(LocalBudget(t.slot, seen, t.live), |local|);
            entered + EnteredBatch(remote, local, turns[i..]) ==
            (entered + local[..n])
            + EnteredBatch(RemoteAfter(t.slot, seen, t.live), local[n..] + t.queued, turns[i + 1..])
  {
    var t, seen, rest := turns[i], remote + turns[i].arrivals, turns[i..];
    assert rest[0] == t && rest[1..] == turns[i + 1..];
    var n := Min(LocalBudget(t.slot, seen, t.live), |local|);
    Reassociate(entered, local[..n],
                EnteredBatch(RemoteAfter(t.slot, seen, t.live), local[n..] + t.queued, turns[i + 1..]));
  }

  /** `entered` begins with `local` up to position `p`, or ends before it. */
  ghost predicate EntersIf(entered: seq<nat>, local: seq<nat>, p: nat, enough: bool)
    requires p < |local|
  {
    if enough then |entered| > p && entered[..p + 1] == local[..p + 1] else |entered| <= p
  }

  lemma EntersNext(local: seq<nat>, budget: nat, queued: seq<nat>, later: seq<nat>, room: nat, p: nat)
    requires p < |local|
    requires budget <= p ==> EntersIf(later, local[budget..] + queued, p - budget, room > p - budget)
    ensures EntersIf(local[..Min(budget, |local|)] + later, local, p, budget + room > p)
  {
    if budget <= p < budget + room {
      var i := p - budget + 1;
      assert (local[budget..] + queued)[..i] == local[budget..p + 1];
      assert (local[..budget] + later)[..p + 1] == local[..budget] + later[..i];
    }
  }

  /** Over any turns, whatever arrives: the task at position `p` of the local
      queue has entered a batch exactly if the room left to that queue exceeds
      `p`, and then behind exactly the tasks that were ahead of it. */
  lemma {:induction false} EntersExactly(remote: seq<nat>, local: seq<nat>, turns: seq<Turn>, p: nat)
    requires p < |local|
    ensures EntersIf(EnteredBatch(remote, local, turns), local, p, Room(remote, turns) > p)
    decreases |turns|
  {
    if turns != [] {
      var t, seen := turns[0], remote + turns[0].arrivals;
      var budget, after := LocalBudget(t.slot, seen, t.live), RemoteAfter(t.slot, seen, t.live);
      var rest := local[Min(budget, |local|)..] + t.queued;
      if budget <= p {
        EntersExactly(after, rest, turns[1..], p - budget);
      }
      EntersNext(local, budget, t.queued, EnteredBatch(after, rest, turns[1..]), Room(after, turns[1..]), p);
    }
  }

  // ----- No remote wakes -----

  predicate NoArrivals(turns: seq<Turn>) {
    forall i :: 0 <= i < |turns| ==> turns[i].arrivals == []
  }

  lemma {:induction false} RoomWithoutRemote(turns: seq<Turn>)
    requires NoArrivals(turns)
    ensures Room([], turns) >= (TASK_BATCH_SIZE - 1) * |turns|
    decreases |turns|
  {
    if turns != [] {
      RoomWithoutRemote(turns[1..]);
    }
  }

  /** While no remote wakes arrive, the task at position `p` of the local queue
      enters a batch within p / 255 + 1 turns, however often other tasks fill
      the fast slot and whatever is queued behind. */
  lemma LocalQueueFairness(local: seq<nat>, turns: seq<Turn>, p: nat)
    requires p < |local| && NoArrivals(turns) && |turns| >= p / (TASK_BATCH_SIZE - 1) + 1
    ensures |EnteredBatch([], local, turns)| > p && EnteredBatch([], local, turns)[..p + 1] == local[..p + 1]
  {
    RoomWithoutRemote(turns);
    EntersExactly([], local, turns, p);
  }

  // ----- A full remote queue -----

  lemma {:induction false} AllLive(remote: seq<nat>, live: set<nat>, budget: nat)
    requires |remote| == budget && forall t :: t in remote ==> t in live
    ensures FromRemote(remote, live, budget) == remote && RemoteReach(remote, live, budget) == |remote|
    decreases |remote|
  {
    if remote != [] {
      AllLive(remote[1..], live, budget - 1);
      assert remote == [remote[0]] + remote[1..];
    }
  }

  /** 256 live tasks woken from other threads before every turn. */
  function Busy(): (t: Turn) {
    Turn(None, Upto(TASK_BATCH_SIZE), set t | t in Upto(TASK_BATCH_SIZE), [])
  }

  lemma BusyTurn()
    ensures var seen := [] + Busy().arrivals;
            && LocalBudget(Busy().slot, seen, Busy().live) == 0
            && RemoteAfter(Busy().slot, seen, Busy().live) == []
    ensures Busy().queued == []
  {
    var seen := [] + Busy().arrivals;
    assert seen == Upto(TASK_BATCH_SIZE);
    AllLive(seen, Busy().live, TASK_BATCH_SIZE);
  }

  /** There is no bound with remote wakes: while every turn finds a full budget
      of live remote tasks, no task of the local queue enters a batch. */
  lemma {:induction false} RemoteWakesStarveLocal(local: seq<nat>, k: nat)
    ensures EnteredBatch([], local, seq(k, i => Busy())) == []
    decreases k
  {
    if k > 0 {
      var turns := seq(k, i => Busy());
      assert turns[0] == Busy() && turns[1..] == seq(k - 1, i => Busy());
      BusyTurn();
      assert local[0..] + [] == local;
      RemoteWakesStarveLocal(local, k - 1);
    }
  }
}
