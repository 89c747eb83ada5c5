/** The slots of the bounded blocking jobs: `Bounded` in src/blocking.rs.

    Every lock section is one step, since jobs run outside the lock. Jobs are
    numbered in submission order. Workers are numbered in the order in which
    they were started; a worker keeps its slot from job to job. */
module BoundedSlots {
  import opened Sequences
  import opened Wrappers

  datatype State = State(
    running: nat,
    waiting: seq<nat>,
    workers: map<nat, nat>,  // the job each worker runs
    started: nat,            // workers so far
    submitted: nat,          // jobs so far
    granted: seq<nat>,       // history: jobs in the order they got a slot
    ended: seq<nat>)         // history: jobs in the order they ended

  datatype Step =
    | Submit
    | End(worker: nat, panicked: bool)

  /** The limit for a machine with `cpus` usable processors. */
  function Limit(cpus: nat): (limit: nat) {
    if cpus + 4 < 32 then cpus + 4 else 32
  }

  /** `min(32, cpus + 4)`. */
  lemma LimitIs(cpus: nat)
    ensures cpus >= 28 ==> Limit(cpus) == 32
    ensures cpus < 28 ==> Limit(cpus) == cpus + 4
  {
  }

  function Init(): State {
    State(0, [], map[], 0, 0, [], [])
  }

  function DoSubmit(limit: nat, s: State): State {
    var job := s.submitted;
    if s.running >= limit then
      s.(waiting := s.waiting + [job], submitted := job + 1)
    else
      s.(running := s.running + 1, workers := s.workers[s.started := job], started := s.started + 1,
         submitted := job + 1, granted := s.granted + [job])
  }

  /** The job of a worker ends, normally or by a panic that is caught. */
  function DoEnd(s: State, worker: nat): State
    requires worker in s.workers && s.running > 0
  {
    var ended := s.ended + [s.workers[worker]];
    if s.waiting != [] then
      s.(waiting := s.waiting[1..], workers := s.workers[worker := s.waiting[0]],
         granted := s.granted + [s.waiting[0]], ended := ended)
    else
      s.(running := s.running - 1, workers := s.workers - {worker}, ended := ended)
  }

  predicate Enabled(s: State, e: Step) {
    e.End? ==> e.worker in s.workers && s.running > 0
  }

  function Apply(limit: nat, s: State, e: Step): State
    requires Enabled(s, e)
  {
    match e
    case Submit => DoSubmit(limit, s)
    case End(worker, _) => DoEnd(s, worker)
  }

  function Follow(limit: nat, s: State, steps: seq<Step>): Option<State>
    decreases |steps|
  {
    if steps == [] then Some(s)
    else if Enabled(s, steps[0]) then Follow(limit, Apply(limit, s, steps[0]), steps[1..])
    else None
  }

  // ----- The invariant -----

  predicate Slots(limit: nat, s: State) {
    && s.running == |s.workers| <= limit
    && (s.waiting != [] ==> s.running == limit)
    && (forall w :: w in s.workers ==> w < s.started)
  }

  /** Slots in submission order, each job once. */
  predicate Order(s: State) {
    s.granted + s.waiting == Upto(s.submitted)
  }

  /** A granted job is with exactly one worker or has ended, once. */
  ghost predicate Handed(workers: map<nat, nat>, granted: seq<nat>, ended: seq<nat>) {
    && (forall w :: w in workers ==> workers[w] in granted && workers[w] !in ended)
    && (forall v, w :: v in workers && w in workers && v != w ==> workers[v] != workers[w])
    && (forall j :: j in granted ==> j in ended || exists w :: w in workers && workers[w] == j)
    && (forall j :: j in ended ==> j in granted)
    && (forall i, j :: 0 <= i < j < |ended| ==> ended[i] != ended[j])
  }

  ghost predicate Invariant(limit: nat, s: State) {
    Slots(limit, s) && Order(s) && Handed(s.workers, s.granted, s.ended)
  }

  lemma MapGrows(m: map<nat, nat>, k: nat, v: nat)
    ensures |m[k := v]| == if k in m then |m| else |m| + 1
  {
    assert m[k := v].Keys == m.Keys + {k};
    assert |m[k := v].Keys| == |m[k := v]| && |m.Keys| == |m|;
  }

  lemma MapShrinks(m: map<nat, nat>, k: nat)
    requires k in m
    ensures |m - {k}| == |m| - 1
  {
    assert (m - {k}).Keys == m.Keys - {k};
    assert |(m - {k}).Keys| == |m - {k}| && |m.Keys| == |m|;
  }

  lemma SlotsStep(limit: nat, s: State, e: Step)
    requires Slots(limit, s) && Enabled(s, e)
    ensures Slots(limit, Apply(limit, s, e))
  {
    match e
    case Submit => MapGrows(s.workers, s.started, s.submitted);
    case End(worker, _) =>
      if s.waiting != [] {
        MapGrows(s.workers, worker, s.waiting[0]);
      } else {
        MapShrinks(s.workers, worker);
      }
  }

  lemma OrderStep(limit: nat, s: State, e: Step)
    requires Slots(limit, s) && Order(s) && Enabled(s, e)
    ensures Order(Apply(limit, s, e))
    ensures s.granted <= Apply(limit, s, e).granted
  {
    match e
    case Submit =>
      assert Upto(s.submitted + 1) == Upto(s.submitted) + [s.submitted];
      if s.running < limit && s.waiting == [] {
        assert s.granted + s.waiting == s.granted;
      }
    case End(_, _) =>
      if s.waiting != [] {
        assert s.granted + s.waiting == (s.granted + [s.waiting[0]]) + s.waiting[1..];
      }
  }

  lemma HandedGrant(workers: map<nat, nat>, granted: seq<nat>, ended: seq<nat>, w: nat, job: nat)
    requires Handed(workers, granted, ended) && w !in workers && job !in granted
    ensures Handed(workers[w := job], granted + [job], ended)
  {
    var workers' := workers[w := job];
    forall j | j in granted + [job]
      ensures j in ended || exists v :: v in workers' && workers'[v] == j
    {
      if j == job {
        assert w in workers' && workers'[w] == j;
      } else if j !in ended {
        var v :| v in workers && workers[v] == j;
        assert v in workers' && workers'[v] == j;
      }
    }
  }

  lemma HandedEnd(workers: map<nat, nat>, granted: seq<nat>, ended: seq<nat>, w: nat)
    requires Handed(workers, granted, ended) && w in workers
    ensures Handed(workers - {w}, granted, ended + [workers[w]])
  {
    forall j | j in granted && j !in ended + [workers[w]]
      ensures exists v :: v in workers - {w} && (workers - {w})[v] == j
    {
      var v :| v in workers && workers[v] == j;
      assert v in workers - {w} && (workers - {w})[v] == j;
    }
  }

  /** A job that is not granted yet. */
  lemma NotGranted(granted: seq<nat>, rest: seq<nat>, n: nat)
    requires granted + rest == Upto(n)
    ensures n !in granted && (rest != [] ==> rest[0] !in granted)
  {
    assert forall i :: 0 <= i < |granted| ==> granted[i] == (granted + rest)[i] == i;
    assert rest != [] ==> rest[0] == (granted + rest)[|granted|] == |granted|;
  }

  lemma HandedStep(limit: nat, s: State, e: Step)
    requires Invariant(limit, s) && Enabled(s, e)
    ensures var s' := Apply(limit, s, e);
            Handed(s'.workers, s'.granted, s'.ended)
  {
    NotGranted(s.granted, s.waiting, s.submitted);
    match e
    case Submit =>
      if s.running < limit {
        HandedGrant(s.workers, s.granted, s.ended, s.started, s.submitted);
      }
    case End(w, _) =>
      HandedEnd(s.workers, s.granted, s.ended, w);
      if s.waiting != [] {
        HandedGrant(s.workers - {w}, s.granted, s.ended + [s.workers[w]], w, s.waiting[0]);
        assert (s.workers - {w})[w := s.waiting[0]] == s.workers[w := s.waiting[0]];
      }
  }

  lemma InvariantStep(limit: nat, s: State, e: Step)
    requires Invariant(limit, s) && Enabled(s, e)
    ensures Invariant(limit, Apply(limit, s, e))
  {
    SlotsStep(limit, s, e);
    OrderStep(limit, s, e);
    HandedStep(limit, s, e);
  }

  // ----- The theorems -----

  lemma {:induction false} InvariantFollow(limit: nat, s: State, steps: seq<Step>)
    requires Invariant(limit, s) && Follow(limit, s, steps).Some?
    ensures Invariant(limit, Follow(limit, s, steps).value)
    decreases |steps|
  {
    if steps != [] {
      InvariantStep(limit, s, steps[0]);
      InvariantFollow(limit, Apply(limit, s, steps[0]), steps[1..]);
    }
  }

  /** In every run the counter is the number of slots held and stays within the
      limit, jobs wait only when all slots are taken, slots go out in
      submission order, and every job is granted at most once, held by one
      worker until it ends, and ends at most once, panics included. */
  lemma EveryRun(limit: nat, steps: seq<Step>)
    requires Follow(limit, Init(), steps).Some?
    ensures Invariant(limit, Follow(limit, Init(), steps).value)
  {
    assert Invariant(limit, Init());
    InvariantFollow(limit, Init(), steps);
  }

  function Ends(steps: seq<Step>): (n: nat) {
    if steps == [] then 0 else (if steps[0].End? then 1 else 0) + Ends(steps[1..])
  }

  /** Every end of a job hands its slot to the first waiting job: after any run
      with more than `i` ends, the job at place `i` of the queue has a slot. */
  lemma {:induction false} WaitingJobsGetSlots(limit: nat, s: State, steps: seq<Step>, i: nat)
    requires Invariant(limit, s) && Follow(limit, s, steps).Some?
    requires i < |s.waiting| && i < Ends(steps)
    ensures s.waiting[i] in Follow(limit, s, steps).value.granted
    decreases |steps|
  {
    var s' := Apply(limit, s, steps[0]);
    InvariantStep(limit, s, steps[0]);
    if steps[0].Submit? {
      WaitingJobsGetSlots(limit, s', steps[1..], i);
    } else if i > 0 {
      WaitingJobsGetSlots(limit, s', steps[1..], i - 1);
    } else {
      assert s'.granted[|s.granted|] == s.waiting[0];
      GrantedStays(limit, s', steps[1..], s.waiting[0]);
    }
  }

  lemma {:induction false} GrantedStays(limit: nat, s: State, steps: seq<Step>, job: nat)
    requires Invariant(limit, s) && Follow(limit, s, steps).Some? && job in s.granted
    ensures job in Follow(limit, s, steps).value.granted
    decreases |steps|
  {
    if steps != [] {
      InvariantStep(limit, s, steps[0]);
      GrantedStays(limit, Apply(limit, s, steps[0]), steps[1..], job);
    }
  }

  /** Once every job that got a slot has ended, every job submitted has had a
      slot and has ended. */
  lemma AllJobsRun(cpus: nat, steps: seq<Step>, job: nat)
    requires Follow(Limit(cpus), Init(), steps).Some?
    requires var s := Follow(Limit(cpus), Init(), steps).value;
             job < s.submitted && forall j :: j in s.granted ==> j in s.ended
    ensures var s := Follow(Limit(cpus), Init(), steps).value;
            job in s.granted && job in s.ended
  {
    EveryRun(Limit(cpus), steps);
    var s := Follow(Limit(cpus), Init(), steps).value;
    assert s.workers == map[] by {
      assert forall w :: w !in s.workers;
    }
    assert s.waiting == [];
    assert s.granted + s.waiting == s.granted;
    assert s.granted[job] == job;
  }
}
