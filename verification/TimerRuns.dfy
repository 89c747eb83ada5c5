/** Collection and cancellation of Python timers together: which of the
    collected timers run, and in which order (src/engine/loop_core.rs and
    src/engine/callbacks.rs). */
module TimerRuns {
  import Callbacks = TimerCallback
  import opened Sequences
  import opened Timers

  /** The entries whose timer `ran` names. */
  function Named(ran: nat -> bool): Entry -> bool {
    (e: Entry) => ran(e.id)
  }

  function NamedAndDue(ran: nat -> bool, now: int): Entry -> bool {
    (e: Entry) => e.when <= now && ran(e.id)
  }

  /** If nothing runs that looked cancelled, what runs of a collection is due
      and in (deadline, id) order. */
  lemma RunOrder(handed: seq<Entry>, rest: multiset<Entry>, now: int, later: nat -> bool, ran: nat -> bool)
    requires forall e :: e in rest ==> e.when > now
    requires Filter(handed, Live(later)) == Filter(InOrder(multiset(handed) + rest), LiveAndDue(now, later))
    requires forall e :: e in handed && ran(e.id) ==> !later(e.id)
    ensures Filter(handed, Named(ran)) == Filter(InOrder(multiset(handed) + rest), NamedAndDue(ran, now))
  {
    var all := InOrder(multiset(handed) + rest);
    InOrderIsSorted(multiset(handed) + rest);
    FilterTwice(handed, Live(later), Named(ran), Named(ran));
    forall e | e in all
      ensures NamedAndDue(ran, now)(e) <==> LiveAndDue(now, later)(e) && Named(ran)(e)
    {
      assert e in multiset(all);
      if e.when <= now {
        assert e !in rest;
        assert e in multiset(handed);
      }
    }
    FilterTwice(all, LiveAndDue(now, later), Named(ran), NamedAndDue(ran, now));
  }

  /** The timers that run. Let one collection at clock value `now` have handed
      over `handed` and left `rest`, as `LocalTimers.Collect` promises, and let
      `later` be what each timer looked like when it left the queue. In
      whatever way cancels, invocations and drops then interleave, the handed
      timers that run are due ones, in (deadline, id) order. */
  lemma TimersRunInOrder(steps: seq<(nat, Callbacks.Step)>, handed: seq<Entry>, rest: multiset<Entry>, now: int,
                         later: nat -> bool, ran: nat -> bool)
    requires forall e :: e in rest ==> e.when > now
    requires Filter(handed, Live(later)) == Filter(InOrder(multiset(handed) + rest), LiveAndDue(now, later))
    requires Callbacks.After(steps).Some?
    requires var s := Callbacks.After(steps).value;
             && (forall e :: e in handed ==> (ran(e.id) <==> Callbacks.Ran(s, e.id)))
             && (forall e :: e in handed && later(e.id) ==> Callbacks.Looked(s, e.id))
    ensures Filter(handed, Named(ran)) == Filter(InOrder(multiset(handed) + rest), NamedAndDue(ran, now))
  {
    var s := Callbacks.After(steps).value;
    forall e | e in handed && ran(e.id)
      ensures !later(e.id)
    {
      Callbacks.SingleOwnerAndNoLateRun(steps, e.id);
    }
    RunOrder(handed, rest, now, later, ran);
  }
}
