/** The text reader of subprocess pipes: `_TextStreamReader` in
    python/rsloop/_loop_compat.py, with one reader at a time.

    What the other side will do is the field `events`: feeds, end of file,
    an exception, and `Resume` where a waiting coroutine that was woken gets to
    run. A read that would wait for ever is `Blocked`. Pausing and resuming the
    transport is not modelled. */
module TextReader {
  import opened Sequences
  import opened Wrappers

  datatype Event = Feed(data: string) | Eof | Fail | Resume

  datatype Woken = Data | Failure | Never

  datatype Outcome =
    | Text(text: string)
    | Incomplete(partial: string)
    | Overrun(consumed: nat)
    | BadArgument
    | Raised
    | Blocked

  /** All the text still to be fed; what follows end of file is refused. */
  function Coming(eof: bool, events: seq<Event>): (text: string)
    decreases |events|
  {
    if eof || events == [] then ""
    else match events[0]
      case Feed(data) => data + Coming(false, events[1..])
      case Eof => ""
      case Fail => Coming(false, events[1..])
      case Resume => Coming(false, events[1..])
  }

  // ----- Waiting -----

  /** What a reader sees and what is still to happen to it. */
  datatype Pipe = Pipe(buffer: string, eof: bool, failed: bool, events: seq<Event>)

  function Total(p: Pipe): (text: string) {
    p.buffer + Coming(p.eof, p.events)
  }

  /** The next event happens. */
  function Delivered(p: Pipe): (p': Pipe)
    requires p.events != []
  {
    var rest := p.(events := p.events[1..]);
    match p.events[0]
    case Feed(data) => if p.eof then rest else rest.(buffer := p.buffer + data)
    case Eof => rest.(eof := true)
    case Fail => rest.(failed := true)
    case Resume => rest
  }

  /** Whether it wakes a waiting reader. */
  function Cause(p: Pipe): (w: Woken)
    requires p.events != []
  {
    match p.events[0]
    case Feed(data) => if p.eof || data == "" then Never else Data
    case Eof => Data
    case Fail => Failure
    case Resume => Never
  }

  /** A wait: until an event has woken the reader and the reader gets to run. */
  function Awaited(p: Pipe, woken: Woken): (r: (Woken, Pipe))
    decreases |p.events|
  {
    if p.events == [] then (Never, p)
    else
      var first := if woken.Never? then Cause(p) else woken;
      if p.events[0].Resume? && !first.Never? then (first, Delivered(p)) else Awaited(Delivered(p), first)
  }

  /** A wait keeps the whole text and only adds to the buffer; a wake by data
      means new text or end of file. */
  lemma {:induction false} AwaitedKeeps(p: Pipe, woken: Woken)
    ensures var (w, p') := Awaited(p, woken);
            && Total(p') == Total(p) && p.buffer <= p'.buffer && |p'.events| <= |p.events|
            && (w.Data? ==> |p'.events| < |p.events| && (p'.eof || p.buffer < p'.buffer || woken.Data?))
            && (p.eof ==> p'.eof)
    decreases |p.events|
  {
    if p.events != [] {
      var q := Delivered(p);
      assert Total(q) == Total(p) by {
        if p.events[0].Feed? && !p.eof {
          var data := p.events[0].data;
          assert p.buffer + (data + Coming(false, p.events[1..])) == (p.buffer + data) + Coming(false, p.events[1..]);
        }
      }
      AwaitedKeeps(q, if woken.Never? then Cause(p) else woken);
    }
  }

  /** A wait ends by an exception that was set, or for want of events. */
  lemma {:induction false} AwaitedStops(p: Pipe, woken: Woken)
    requires woken.Failure? ==> p.failed
    ensures var (w, p') := Awaited(p, woken);
            (w.Failure? ==> p'.failed) && (w.Never? ==> p'.events == [])
    decreases |p.events|
  {
    if p.events != [] {
      AwaitedStops(Delivered(p), if woken.Never? then Cause(p) else woken);
    }
  }

  // ----- When a wait ends -----

  predicate Wakes(e: Event) {
    (e.Feed? && e.data != "") || e.Eof? || e.Fail?
  }

  /** What the first `m` events make of a reader. */
  function Later(p: Pipe, m: nat): (q: Pipe)
    requires m <= |p.events|
  {
    var past := p.events[..m];
    Pipe(p.buffer + Coming(p.eof, past), p.eof || Eof in past, p.failed || Fail in past, p.events[m..])
  }

  lemma LaterNone(p: Pipe)
    ensures Later(p, 0) == p
  {
    assert p.buffer + "" == p.buffer && p.events[0..] == p.events;
  }

  lemma LaterNext(p: Pipe, m: nat)
    requires m < |p.events|
    ensures Later(Delivered(p), m) == Later(p, m + 1)
  {
    var past, rest := p.events[..m + 1], p.events[1..][..m];
    assert past == [p.events[0]] + rest && past[1..] == rest;
    assert p.events[1..][m..] == p.events[m + 1..];
    if p.events[0].Feed? && !p.eof {
      Reassociate(p.buffer, p.events[0].data, Coming(false, rest));
    }
  }

  /** A reader that was woken gets to run at the next `Resume`. */
  lemma {:induction false} ResumesAt(p: Pipe, woken: Woken, j: nat)
    requires !woken.Never? && j < |p.events| && p.events[j].Resume?
    requires forall k :: 0 <= k < j ==> !p.events[k].Resume?
    ensures Awaited(p, woken) == (woken, Later(p, j + 1))
    decreases j
  {
    LaterNext(p, j);
    if j == 0 {
      LaterNone(Delivered(p));
    } else {
      ResumesAt(Delivered(p), woken, j - 1);
    }
  }

  lemma NotWoken(p: Pipe)
    requires !p.eof && p.events != [] && !Wakes(p.events[0])
    ensures Awaited(p, Never) == Awaited(Delivered(p), Never) && !Delivered(p).eof
    ensures Delivered(p).events == p.events[1..]
  {
  }

  /** A wait ends at the first `Resume` behind the first event that wakes, with
      everything that has happened by then. */
  lemma {:induction false} WaitEndsAt(p: Pipe, i: nat, j: nat)
    requires !p.eof && i < j < |p.events| && Wakes(p.events[i]) && p.events[j].Resume?
    requires forall k :: 0 <= k < i ==> !Wakes(p.events[k])
    requires forall k :: i < k < j ==> !p.events[k].Resume?
    ensures Awaited(p, Never) == (if p.events[i].Fail? then Failure else Data, Later(p, j + 1))
    decreases i
  {
    LaterNext(p, j);
    if i == 0 {
      ResumesAt(Delivered(p), Cause(p), j - 1);
    } else {
      NotWoken(p);
      WaitEndsAt(Delivered(p), i - 1, j - 1);
    }
  }

  /** Without one it never ends. */
  lemma {:induction false} WaitNeverEnds(p: Pipe, woken: Woken)
    requires !p.eof || !woken.Never?
    requires forall i, j :: 0 <= i < j < |p.events| ==> !(Wakes(p.events[i]) && p.events[j].Resume?)
    requires !woken.Never? ==> forall j :: 0 <= j < |p.events| ==> !p.events[j].Resume?
    ensures Awaited(p, woken).0.Never?
    decreases |p.events|
  {
    if p.events != [] {
      var first := if woken.Never? then Cause(p) else woken;
      assert !first.Never? ==> !woken.Never? || Wakes(p.events[0]);
      WaitNeverEnds(Delivered(p), first);
    }
  }

  // ----- A pipe that ends -----

  predicate HasResume(events: seq<Event>) {
    events != [] && (events[0].Resume? || HasResume(events[1..]))
  }

  /** There is an end of file, and the reader gets to run after it. */
  predicate Closes(events: seq<Event>) {
    events != [] && if events[0].Eof? then HasResume(events[1..]) else Closes(events[1..])
  }

  /** Nothing fails, and the text ends. */
  ghost predicate Healthy(p: Pipe) {
    !p.failed && NoFail(p.events) && (p.eof || Closes(p.events))
  }

  ghost predicate NoFail(events: seq<Event>) {
    forall e :: e in events ==> !e.Fail?
  }

  lemma {:induction false} AwaitedHealthy(p: Pipe, woken: Woken)
    requires !p.failed && NoFail(p.events) && !woken.Failure?
    requires Closes(p.events) || (woken.Data? && p.eof && HasResume(p.events))
    ensures Awaited(p, woken).0.Data? && Healthy(Awaited(p, woken).1)
    decreases |p.events|
  {
    var first := if woken.Never? then Cause(p) else woken;
    assert p.events[0] in p.events;
    if first.Never? || !p.events[0].Resume? {
      AwaitedHealthy(Delivered(p), first);
    }
  }

  // ----- Reading to end of file -----

  /** How a read with a negative size ends. */
  datatype Ending = Returns | Throws | Hangs

  /** What has happened since the read began to wait. */
  datatype Seen = Seen(woken: Woken, text: bool, eof: bool, failed: bool)

  const NOTHING: Seen := Seen(Never, false, false, false)

  /** Reads the events alone: how the read ends, and whether it holds text by
      then. `got` is whether it holds some already. */
  function Fate(seen: Seen, got: bool, events: seq<Event>): (r: (Ending, bool))
    decreases |events|
  {
    if events == [] then (Hangs, got)
    else
      var rest := events[1..];
      match events[0]
      case Feed(data) =>
        if data == "" || seen.eof then Fate(seen, got, rest)
        else Fate(seen.(woken := First(seen.woken, Data), text := true), got, rest)
      case Eof => Fate(seen.(woken := First(seen.woken, Data), eof := true), got, rest)
      case Fail => Fate(seen.(woken := First(seen.woken, Failure), failed := true), got, rest)
      case Resume =>
        if seen.woken.Never? then Fate(seen, got, rest)
        else if seen.woken.Failure? then (Throws, got)
        else if !seen.text then (Returns, got)
        else if seen.failed then (Throws, true)
        else if seen.eof then (Returns, true)
        else Fate(NOTHING, true, rest)
  }

  function First(woken: Woken, next: Woken): (w: Woken) {
    if woken.Never? then next else woken
  }

  /** The same from where a block is about to be read. */
  function Prospect(p: Pipe, got: bool): (r: (Ending, bool)) {
    if p.failed then (Throws, got)
    else if p.buffer == "" && p.eof then (Returns, got)
    else if p.eof then (Returns, true)
    else Fate(NOTHING, got || p.buffer != "", p.events)
  }

  /** When a read takes text out of the buffer and does not answer it: a read
      to end of file that is stopped by an exception, or waits for ever, with
      text in hand. */
  predicate LosesText(n: int, p: Pipe) {
    n < 0 && !Prospect(p, false).0.Returns? && Prospect(p, false).1
  }

  /** A wait is what the events say. */
  lemma {:induction false} FateAwaited(p: Pipe, woken: Woken, got: bool)
    requires woken.Data? ==> p.buffer != "" || p.eof
    ensures var fate := Fate(Seen(woken, p.buffer != "", p.eof, p.failed), got, p.events);
            var (w, p') := Awaited(p, woken);
            && (w.Never? ==> fate == (Hangs, got))
            && (w.Failure? ==> fate == (Throws, got))
            && (w.Data? && p'.buffer == "" ==> p'.eof && fate == (Returns, got))
            && (w.Data? && p'.buffer != "" ==> fate == Prospect(p', true))
    decreases |p.events|
  {
    if p.events != [] {
      FateAwaited(Delivered(p), if woken.Never? then Cause(p) else woken, got);
    }
  }

  /** A read to end of file returns if nothing fails and the text ends. */
  lemma {:induction false} FateReturns(seen: Seen, got: bool, events: seq<Event>)
    requires NoFail(events) && !seen.failed && !seen.woken.Failure?
    requires Closes(events) || (seen.woken.Data? && seen.eof && HasResume(events))
    ensures Fate(seen, got, events).0.Returns?
    decreases |events|
  {
    var rest := events[1..];
    assert events[0] in events;
    match events[0]
    case Feed(data) =>
      FateReturns(if data == "" || seen.eof then seen else seen.(woken := First(seen.woken, Data), text := true),
                  got, rest);
    case Eof => FateReturns(seen.(woken := First(seen.woken, Data), eof := true), got, rest);
    case Resume =>
      if seen.woken.Never? {
        FateReturns(seen, got, rest);
      } else if seen.text && !seen.eof {
        FateReturns(NOTHING, true, rest);
      }
  }

  /** A failing example: the text "ab" is read, then the exception comes. */
  lemma FailureLosesText()
    ensures Prospect(Pipe("", false, false, [Feed("ab"), Resume, Fail, Resume]), false) == (Throws, true)
  {
    var events := [Feed("ab"), Resume, Fail, Resume];
    assert events[1..] == [Resume, Fail, Resume] && [Resume, Fail, Resume][1..] == [Fail, Resume];
    assert [Fail, Resume][1..] == [Resume];
    var fed := Seen(Data, true, false, false);
    assert Fate(NOTHING, false, events) == Fate(fed, false, [Resume, Fail, Resume]);
    assert Fate(fed, false, [Resume, Fail, Resume]) == Fate(NOTHING, true, [Fail, Resume]);
    assert Fate(NOTHING, true, [Fail, Resume]) == Fate(Seen(Failure, false, false, true), true, [Resume]);
  }

  // ----- Searching -----

  predicate At(s: string, sep: string, i: nat) {
    i + |sep| <= |s| && s[i..i + |sep|] == sep
  }

  predicate Leftmost(s: string, sep: string, i: nat) {
    At(s, sep, i) && forall j: nat :: j < i ==> !At(s, sep, j)
  }

  predicate NoneBefore(s: string, sep: string, bound: nat) {
    forall j: nat :: j < bound ==> !At(s, sep, j)
  }

  /** The first occurrence at or after `start`. */
  function Find(s: string, sep: string, start: nat): (r: Option<nat>)
    ensures r.Some? ==> r.value >= start && At(s, sep, r.value)
    ensures forall j: nat :: At(s, sep, j) && j >= start ==> r.Some? && r.value <= j
    decreases |s| + 1 - start
  {
    if start + |sep| > |s| then None
    else if At(s, sep, start) then Some(start)
    else Find(s, sep, start + 1)
  }

  lemma AtGrows(s: string, t: string, sep: string, i: nat)
    ensures i + |sep| <= |s| ==> (At(s + t, sep, i) <==> At(s, sep, i))
  {
    if i + |sep| <= |s| {
      assert (s + t)[i..i + |sep|] == s[i..i + |sep|];
    }
  }

  lemma NoneBeforeGrows(s: string, t: string, sep: string, bound: nat)
    requires NoneBefore(s, sep, bound) && (bound > 0 ==> bound - 1 + |sep| <= |s|)
    ensures NoneBefore(s + t, sep, bound)
  {
    forall j: nat | j < bound
      ensures !At(s + t, sep, j)
    {
      AtGrows(s, t, sep, j);
    }
  }

  // ----- What each read answers, from the whole text alone -----

  /** The answer of `readuntil` to the whole text. */
  ghost predicate UntilAnswer(total: string, sep: string, limit: nat, o: Outcome) {
    match o
    case Text(t) => exists i: nat :: Leftmost(total, sep, i) && i <= limit && t == total[..i + |sep|]
    case Incomplete(p) => p == total && NoneBefore(total, sep, |total| + 1) && |total| < limit + |sep|
    case Overrun(n) => limit < n && n + |sep| <= |total| + 1 && NoneBefore(total, sep, n)
    case BadArgument => sep == ""
    case Raised => true
    case Blocked => true
  }

  predicate Conclusive(o: Outcome) {
    o.Text? || o.Incomplete? || o.Overrun?
  }

  /** However the text is cut into feeds, the conclusion is the same; only the
      offset of an overrun may differ, and no separator starts before either. */
  lemma UntilIgnoresCuts(total: string, sep: string, limit: nat, a: Outcome, b: Outcome)
    requires sep != ""
    requires UntilAnswer(total, sep, limit, a) && UntilAnswer(total, sep, limit, b)
    requires Conclusive(a) && Conclusive(b)
    ensures a == b || (a.Overrun? && b.Overrun?)
    ensures a.Overrun? ==> NoneBefore(total, sep, if a.consumed < b.consumed then b.consumed else a.consumed)
  {
  }

  /** The answer of `readexactly` to the whole text. */
  predicate ExactAnswer(total: string, n: int, o: Outcome) {
    match o
    case Text(t) => 0 <= n <= |total| && t == total[..n]
    case Incomplete(p) => |total| < n && p == total
    case Overrun(_) => false
    case BadArgument => n < 0
    case Raised => true
    case Blocked => true
  }

  // ----- What a read does, wait by wait -----

  datatype Searched = Found(index: nat) | TooLong(offset: nat) | Ended | Interrupted(woken: Woken)

  /** What a finished search has found out about the buffer. */
  ghost predicate Searches(r: Searched, p: Pipe, sep: string, limit: nat) {
    match r
    case Found(i) => Leftmost(p.buffer, sep, i)
    case TooLong(n) => n == |p.buffer| + 1 - |sep| > limit && NoneBefore(p.buffer, sep, n)
    case Ended => p.eof && NoneBefore(p.buffer, sep, |p.buffer| + 1) && |p.buffer| < limit + |sep|
    case Interrupted(_) => true
  }

  /** What the reader makes of it; the text it answers leaves the buffer. */
  function Conclude(r: Searched, buffer: string, sep: string, limit: nat): (o: Outcome)
    requires r.Found? ==> r.index + |sep| <= |buffer|
  {
    match r
    case Found(i) => if i > limit then Overrun(i) else Text(buffer[..i + |sep|])
    case TooLong(n) => Overrun(n)
    case Ended => Incomplete(buffer)
    case Interrupted(woken) => if woken.Failure? then Raised else Blocked
  }

  lemma AnswersPrefix(r: Searched, buffer: string, sep: string, limit: nat)
    requires r.Found? ==> r.index + |sep| <= |buffer|
    ensures Answered(Conclude(r, buffer, sep, limit)) <= buffer
  {
  }

  lemma ConcludeAnswers(r: Searched, p: Pipe, sep: string, limit: nat)
    requires sep != "" && Searches(r, p, sep, limit)
    ensures var o := Conclude(r, p.buffer, sep, limit);
            UntilAnswer(Total(p), sep, limit, o) && Answered(o) <= p.buffer
  {
    match r
    case Found(i) => FoundAnswer(p.buffer, Coming(p.eof, p.events), sep, i);
    case TooLong(n) => OverrunAnswer(p.buffer, Coming(p.eof, p.events), sep);
    case Ended => assert Total(p) == p.buffer;
    case Interrupted(_) =>
  }

  /** The text an outcome hands to the caller. */
  function Answered(o: Outcome): (text: string) {
    match o
    case Text(t) => t
    case Incomplete(p) => p
    case Overrun(_) => ""
    case BadArgument => ""
    case Raised => ""
    case Blocked => ""
  }

  /** No separator in the buffer, and too much of it: none starts in time. */
  lemma OverrunAnswer(buffer: string, rest: string, sep: string)
    requires sep != "" && |buffer| + 1 - |sep| > 0
    requires NoneBefore(buffer, sep, |buffer| + 1 - |sep|)
    ensures NoneBefore(buffer + rest, sep, |buffer| + 1 - |sep|)
  {
    NoneBeforeGrows(buffer, rest, sep, |buffer| + 1 - |sep|);
  }

  lemma FoundAnswer(buffer: string, rest: string, sep: string, i: nat)
    requires Leftmost(buffer, sep, i)
    ensures Leftmost(buffer + rest, sep, i)
    ensures (buffer + rest)[..i + |sep|] == buffer[..i + |sep|]
  {
    AtGrows(buffer, rest, sep, i);
    NoneBeforeGrows(buffer, rest, sep, i);
  }

  /** The search as it would be without resuming: at every look from the
      start of the buffer. */
  function Sought(p: Pipe, sep: string, limit: nat): (r: (Searched, Pipe))
    requires sep != ""
    ensures r.0.Found? ==> r.0.index + |sep| <= |r.1.buffer|
    decreases |p.events|
  {
    if Find(p.buffer, sep, 0).Some? then (Found(Find(p.buffer, sep, 0).value), p)
    else if |p.buffer| + 1 - |sep| > limit then (TooLong(|p.buffer| + 1 - |sep|), p)
    else if p.eof then (Ended, p)
    else
      var (woken, q) := Awaited(p, Never);
      AwaitedKeeps(p, Never);
      if woken.Data? then Sought(q, sep, limit) else (Interrupted(woken), q)
  }

  /** `readuntil`. */
  function UntilRead(p: Pipe, sep: string, limit: nat): (r: (Outcome, Pipe)) {
    if sep == "" then (BadArgument, p)
    else if p.failed then (Raised, p)
    else
      var (found, q) := Sought(p, sep, limit);
      var o := Conclude(found, q.buffer, sep, limit);
      (o, q.(buffer := q.buffer[|Answered(o)|..]))
  }

  /** `readexactly` once there is something to wait for. */
  function Gathered(p: Pipe, n: nat): (r: (Outcome, Pipe))
    decreases |p.events|
  {
    if |p.buffer| >= n then (Text(p.buffer[..n]), p.(buffer := p.buffer[n..]))
    else if p.eof then (Incomplete(p.buffer), p.(buffer := ""))
    else
      var (woken, q) := Awaited(p, Never);
      AwaitedKeeps(p, Never);
      if woken.Data? then Gathered(q, n) else (if woken.Failure? then Raised else Blocked, q)
  }

  /** `readexactly`. */
  function ExactRead(p: Pipe, n: int): (r: (Outcome, Pipe)) {
    if n < 0 then (BadArgument, p)
    else if p.failed then (Raised, p)
    else if n == 0 then (Text(""), p)
    else Gathered(p, n)
  }

  /** A read waits only for an empty buffer before end of file. */
  function Ready(p: Pipe): (r: (Woken, Pipe)) {
    if p.buffer == "" && !p.eof then Awaited(p, Never) else (Data, p)
  }

  lemma ReadyKeeps(p: Pipe)
    ensures var (w, q) := Ready(p);
            Total(q) == Total(p) && (w.Data? && q.buffer == "" ==> Total(p) == "")
  {
    AwaitedKeeps(p, Never);
    var (w, q) := Ready(p);
    if w.Data? && q.buffer == "" {
      assert q.eof;
    }
  }

  /** One read of at most `n` characters. */
  function SomeRead(p: Pipe, n: nat): (r: (Outcome, Pipe)) {
    if p.failed then (Raised, p)
    else
      var (woken, q) := Ready(p);
      if woken.Failure? then (Raised, q)
      else if woken.Never? then (Blocked, q)
      else
        var m := if n <= |q.buffer| then n else |q.buffer|;
        (Text(q.buffer[..m]), q.(buffer := q.buffer[m..]))
  }

  /** Only what is answered leaves the buffer; empty means end of file. */
  lemma SomeReadKeeps(p: Pipe, n: nat)
    requires n > 0
    ensures var r := SomeRead(p, n);
            && Answered(r.0) + Total(r.1) == Total(p) && (r.0.Text? || r.0.Raised? || r.0.Blocked?)
            && (r.0.Text? ==> |r.0.text| <= n && (r.0.text == "" ==> Total(p) == ""))
  {
    ReadyKeeps(p);
    var q := Ready(p).1;
    CutBuffer(q, if n <= |q.buffer| then n else |q.buffer|);
    assert "" + Total(q) == Total(q) && "" + Total(p) == Total(p);
  }

  lemma CutBuffer(p: Pipe, m: nat)
    requires m <= |p.buffer|
    ensures p.buffer[..m] + Total(p.(buffer := p.buffer[m..])) == Total(p)
  {
    assert p.buffer == p.buffer[..m] + p.buffer[m..];
  }

  lemma BlockFate(p: Pipe, n: nat, got: bool)
    requires n > 0
    ensures BlockRead(p, got, SomeRead(p, n).0, SomeRead(p, n).1)
  {
    if !p.failed && p.buffer == "" && !p.eof {
      FateAwaited(p, Never, got);
      assert Seen(Never, p.buffer != "", p.eof, p.failed) == NOTHING;
      var (w, q) := Awaited(p, Never);
      if w.Data? {
        BlockTaken(q, n, true);
      }
    } else if !p.failed {
      BlockTaken(p, n, got);
    }
  }

  /** Taking a block from a full buffer does not change the end. */
  lemma BlockTaken(p: Pipe, n: nat, got: bool)
    requires n > 0
    ensures var m := if n <= |p.buffer| then n else |p.buffer|;
            && (p.buffer[..m] == "" <==> p.buffer == "")
            && (p.buffer != "" ==> Prospect(p.(buffer := p.buffer[m..]), true) == Prospect(p, true) == Prospect(p, got)
                                   || p.failed)
  {
  }

  /** One block of a read to end of file: how it bears on the end. */
  ghost predicate BlockRead(p: Pipe, got: bool, o: Outcome, p': Pipe) {
    && (o.Raised? ==> Prospect(p, got) == (Throws, got))
    && (o.Blocked? ==> Prospect(p, got) == (Hangs, got))
    && (o.Text? && o.text == "" ==> Prospect(p, got) == (Returns, got))
    && (o.Text? && o.text != "" ==> Prospect(p, got) == Prospect(p', true))
  }

  ghost predicate EndsAs(o: Outcome, took: bool, fate: (Ending, bool)) {
    match fate.0
    case Returns => o.Text?
    case Throws => o == Raised && took == fate.1
    case Hangs => o == Blocked && took == fate.1
  }

  /** A read to end of file that began at `start` and holds `blocks`. */
  ghost predicate Underway(start: Pipe, p: Pipe, blocks: string) {
    blocks + Total(p) == Total(start) && Prospect(p, blocks != "") == Prospect(start, false)
  }

  lemma UnderwayNext(start: Pipe, p: Pipe, blocks: string, n: nat)
    requires n > 0 && Underway(start, p, blocks)
    ensures var (o, p') := SomeRead(p, n);
            if o.Text? && o.text != "" then Underway(start, p', blocks + o.text) && |Total(p')| < |Total(p)|
            else
              && blocks + Total(p') == Total(start) && (o.Text? ==> blocks == Total(start))
              && EndsAs(if o.Text? then Text(blocks) else o, blocks != "", Prospect(start, false))
  {
    BlockFate(p, n, blocks != "");
    SomeReadKeeps(p, n);
    var (o, p') := SomeRead(p, n);
    Reassociate(blocks, Answered(o), Total(p'));
    assert "" + Total(p') == Total(p');
  }

  // ----- The answers -----

  lemma {:induction false} SoughtSearches(p: Pipe, sep: string, limit: nat)
    requires sep != ""
    ensures var (r, q) := Sought(p, sep, limit);
            Searches(r, q, sep, limit) && Total(q) == Total(p)
    decreases |p.events|
  {
    AwaitedKeeps(p, Never);
    var (woken, q) := Awaited(p, Never);
    if woken.Data? {
      SoughtSearches(q, sep, limit);
    }
  }

  /** The answer of `readuntil` depends only on the whole text, not on how it is
      fed, and what leaves the buffer is exactly what is answered. */
  lemma UntilReadAnswers(p: Pipe, sep: string, limit: nat)
    ensures var (o, q) := UntilRead(p, sep, limit);
            UntilAnswer(Total(p), sep, limit, o) && Answered(o) + Total(q) == Total(p)
  {
    if sep != "" && !p.failed {
      SoughtSearches(p, sep, limit);
      var (r, q) := Sought(p, sep, limit);
      ConcludeAnswers(r, q, sep, limit);
      CutBuffer(q, |Answered(Conclude(r, q.buffer, sep, limit))|);
    } else {
      assert "" + Total(p) == Total(p);
    }
  }

  lemma {:induction false} GatheredAnswers(p: Pipe, n: nat)
    requires n > 0
    ensures var (o, q) := Gathered(p, n);
            ExactAnswer(Total(p), n, o) && Answered(o) + Total(q) == Total(p)
    decreases |p.events|
  {
    if |p.buffer| >= n {
      CutBuffer(p, n);
      assert Total(p)[..n] == p.buffer[..n];
    } else if p.eof {
      CutBuffer(p, |p.buffer|);
    } else {
      AwaitedKeeps(p, Never);
      var (woken, q) := Awaited(p, Never);
      assert "" + Total(q) == Total(q);
      if woken.Data? {
        GatheredAnswers(q, n);
      }
    }
  }

  /** The same for `readexactly`. */
  lemma ExactReadAnswers(p: Pipe, n: int)
    ensures var (o, q) := ExactRead(p, n);
            ExactAnswer(Total(p), n, o) && Answered(o) + Total(q) == Total(p)
  {
    assert "" + Total(p) == Total(p);
    if n > 0 && !p.failed {
      GatheredAnswers(p, n);
    }
  }

  // ----- A reader that gives no answer has a reason -----

  /** It raises only what was set, and waits for ever only if nothing more
      happens. */
  ghost predicate Justified(o: Outcome, p: Pipe) {
    (o.Raised? ==> p.failed) && (o.Blocked? ==> p.events == [])
  }

  lemma {:induction false} SoughtJustified(p: Pipe, sep: string, limit: nat)
    requires sep != ""
    ensures var (r, q) := Sought(p, sep, limit);
            r.Interrupted? ==> !r.woken.Data? && (if r.woken.Failure? then q.failed else q.events == [])
    ensures Healthy(p) ==> !Sought(p, sep, limit).0.Interrupted?
    decreases |p.events|
  {
    AwaitedKeeps(p, Never);
    AwaitedStops(p, Never);
    if Healthy(p) && !p.eof {
      AwaitedHealthy(p, Never);
    }
    var (woken, q) := Awaited(p, Never);
    if woken.Data? {
      SoughtJustified(q, sep, limit);
    }
  }

  /** `readuntil` concludes if nothing fails and the text ends. */
  lemma UntilReadConcludes(p: Pipe, sep: string, limit: nat)
    ensures Justified(UntilRead(p, sep, limit).0, UntilRead(p, sep, limit).1)
    ensures Healthy(p) && sep != "" ==> Conclusive(UntilRead(p, sep, limit).0)
  {
    if sep != "" {
      SoughtJustified(p, sep, limit);
    }
  }

  lemma {:induction false} GatheredJustified(p: Pipe, n: nat)
    ensures Justified(Gathered(p, n).0, Gathered(p, n).1)
    ensures Healthy(p) ==> Conclusive(Gathered(p, n).0)
    decreases |p.events|
  {
    AwaitedKeeps(p, Never);
    AwaitedStops(p, Never);
    if Healthy(p) && !p.eof {
      AwaitedHealthy(p, Never);
    }
    var (woken, q) := Awaited(p, Never);
    if woken.Data? {
      GatheredJustified(q, n);
    }
  }

  /** So does `readexactly`. */
  lemma ExactReadConcludes(p: Pipe, n: int)
    ensures Justified(ExactRead(p, n).0, ExactRead(p, n).1)
    ensures Healthy(p) && n >= 0 ==> Conclusive(ExactRead(p, n).0)
  {
    if n >= 0 {
      GatheredJustified(p, n);
    }
  }

  /** And `read` returns text. */
  lemma SomeReadReturns(p: Pipe, n: nat)
    ensures Justified(SomeRead(p, n).0, SomeRead(p, n).1)
    ensures Healthy(p) ==> SomeRead(p, n).0.Text?
  {
    AwaitedStops(p, Never);
    if Healthy(p) && !p.eof {
      AwaitedHealthy(p, Never);
    }
  }

  lemma ReadAllReturns(p: Pipe)
    ensures Healthy(p) ==> Prospect(p, false).0.Returns?
  {
    if Healthy(p) && !p.eof {
      FateReturns(NOTHING, p.buffer != "", p.events);
    }
  }

  /** Two readers whose text ends without failures and is the same get the same
      from `readuntil`, however it is fed; only two overruns may differ in their
      offset. */
  lemma UntilSameText(p: Pipe, q: Pipe, sep: string, limit: nat)
    requires Healthy(p) && Healthy(q) && Total(p) == Total(q)
    ensures var a, b := UntilRead(p, sep, limit).0, UntilRead(q, sep, limit).0;
            a == b || (a.Overrun? && b.Overrun?)
  {
    if sep != "" {
      UntilReadAnswers(p, sep, limit);
      UntilReadAnswers(q, sep, limit);
      UntilReadConcludes(p, sep, limit);
      UntilReadConcludes(q, sep, limit);
      UntilIgnoresCuts(Total(p), sep, limit, UntilRead(p, sep, limit).0, UntilRead(q, sep, limit).0);
    }
  }

  /** And from `readexactly` just the same. */
  lemma ExactSameText(p: Pipe, q: Pipe, n: int)
    requires Healthy(p) && Healthy(q) && Total(p) == Total(q)
    ensures ExactRead(p, n).0 == ExactRead(q, n).0
  {
    if n >= 0 {
      ExactReadAnswers(p, n);
      ExactReadAnswers(q, n);
      ExactReadConcludes(p, n);
      ExactReadConcludes(q, n);
    }
  }

  // ----- Which look a read answers at -----

  /** What the reader sees at every look: at once, and after every wait that
      data ended. */
  function Looks(p: Pipe): (ps: seq<Pipe>)
    decreases |p.events|
  {
    if p.eof then [p]
    else
      var (woken, q) := Awaited(p, Never);
      AwaitedKeeps(p, Never);
      if woken.Data? then [p] + Looks(q) else [p]
  }

  function Without(p: Pipe, n: nat): (q: Pipe)
    requires n <= |p.buffer|
  {
    p.(buffer := p.buffer[n..])
  }

  /** The look at which a reader stops looking. */
  function LastLook(p: Pipe): (q: Pipe) {
    LooksTail(p);
    Looks(p)[|Looks(p)| - 1]
  }

  /** What is left of a read that no look could answer: the rest at end of
      file, or what ended the last wait. */
  ghost predicate Unanswered(p: Pipe, o: Outcome, left: Pipe) {
    var last := LastLook(p);
    if last.eof then o == Incomplete(last.buffer) && left == last.(buffer := "")
    else
      var (woken, q) := Awaited(last, Never);
      !woken.Data? && o == (if woken.Failure? then Raised else Blocked) && left == q
  }

  /** `readexactly` answers at the first look with enough text. */
  lemma {:induction false} ExactAtLook(p: Pipe, n: nat, k: nat)
    requires !p.failed && k < |Looks(p)| && |Looks(p)[k].buffer| >= n
    requires forall j :: 0 <= j < k ==> |Looks(p)[j].buffer| < n
    ensures ExactRead(p, n) == (Text(Looks(p)[k].buffer[..n]), Without(Looks(p)[k], n))
  {
    LooksTail(p);
    if n == 0 {
      assert p.buffer[0..] == p.buffer;
    } else {
      GatheredAtLook(p, n, k);
    }
  }

  lemma {:induction false} GatheredAtLook(p: Pipe, n: nat, k: nat)
    requires k < |Looks(p)| && |Looks(p)[k].buffer| >= n
    requires forall j :: 0 <= j < k ==> |Looks(p)[j].buffer| < n
    ensures Gathered(p, n) == (Text(Looks(p)[k].buffer[..n]), Without(Looks(p)[k], n))
    decreases |p.events|
  {
    LooksTail(p);
    if k > 0 {
      AwaitedKeeps(p, Never);
      var q := Awaited(p, Never).1;
      assert forall j :: 0 <= j < |Looks(q)| ==> Looks(q)[j] == Looks(p)[j + 1];
      GatheredAtLook(q, n, k - 1);
    }
  }

  /** If no look has enough, it is incomplete exactly at end of file. */
  lemma {:induction false} NeverEnough(p: Pipe, n: nat)
    requires !p.failed && forall j :: 0 <= j < |Looks(p)| ==> |Looks(p)[j].buffer| < n
    ensures Unanswered(p, ExactRead(p, n).0, ExactRead(p, n).1)
  {
    LooksTail(p);
    assert |Looks(p)[0].buffer| < n;
    GatheredNever(p, n);
  }

  lemma {:induction false} GatheredNever(p: Pipe, n: nat)
    requires forall j :: 0 <= j < |Looks(p)| ==> |Looks(p)[j].buffer| < n
    ensures Unanswered(p, Gathered(p, n).0, Gathered(p, n).1)
    decreases |p.events|
  {
    LooksTail(p);
    assert |Looks(p)[0].buffer| < n;
    if |Looks(p)| > 1 {
      AwaitedKeeps(p, Never);
      var q := Awaited(p, Never).1;
      assert forall j :: 0 <= j < |Looks(q)| ==> Looks(q)[j] == Looks(p)[j + 1];
      GatheredNever(q, n);
    }
  }

  /** `read` of up to `n` characters answers at the first look with any text, or
      at end of file, with as much of it as it may. */
  lemma SomeAtLook(p: Pipe, n: nat, k: nat)
    requires !p.failed && k < |Looks(p)| && (Looks(p)[k].buffer != "" || Looks(p)[k].eof)
    requires forall j :: 0 <= j < k ==> Looks(p)[j].buffer == "" && !Looks(p)[j].eof
    ensures var q := Looks(p)[k];
            var m := if n <= |q.buffer| then n else |q.buffer|;
            SomeRead(p, n) == (Text(q.buffer[..m]), Without(q, m))
  {
    LooksTail(p);
    if k > 0 {
      AwaitedKeeps(p, Never);
      LooksTail(Awaited(p, Never).1);
      assert Looks(p)[1] == Awaited(p, Never).1;
      assert k == 1;
    }
  }

  /** No separator yet, and room for one within the limit. */
  ghost predicate Undecided(p: Pipe, sep: string, limit: nat) {
    NoneBefore(p.buffer, sep, |p.buffer| + 1) && |p.buffer| < limit + |sep|
  }

  /** The first look that decides the search gives the answer: the leftmost
      separator in its buffer, an overrun at that separator's index if it is
      past the limit, or without a separator an overrun at the last place where
      one could have started. */
  lemma {:induction false} DecidedAtLook(p: Pipe, sep: string, limit: nat, k: nat)
    requires sep != "" && !p.failed && k < |Looks(p)| && !Undecided(Looks(p)[k], sep, limit)
    requires forall j :: 0 <= j < k ==> Undecided(Looks(p)[j], sep, limit)
    ensures var o, buffer := UntilRead(p, sep, limit).0, Looks(p)[k].buffer;
            && (forall i: nat :: Leftmost(buffer, sep, i) ==>
                  o == if i <= limit then Text(buffer[..i + |sep|]) else Overrun(i))
            && (NoneBefore(buffer, sep, |buffer| + 1) ==> o == Overrun(|buffer| + 1 - |sep|))
    ensures var (o, q) := UntilRead(p, sep, limit);
            |Answered(o)| <= |Looks(p)[k].buffer| && q == Without(Looks(p)[k], |Answered(o)|)
  {
    SoughtAtLook(p, sep, limit, k);
  }

  ghost predicate DecidedBy(r: Searched, buffer: string, sep: string) {
    && (forall i: nat :: Leftmost(buffer, sep, i) ==> r == Found(i))
    && (NoneBefore(buffer, sep, |buffer| + 1) ==> |sep| <= |buffer| + 1 && r == TooLong(|buffer| + 1 - |sep|))
  }

  lemma {:induction false} SoughtAtLook(p: Pipe, sep: string, limit: nat, k: nat)
    requires sep != "" && k < |Looks(p)| && !Undecided(Looks(p)[k], sep, limit)
    requires forall j :: 0 <= j < k ==> Undecided(Looks(p)[j], sep, limit)
    ensures Sought(p, sep, limit).1 == Looks(p)[k] && DecidedBy(Sought(p, sep, limit).0, Looks(p)[k].buffer, sep)
    decreases |p.events|
  {
    if k == 0 {
      SoughtHere(p, sep, limit);
    } else {
      AwaitedKeeps(p, Never);
      var q := Awaited(p, Never).1;
      LooksTail(p);
      assert Undecided(Looks(p)[0], sep, limit);
      SoughtAtLook(q, sep, limit, k - 1);
    }
  }

  lemma SoughtHere(p: Pipe, sep: string, limit: nat)
    requires sep != "" && !Undecided(p, sep, limit)
    ensures Sought(p, sep, limit).1 == p && DecidedBy(Sought(p, sep, limit).0, p.buffer, sep)
  {
  }

  lemma LooksTail(p: Pipe)
    ensures Looks(p)[0] == p
    ensures |Looks(p)| > 1 ==> !p.eof && Awaited(p, Never).0.Data? && Looks(p)[1..] == Looks(Awaited(p, Never).1)
    ensures !p.eof && Awaited(p, Never).0.Data? ==> |Looks(p)| > 1
  {
  }

  /** If no look decides it, `readuntil` has nothing but the rest, exactly at end
      of file. */
  lemma {:induction false} NeverDecided(p: Pipe, sep: string, limit: nat)
    requires sep != "" && !p.failed && forall j :: 0 <= j < |Looks(p)| ==> Undecided(Looks(p)[j], sep, limit)
    ensures Unanswered(p, UntilRead(p, sep, limit).0, UntilRead(p, sep, limit).1)
  {
    SoughtNever(p, sep, limit);
    var last := LastLook(p);
    assert last.buffer[|last.buffer|..] == "";
    var q := Sought(p, sep, limit).1;
    assert q.buffer[0..] == q.buffer;
  }

  lemma {:induction false} SoughtNever(p: Pipe, sep: string, limit: nat)
    requires sep != "" && forall j :: 0 <= j < |Looks(p)| ==> Undecided(Looks(p)[j], sep, limit)
    ensures var last, r := LastLook(p), Sought(p, sep, limit);
            if last.eof then r == (Ended, last)
            else var (woken, q) := Awaited(last, Never); !woken.Data? && r == (Interrupted(woken), q)
    decreases |p.events|
  {
    LooksTail(p);
    assert Undecided(Looks(p)[0], sep, limit);
    AwaitedKeeps(p, Never);
    var (woken, q) := Awaited(p, Never);
    if !p.eof && woken.Data? {
      assert forall j :: 0 <= j < |Looks(q)| ==> Looks(q)[j] == Looks(p)[j + 1];
      SoughtNever(q, sep, limit);
    }
  }

  lemma SameText()
    ensures Total(Pipe("ab", false, false, [Feed("c;"), Eof])) == "abc;" == Total(Pipe("abc;", false, false, [Eof]))
  {
    assert [Feed("c;"), Eof][1..] == [Eof];
    assert Coming(false, [Eof]) == "";
    assert Coming(false, [Feed("c;"), Eof]) == "c;" + Coming(false, [Eof]) == "c;";
  }

  lemma AtChar(s: string, c: char, i: nat)
    ensures At(s, [c], i) <==> i < |s| && s[i] == c
  {
    if i < |s| {
      assert s[i..i + 1] == [s[i]];
    }
  }

  /** One text and limit 1: a reader that has been fed "ab" and will be fed "c;"
      reports another offset than one that has all of it. */
  lemma OverrunOffsetsDiffer()
    ensures var early, late := Pipe("ab", false, false, [Feed("c;"), Eof]), Pipe("abc;", false, false, [Eof]);
            && Total(early) == Total(late)
            && UntilRead(early, ";", 1).0 == Overrun(2) && UntilRead(late, ";", 1).0 == Overrun(3)
  {
    SameText();
    FindLate();
  }

  lemma FindLate()
    ensures Find("ab", ";", 0) == None && Find("abc;", ";", 0) == Some(3)
  {
    forall i: nat ensures At("ab", ";", i) <==> i < 2 && "ab"[i] == ';' {
      AtChar("ab", ';', i);
    }
    forall i: nat ensures At("abc;", ";", i) <==> i < 4 && "abc;"[i] == ';' {
      AtChar("abc;", ';', i);
    }
    assert At("abc;", ";", 3);
  }

  // ----- The reader -----

  /** `fed` is everything fed so far and `taken` everything taken out of the
      buffer by reads, in order. */
  class TextStreamReader {
    const limit: nat
    var buffer: string
    var eof: bool
    var failed: bool
    var events: seq<Event>
    ghost var fed: string
    ghost var taken: string

    ghost predicate Valid() reads this {
      limit > 0 && fed == taken + buffer
    }

    function State(): (p: Pipe) reads this {
      Pipe(buffer, eof, failed, events)
    }

    constructor (limit: nat, events: seq<Event>)
      requires limit > 0
      ensures Valid() && this.limit == limit && this.events == events
      ensures buffer == "" && fed == "" && taken == "" && !eof && !failed
    {
      this.limit := limit;
      this.events := events;
      buffer, eof, failed, fed, taken := "", false, false, "", "";
    }

    method FeedData(data: string) returns (accepted: bool)
      requires Valid()
      modifies `buffer, `fed
      ensures Valid() && accepted == !eof
      ensures buffer == if eof then old(buffer) else old(buffer) + data
      ensures fed == if eof then old(fed) else old(fed) + data
    {
      if eof {
        return false;
      }
      buffer, fed := buffer + data, fed + data;
      accepted := true;
    }

    /** Lets the next event happen; tells whether it wakes a waiter. */
    method Deliver() returns (woken: Woken, resume: bool)
      requires Valid() && events != []
      modifies `buffer, `eof, `failed, `events, `fed
      ensures Valid() && State() == Delivered(old(State()))
      ensures woken == Cause(old(State())) && resume == old(events)[0].Resume?
    {
      var e := events[0];
      events := events[1..];
      woken, resume := Never, e.Resume?;
      match e
      case Feed(data) =>
        var accepted := FeedData(data);
        if accepted && data != "" {
          woken := Data;
        }
      case Eof =>
        eof, woken := true, Data;
      case Fail =>
        failed, woken := true, Failure;
      case Resume =>
    }

    /** Waits until an event wakes the reader and the reader gets to run. */
    method WaitForData() returns (woken: Woken)
      requires Valid() && !eof
      modifies `buffer, `eof, `failed, `events, `fed
      ensures Valid() && (woken, State()) == Awaited(old(State()), Never)
      ensures Total(State()) == Total(old(State())) && old(buffer) <= buffer && |events| <= |old(events)|
      ensures woken.Data? ==> |events| < |old(events)| && (eof || old(buffer) < buffer)
    {
      AwaitedKeeps(State(), Never);
      woken := Never;
      while events != []
        invariant Valid() && Awaited(State(), woken) == Awaited(old(State()), Never)
        decreases |events|
      {
        var cause, resume := Deliver();
        if woken.Never? {
          woken := cause;
        }
        if resume && !woken.Never? {
          return;
        }
      }
      woken := Never;
    }

    /** Takes the first `n` characters out of the buffer. */
    method Take(n: nat) returns (text: string)
      requires Valid() && n <= |buffer|
      modifies `buffer, `taken
      ensures Valid() && text == old(buffer)[..n]
      ensures buffer == old(buffer)[n..] && taken == old(taken) + text
    {
      text := buffer[..n];
      assert buffer == text + buffer[n..];
      buffer, taken := buffer[n..], taken + text;
    }

    /** The search loop: after each feed it resumes where a separator that
        spans feeds could start. */
    method Search(sep: string) returns (r: Searched)
      requires Valid() && sep != ""
      modifies `buffer, `eof, `failed, `events, `fed
      ensures Valid() && (r, State()) == Sought(old(State()), sep, limit)
    {
      var offset: nat := 0;
      while true
        invariant Valid() && Sought(State(), sep, limit) == Sought(old(State()), sep, limit)
        invariant NoneBefore(buffer, sep, offset) && offset <= limit
        invariant offset > 0 ==> offset - 1 + |sep| <= |buffer|
        decreases |events|
      {
        if |buffer| - offset >= |sep| {
          var index := Find(buffer, sep, offset);
          if index.Some? {
            return Found(index.value);
          }
          offset := |buffer| + 1 - |sep|;
          if offset > limit {
            return TooLong(offset);
          }
        }
        if eof {
          return Ended;
        }
        ghost var before := buffer;
        var woken := WaitForData();
        assert before + buffer[|before|..] == buffer;
        NoneBeforeGrows(before, buffer[|before|..], sep, offset);
        if !woken.Data? {
          return Interrupted(woken);
        }
      }
    }

    /** Reads through the leftmost separator. The answer depends only on the
        whole text, not on how it is fed; there is one unless an exception was
        set or nothing more happens; and what is taken out of the buffer is
        exactly what is answered. */
    method ReadUntil(sep: string) returns (o: Outcome)
      requires Valid()
      modifies `buffer, `eof, `failed, `events, `fed, `taken
      ensures Valid() && (o, State()) == UntilRead(old(State()), sep, limit)
      ensures UntilAnswer(Total(old(State())), sep, limit, o) && Justified(o, State())
      ensures Healthy(old(State())) && sep != "" ==> Conclusive(o)
      ensures taken == old(taken) + Answered(o) && Answered(o) + Total(State()) == Total(old(State()))
    {
      UntilReadAnswers(State(), sep, limit);
      UntilReadConcludes(State(), sep, limit);
      o := SearchAndTake(sep);
    }

    method SearchAndTake(sep: string) returns (o: Outcome)
      requires Valid()
      modifies `buffer, `eof, `failed, `events, `fed, `taken
      ensures Valid() && (o, State()) == UntilRead(old(State()), sep, limit) && taken == old(taken) + Answered(o)
    {
      if sep == "" {
        return BadArgument;
      }
      if failed {
        return Raised;
      }
      var r := Search(sep);
      o := Conclude(r, buffer, sep, limit);
      AnswersPrefix(r, buffer, sep, limit);
      var _ := Take(|Answered(o)|);
    }

    /** Reads `n` characters, or what there is at end of file, in the same way. */
    method ReadExactly(n: int) returns (o: Outcome)
      requires Valid()
      modifies `buffer, `eof, `failed, `events, `fed, `taken
      ensures Valid() && (o, State()) == ExactRead(old(State()), n)
      ensures ExactAnswer(Total(old(State())), n, o) && Justified(o, State())
      ensures Healthy(old(State())) && n >= 0 ==> Conclusive(o)
      ensures taken == old(taken) + Answered(o) && Answered(o) + Total(State()) == Total(old(State()))
    {
      ExactReadAnswers(State(), n);
      ExactReadConcludes(State(), n);
      if n < 0 {
        return BadArgument;
      }
      if failed {
        return Raised;
      }
      if n == 0 {
        return Text("");
      }
      while |buffer| < n
        invariant Valid() && Gathered(State(), n) == Gathered(old(State()), n) && taken == old(taken)
        decreases |events|
      {
        if eof {
          var partial := Take(|buffer|);
          return Incomplete(partial);
        }
        var woken := WaitForData();
        if !woken.Data? {
          return if woken.Failure? then Raised else Blocked;
        }
      }
      var data := Take(n);
      o := Text(data);
    }

    /** Reads at most `n` characters; an empty answer means end of file. */
    method ReadSome(n: nat) returns (o: Outcome)
      requires Valid() && n > 0
      modifies `buffer, `eof, `failed, `events, `fed, `taken
      ensures Valid() && (o, State()) == SomeRead(old(State()), n) && taken == old(taken) + Answered(o)
    {
      if failed {
        return Raised;
      }
      if buffer == "" && !eof {
        var woken := WaitForData();
        if !woken.Data? {
          return if woken.Failure? then Raised else Blocked;
        }
      }
      var data := Take(if n <= |buffer| then n else |buffer|);
      o := Text(data);
    }

    /** Reads blocks to end of file; `blocks` is all that it took. */
    method ReadAll() returns (o: Outcome, ghost blocks: string)
      requires Valid() && !failed
      modifies `buffer, `eof, `failed, `events, `fed, `taken
      ensures Valid() && taken == old(taken) + blocks && blocks + Total(State()) == Total(old(State()))
      ensures o.Text? ==> o.text == blocks == Total(old(State()))
      ensures EndsAs(o, blocks != "", Prospect(old(State()), false)) && Justified(o, State())
    {
      ghost var start := State();
      var text := "";
      while true
        invariant Valid() && taken == old(taken) + text && Underway(start, State(), text)
        decreases |Total(State())|
      {
        UnderwayNext(start, State(), text, limit);
        SomeReadReturns(State(), limit);
        var block := ReadSome(limit);
        if !block.Text? {
          return block, text;
        }
        if block.text == "" {
          return Text(text), text;
        }
        Reassociate(old(taken), text, block.text);
        text := text + block.text;
      }
    }

    /** `read`: with a negative size it reads to end of file. Nothing leaves the
        buffer unanswered, except exactly when `LosesText` says so; nothing is
        lost from `taken` and buffer together in any case. */
    method Read(n: int) returns (o: Outcome)
      requires Valid()
      modifies `buffer, `eof, `failed, `events, `fed, `taken
      ensures Valid() && (o.Text? || o.Raised? || o.Blocked?)
      ensures o.Text? && n < 0 ==> o.text == Total(old(State()))
      ensures o.Text? && n >= 0 ==> |o.text| <= n && (o.text == "" ==> n == 0 || Total(old(State())) == "")
      ensures taken + Total(State()) == old(taken) + Total(old(State())) && old(taken) <= taken
      ensures taken != old(taken) + Answered(o) <==> LosesText(n, old(State()))
      ensures n > 0 ==> (o, State()) == SomeRead(old(State()), n)
      ensures n == 0 ==> State() == old(State()) && o == if failed then Raised else Text("")
      ensures n < 0 ==> EndsAs(o, taken != old(taken), Prospect(old(State()), false))
      ensures Justified(o, State()) && (Healthy(old(State())) ==> o.Text?)
    {
      ReadAllReturns(State());
      if failed {
        return Raised;
      }
      if n == 0 {
        return Text("");
      }
      if n > 0 {
        SomeReadKeeps(State(), n);
        SomeReadReturns(State(), n);
        o := ReadSome(n);
        Reassociate(old(taken), Answered(o), Total(State()));
      } else {
        ghost var blocks;
        o, blocks := ReadAll();
        Reassociate(old(taken), blocks, Total(State()));
      }
    }
  }

  /** The failing example, read: text is taken, and an exception comes. */
  method ReadAllFails() returns (o: Outcome, ghost taken: string)
    ensures o.Raised? && taken != ""
  {
    var events := [Feed("ab"), Resume, Fail, Resume];
    var reader := new TextStreamReader(4, events);
    FailureLosesText();
    o := reader.Read(-1);
    taken := reader.taken;
  }
}
