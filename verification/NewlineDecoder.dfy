/** Universal newlines over a chunked text stream: `_TextNewlineDecoder` in
    python/rsloop/_loop_compat.py. The bytes of a chunk are taken as already
    decoded.

    `Translate` is the translation of a whole text by three replacements. The
    partner definition `Scan` reads the text once, character by character,
    counting the carriage returns since the last other character. */
module NewlineDecoder {
  import opened Sequences

  const CR: char := '\r'
  const LF: char := '\n'

  predicate StartsWith(s: string, pattern: string) {
    |pattern| <= |s| && forall i :: 0 <= i < |pattern| ==> s[i] == pattern[i]
  }

  /** Replaces every occurrence, found from left to right, by one line feed. */
  function Replace(s: string, pattern: string): (r: string)
    requires pattern != ""
    decreases |s|
  {
    if s == "" then ""
    else if StartsWith(s, pattern) then [LF] + Replace(s[|pattern|..], pattern)
    else [s[0]] + Replace(s[1..], pattern)
  }

  function Translate(text: string): (r: string) {
    Replace(Replace(Replace(text, [CR, CR, LF]), [CR, LF]), [CR])
  }

  // ----- The automaton -----

  function Many(c: char, n: nat): (s: string)
    ensures |s| == n
  {
    seq(n, _ => c)
  }

  lemma ManyAdd(c: char, m: nat, n: nat)
    ensures Many(c, m) + Many(c, n) == Many(c, m + n)
    ensures n > 0 ==> Many(c, n) == [c] + Many(c, n - 1) == Many(c, n - 1) + [c]
  {
  }

  /** Line feeds for `k` carriage returns followed by `c`. */
  function RunEnd(k: nat, c: char): (r: string) {
    if c == LF then Many(LF, if k <= 3 then 1 else k - 2) else Many(LF, k) + [c]
  }

  /** Output for the finished part of the text, and the run at its end. */
  function Scan(k: nat, s: string): (r: (string, nat))
    decreases |s|
  {
    if s == "" then ("", k)
    else if s[0] == CR then Scan(k + 1, s[1..])
    else var rest := Scan(0, s[1..]); (RunEnd(k, s[0]) + rest.0, rest.1)
  }

  /** Output for the whole text. */
  function Scanned(k: nat, s: string): (r: string) {
    Scan(k, s).0 + Many(LF, Scan(k, s).1)
  }

  lemma {:induction false} ScanConcat(k: nat, s: string, t: string)
    ensures var a := Scan(k, s);
            var b := Scan(a.1, t);
            Scan(k, s + t) == (a.0 + b.0, b.1)
    decreases |s|
  {
    if s == "" {
      assert s + t == t;
      assert "" + Scan(k, t).0 == Scan(k, t).0;
    } else {
      assert (s + t)[1..] == s[1..] + t;
      if s[0] == CR {
        ScanConcat(k + 1, s[1..], t);
      } else {
        ScanConcat(0, s[1..], t);
        var a := Scan(0, s[1..]);
        assert RunEnd(k, s[0]) + (a.0 + Scan(a.1, t).0) == (RunEnd(k, s[0]) + a.0) + Scan(a.1, t).0;
      }
    }
  }

  lemma {:induction false} ScanRun(k: nat, n: nat)
    ensures Scan(k, Many(CR, n)) == ("", k + n)
    decreases n
  {
    if n > 0 {
      assert Many(CR, n)[1..] == Many(CR, n - 1);
      ScanRun(k + 1, n - 1);
    }
  }

  // ----- The three replacements are the automaton -----

  /** Carriage returns, then one more character. */
  predicate Pattern(p: string) {
    p != "" && forall i :: 0 <= i < |p| - 1 ==> p[i] == CR
  }

  lemma ReplaceHead(s: string, p: string, n: nat, head: char)
    requires s != "" && p != ""
    requires if StartsWith(s, p) then n == |p| && head == LF else n == 1 && head == s[0]
    ensures Replace(s, p) == [head] + Replace(s[n..], p)
  {
  }

  predicate EndsOpen(s: string) {
    s != "" && s[|s| - 1] == CR
  }

  /** No occurrence spans a place that does not follow a carriage return. */
  lemma NoStraddle(a: string, b: string, p: string)
    requires Pattern(p) && a != "" && !EndsOpen(a)
    ensures StartsWith(a + b, p) <==> StartsWith(a, p)
  {
    if |a| < |p| {
      assert (a + b)[|a| - 1] != CR && p[|a| - 1] == CR;
    }
  }

  lemma {:induction false} ReplaceSplits(a: string, b: string, p: string)
    requires Pattern(p) && !EndsOpen(a)
    ensures Replace(a + b, p) == Replace(a, p) + Replace(b, p)
    decreases |a|
  {
    if a == "" {
      assert a + b == b;
    } else {
      NoStraddle(a, b, p);
      var n: nat := if StartsWith(a, p) then |p| else 1;
      var head := if StartsWith(a, p) then LF else a[0];
      ReplaceHead(a, p, n, head);
      ReplaceHead(a + b, p, n, head);
      assert (a + b)[n..] == a[n..] + b;
      ReplaceSplits(a[n..], b, p);
      Reassociate([head], Replace(a[n..], p), Replace(b, p));
    }
  }

  lemma {:induction false} ReplaceCloses(a: string, p: string)
    requires Pattern(p) && !EndsOpen(a)
    ensures !EndsOpen(Replace(a, p))
    decreases |a|
  {
    if a != "" {
      var n: nat := if StartsWith(a, p) then |p| else 1;
      ReplaceHead(a, p, n, if StartsWith(a, p) then LF else a[0]);
      ReplaceCloses(a[n..], p);
    }
  }

  lemma TranslateSplits(a: string, b: string)
    requires !EndsOpen(a)
    ensures Translate(a + b) == Translate(a) + Translate(b)
  {
    var p, q, r := [CR, CR, LF], [CR, LF], [CR];
    ReplaceSplits(a, b, p);
    ReplaceCloses(a, p);
    ReplaceSplits(Replace(a, p), Replace(b, p), q);
    ReplaceCloses(Replace(a, p), q);
    ReplaceSplits(Replace(Replace(a, p), q), Replace(Replace(b, p), q), r);
  }

  /** A run without a line feed is left alone by the longer patterns. */
  lemma {:induction false} ReplaceOpenRun(k: nat, p: string)
    requires Pattern(p) && p[|p| - 1] == LF
    ensures Replace(Many(CR, k), p) == Many(CR, k)
    decreases k
  {
    if k > 0 {
      var s := Many(CR, k);
      assert |p| <= k ==> s[|p| - 1] != p[|p| - 1];
      assert s[1..] == Many(CR, k - 1);
      ReplaceOpenRun(k - 1, p);
      ManyAdd(CR, 0, k);
    }
  }

  lemma RunGrows(k: nat, c: char)
    requires k > 0
    ensures [CR] + (Many(CR, k - 1) + [c]) == Many(CR, k) + [c]
  {
    ManyAdd(CR, 0, k);
  }

  /** A run before `c`: with a line feed the pattern takes its end. */
  lemma {:induction false} ReplaceRun(k: nat, c: char, p: string)
    requires c != CR && Pattern(p) && p[|p| - 1] == LF
    ensures Replace(Many(CR, k) + [c], p) ==
            (if c == LF && k >= |p| - 1 then Many(CR, k - (|p| - 1)) + [LF] else Many(CR, k) + [c])
    decreases k
  {
    var s := Many(CR, k) + [c];
    if c == LF && k == |p| - 1 {
      assert s == p;
      assert s[|p|..] == "";
    } else {
      assert |p| <= k ==> s[|p| - 1] != p[|p| - 1];
      assert k < |p| ==> s[k] != p[k];
      ReplaceHead(s, p, 1, s[0]);
      if k > 0 {
        assert s[1..] == Many(CR, k - 1) + [c];
        ReplaceRun(k - 1, c, p);
        RunGrows(k, c);
        if c == LF && k >= |p| - 1 {
          RunGrows(k - (|p| - 1), c);
        }
      } else {
        assert s[1..] == "" && s == [c];
      }
    }
  }

  /** The last replacement turns each carriage return into a line feed. */
  lemma {:induction false} ReplaceEach(k: nat, tail: string)
    requires |tail| <= 1 && (tail != "" ==> tail[0] != CR)
    ensures Replace(Many(CR, k) + tail, [CR]) == Many(LF, k) + tail
    decreases k
  {
    var s := Many(CR, k) + tail;
    if k > 0 {
      assert s[0] == CR && s[1..] == Many(CR, k - 1) + tail;
      ReplaceEach(k - 1, tail);
      ManyAdd(LF, 0, k);
      assert [LF] + (Many(LF, k - 1) + tail) == Many(LF, k) + tail;
    } else if tail != "" {
      assert s == tail && s[1..] == "";
    }
  }

  lemma TranslateRun(k: nat, c: char)
    requires c != CR
    ensures Translate(Many(CR, k) + [c]) == RunEnd(k, c)
  {
    ReplaceRun(k, c, [CR, CR, LF]);
    var m: nat := if c == LF && k >= 2 then k - 2 else k;
    ReplaceRun(m, c, [CR, LF]);
    var n: nat := if c == LF && m >= 1 then m - 1 else m;
    ReplaceEach(n, [c]);
    ManyAdd(LF, n, 1);
  }

  lemma TranslateOpenRun(k: nat)
    ensures Translate(Many(CR, k)) == Many(LF, k)
  {
    ReplaceOpenRun(k, [CR, CR, LF]);
    ReplaceOpenRun(k, [CR, LF]);
    ReplaceEach(k, "");
    assert Many(CR, k) + "" == Many(CR, k) && Many(LF, k) + "" == Many(LF, k);
  }

  /** The three replacements compute what one pass of the automaton does. */
  lemma {:induction false} TranslateIsScan(k: nat, s: string)
    ensures Translate(Many(CR, k) + s) == Scanned(k, s)
    decreases |s|
  {
    if s == "" {
      TranslateOpenRun(k);
      assert Many(CR, k) + s == Many(CR, k);
    } else if s[0] == CR {
      ManyAdd(CR, 0, k + 1);
      assert Many(CR, k) + s == Many(CR, k + 1) + s[1..];
      TranslateIsScan(k + 1, s[1..]);
    } else {
      var head := Many(CR, k) + [s[0]];
      assert Many(CR, k) + s == head + s[1..];
      TranslateSplits(head, s[1..]);
      TranslateRun(k, s[0]);
      assert Many(CR, 0) + s[1..] == s[1..];
      TranslateIsScan(0, s[1..]);
    }
  }

  // ----- The decoder -----

  /** Carriage returns held back at the end of a chunk. */
  function Held(k: nat): (n: nat) {
    if k < 2 then k else 2
  }

  /** Line feeds written at the end of a chunk for a run still open. */
  function Written(k: nat, final: bool): (n: nat) {
    if final then k else k - Held(k)
  }

  lemma {:induction false} ScanClosed(k: nat, s: string)
    requires s != "" && !EndsOpen(s)
    ensures Scan(k, s).1 == 0
    decreases |s|
  {
    if |s| > 1 {
      ScanClosed(if s[0] == CR then k + 1 else 0, s[1..]);
    }
  }

  /** The text of a call, cut where the decoder cuts it. */
  lemma CutText(p: nat, chunk: string, text: string, n: nat)
    requires text == Many(CR, p) + chunk && n <= |text| && n <= 2
    requires text[|text| - n..] == Many(CR, n)
    requires n < 2 ==> !EndsOpen(text[..|text| - n])
    ensures Held(Scan(p, chunk).1) == n
    ensures Translate(text[..|text| - n]) == Scan(p, chunk).0 + Many(LF, Scan(p, chunk).1 - n)
  {
    var body := text[..|text| - n];
    assert text == body + Many(CR, n);
    ScanBehind(p, chunk);
    ScanAhead(body, n);
    if n < 2 && body != "" {
      ScanClosed(0, body);
    }
    TranslateIsScan(0, body);
    assert Many(CR, 0) + body == body;
  }

  lemma ScanBehind(p: nat, chunk: string)
    ensures Scan(0, Many(CR, p) + chunk) == Scan(p, chunk)
  {
    ScanConcat(0, Many(CR, p), chunk);
    ScanRun(0, p);
    assert "" + Scan(p, chunk).0 == Scan(p, chunk).0;
  }

  lemma ScanAhead(body: string, n: nat)
    ensures Scan(0, body + Many(CR, n)) == (Scan(0, body).0, Scan(0, body).1 + n)
  {
    ScanConcat(0, body, Many(CR, n));
    ScanRun(Scan(0, body).1, n);
    assert Scan(0, body).0 + "" == Scan(0, body).0;
  }

  class TextNewlineDecoder {
    var pending: string

    ghost predicate Valid() reads this {
      |pending| <= 2 && pending == Many(CR, |pending|)
    }

    constructor ()
      ensures Valid() && pending == ""
    {
      pending := "";
    }

    /** Decodes one chunk: as if the automaton had read the pending carriage
        returns and then the chunk, but with the last two of an open run held
        back unless this is the last chunk. */
    method Decode(chunk: string, final: bool) returns (out: string)
      requires Valid()
      modifies this
      ensures Valid()
      ensures var r := Scan(|old(pending)|, chunk);
              && out == r.0 + Many(LF, Written(r.1, final))
              && |pending| == if final then 0 else Held(r.1)
    {
      var text := pending + chunk;
      if final {
        TranslateIsScan(|pending|, chunk);
        pending := "";
        return Translate(text);
      }
      var n := 0;
      while n < 2 && n < |text| && text[|text| - 1 - n] == CR
        invariant 0 <= n <= 2 && n <= |text|
        invariant forall i :: |text| - n <= i < |text| ==> text[i] == CR
      {
        n := n + 1;
      }
      assert text[|text| - n..] == Many(CR, n);
      CutText(|pending|, chunk, text, n);
      pending := text[|text| - n..];
      out := Translate(text[..|text| - n]);
    }
  }

  /** A stream of chunks, the last one flushed, from a decoder that holds `p`
      carriage returns. */
  function Streamed(p: nat, chunks: seq<string>): (out: string)
    requires chunks != []
    decreases |chunks|
  {
    var r := Scan(p, chunks[0]);
    if |chunks| == 1 then r.0 + Many(LF, Written(r.1, true))
    else (r.0 + Many(LF, Written(r.1, false))) + Streamed(Held(r.1), chunks[1..])
  }

  lemma StreamedNext(p: nat, chunks: seq<string>, i: nat)
    requires i < |chunks| - 1
    ensures var r := Scan(p, chunks[i]);
            Streamed(p, chunks[i..]) == (r.0 + Many(LF, Written(r.1, false))) + Streamed(Held(r.1), chunks[i + 1..])
  {
    assert chunks[i..][0] == chunks[i] && chunks[i..][1..] == chunks[i + 1..];
  }

  method DecodeAll(chunks: seq<string>) returns (out: string)
    requires chunks != []
    ensures out == Streamed(0, chunks)
  {
    var decoder := new TextNewlineDecoder();
    out := "";
    var i := 0;
    assert chunks[0..] == chunks;
    while i < |chunks| - 1
      invariant 0 <= i < |chunks| && decoder.Valid() && fresh(decoder)
      invariant out + Streamed(|decoder.pending|, chunks[i..]) == Streamed(0, chunks)
      decreases |chunks| - i
    {
      StreamedNext(|decoder.pending|, chunks, i);
      ghost var before := out;
      var part := decoder.Decode(chunks[i], false);
      out := out + part;
      i := i + 1;
      Reassociate(before, part, Streamed(|decoder.pending|, chunks[i..]));
    }
    var last := decoder.Decode(chunks[i], true);
    out := out + last;
  }

  // ----- Chunk invariance, exactly -----

  function Join(chunks: seq<string>): (text: string) {
    if chunks == [] then "" else chunks[0] + Join(chunks[1..])
  }

  /** The chunk starts with the line feed of a run that was cut after three or
      more carriage returns. */
  predicate CutsRun(k: nat, chunk: string) {
    k >= 3 && chunk != "" && chunk[0] == LF
  }

  /** How many chunks do that. */
  function BadCuts(k: nat, chunks: seq<string>): (n: nat)
    decreases |chunks|
  {
    if chunks == [] then 0
    else (if CutsRun(k, chunks[0]) then 1 else 0) + BadCuts(Scan(k, chunks[0]).1, chunks[1..])
  }

  /** With `d` line feeds already written, a shorter run is as good. */
  lemma {:induction false} Shift(d: nat, r: nat, s: string, final: bool)
    requires d > 0 && r >= 2
    ensures var a, b := Scan(r, s), Scan(r + d, s);
            && Held(a.1) == Held(b.1)
            && Many(LF, d) + (a.0 + Many(LF, Written(a.1, final))) ==
               Many(LF, if r == 2 && s != "" && s[0] == LF then 1 else 0) + (b.0 + Many(LF, Written(b.1, final)))
    decreases |s|
  {
    if s == "" {
      ManyAdd(LF, d, Written(r, final));
      assert "" + Many(LF, Written(r, final)) == Many(LF, Written(r, final));
      assert Many(LF, 0) + ("" + Many(LF, Written(r + d, final))) == Many(LF, Written(r + d, final));
    } else if s[0] == CR {
      Shift(d, r + 1, s[1..], final);
    } else {
      var rest := Scan(0, s[1..]);
      ShiftEnd(d, r, s[0]);
      var extra := Many(LF, if r == 2 && s[0] == LF then 1 else 0);
      var tail := Many(LF, Written(rest.1, final));
      Regroup(Many(LF, d), RunEnd(r, s[0]), rest.0, tail);
      Regroup(extra, RunEnd(r + d, s[0]), rest.0, tail);
    }
  }

  lemma ShiftEnd(d: nat, r: nat, c: char)
    requires d > 0 && r >= 2
    ensures Many(LF, d) + RunEnd(r, c) == Many(LF, if r == 2 && c == LF then 1 else 0) + RunEnd(r + d, c)
  {
    if c == LF {
    } else {
      ManyAdd(LF, d, r);
    }
  }

  /** One chunk after a run of `k`, the start of which is written. */
  lemma OneChunk(k: nat, s: string, final: bool)
    ensures var a, b := Scan(Held(k), s), Scan(k, s);
            && Held(a.1) == Held(b.1)
            && Many(LF, Written(k, false)) + (a.0 + Many(LF, Written(a.1, final))) ==
               Many(LF, if CutsRun(k, s) then 1 else 0) + (b.0 + Many(LF, Written(b.1, final)))
  {
    if k >= 3 {
      Shift(k - 2, 2, s, final);
    }
  }

  /** The stream writes one line feed too many for each bad cut, and without
      one it writes exactly what the whole text translates to. */
  lemma {:induction false} StreamLength(k: nat, chunks: seq<string>)
    requires chunks != []
    ensures Written(k, false) + |Streamed(Held(k), chunks)| == |Scanned(k, Join(chunks))| + BadCuts(k, chunks)
    decreases |chunks|
  {
    var s := chunks[0];
    var a, b := Scan(Held(k), s), Scan(k, s);
    if |chunks| == 1 {
      OneChunk(k, s, true);
      assert Join(chunks) == s;
      Lengths(Written(k, false), a.0, Written(a.1, true), if CutsRun(k, s) then 1 else 0, b.0, Written(b.1, true));
    } else {
      OneChunk(k, s, false);
      Lengths(Written(k, false), a.0, Written(a.1, false), if CutsRun(k, s) then 1 else 0, b.0, Written(b.1, false));
      StreamLength(b.1, chunks[1..]);
      ScanConcat(k, s, Join(chunks[1..]));
    }
  }

  lemma Lengths(m: nat, a: string, n: nat, m': nat, b: string, n': nat)
    requires Many(LF, m) + (a + Many(LF, n)) == Many(LF, m') + (b + Many(LF, n'))
    ensures m + |a| + n == m' + |b| + n'
  {
    assert |Many(LF, m) + (a + Many(LF, n))| == m + |a| + n;
    assert |Many(LF, m') + (b + Many(LF, n'))| == m' + |b| + n';
  }

  lemma {:induction false} StreamExact(k: nat, chunks: seq<string>)
    requires chunks != [] && BadCuts(k, chunks) == 0
    ensures Many(LF, Written(k, false)) + Streamed(Held(k), chunks) == Scanned(k, Join(chunks))
    decreases |chunks|
  {
    var s := chunks[0];
    var a, b := Scan(Held(k), s), Scan(k, s);
    var written := Many(LF, Written(k, false));
    if |chunks| == 1 {
      OneChunk(k, s, true);
      assert Join(chunks) == s;
      assert Many(LF, 0) + (b.0 + Many(LF, Written(b.1, true))) == Scanned(k, s);
    } else {
      OneChunk(k, s, false);
      var rest, open := Streamed(Held(b.1), chunks[1..]), Many(LF, Written(b.1, false));
      StreamExact(b.1, chunks[1..]);
      ScanConcat(k, s, Join(chunks[1..]));
      AfterWritten(written, a.0 + Many(LF, Written(a.1, false)), rest, b.0, open);
      var whole := Scan(b.1, Join(chunks[1..]));
      assert b.0 + (whole.0 + Many(LF, whole.1)) == (b.0 + whole.0) + Many(LF, whole.1);
    }
  }

  lemma AfterWritten(w: string, a: string, rest: string, b: string, open: string)
    requires w + a == Many(LF, 0) + (b + open)
    ensures w + (a + rest) == b + (open + rest)
  {
    assert w + (a + rest) == (w + a) + rest;
  }

  /** A cutting of a text is decoded to the translation of the whole text
      exactly if no chunk starts with a line feed cut from three or more
      carriage returns before it. */
  lemma ChunkInvariance(chunks: seq<string>)
    requires chunks != []
    ensures Streamed(0, chunks) == Translate(Join(chunks)) <==> BadCuts(0, chunks) == 0
    ensures |Streamed(0, chunks)| == |Translate(Join(chunks))| + BadCuts(0, chunks)
  {
    var text := Join(chunks);
    TranslateIsScan(0, text);
    assert Many(CR, 0) + text == text;
    StreamLength(0, chunks);
    if BadCuts(0, chunks) == 0 {
      StreamExact(0, chunks);
      assert Many(LF, 0) + Streamed(0, chunks) == Streamed(0, chunks);
    }
  }

  // ----- Which texts are safe under every cutting -----

  /** Three carriage returns directly before a line feed. */
  predicate TripleAt(text: string, i: nat) {
    i + 4 <= |text| && text[i] == CR && text[i + 1] == CR && text[i + 2] == CR && text[i + 3] == LF
  }

  ghost predicate HasTriple(text: string) {
    exists i: nat :: TripleAt(text, i)
  }

  /** The run the automaton counts is there, at the end of what it read. */
  lemma {:induction false} RunIsThere(k: nat, s: string)
    ensures var m := Scan(k, s).1;
            m <= k + |s| && forall i :: |s| - m <= i < |s| && 0 <= i ==> s[i] == CR
    decreases |s|
  {
    if s != "" {
      var k' := if s[0] == CR then k + 1 else 0;
      RunIsThere(k', s[1..]);
      assert forall i :: 1 <= i < |s| ==> s[i] == s[1..][i - 1];
    }
  }

  /** A bad cut happens only where the text has such a triple. */
  lemma {:induction false} BadCutsNeedTriple(before: string, chunks: seq<string>)
    requires BadCuts(Scan(0, before).1, chunks) > 0
    ensures HasTriple(before + Join(chunks))
    decreases |chunks|
  {
    var s, rest := chunks[0], Join(chunks[1..]);
    var text := before + Join(chunks);
    assert text == (before + s) + rest;
    if CutsRun(Scan(0, before).1, s) {
      RunIsThere(0, before);
      var i: nat := |before| - 3;
      assert text[|before|] == s[0];
      assert TripleAt(text, i);
    } else {
      ScanConcat(0, before, s);
      BadCutsNeedTriple(before + s, chunks[1..]);
    }
  }

  /** Cutting inside a triple is a bad cut. */
  lemma TripleHasBadCut(text: string, i: nat)
    requires TripleAt(text, i)
    ensures var chunks := [text[..i + 3], text[i + 3..]];
            Join(chunks) == text && BadCuts(0, chunks) > 0
  {
    var a, b := text[..i + 3], text[i + 3..];
    assert a == text[..i] + Many(CR, 3);
    ScanConcat(0, text[..i], Many(CR, 3));
    ScanRun(Scan(0, text[..i]).1, 3);
    assert [a, b][1..] == [b] && Join([b]) == b + "" == b;
    assert a + b == text;
  }

  /** A text is decoded alike under every cutting exactly if no three carriage
      returns stand directly before a line feed. */
  lemma EveryCutting(text: string)
    ensures !HasTriple(text) <==>
            forall chunks: seq<string> :: chunks != [] && Join(chunks) == text ==>
              Streamed(0, chunks) == Translate(text)
  {
    if !HasTriple(text) {
      forall chunks: seq<string> | chunks != [] && Join(chunks) == text
        ensures Streamed(0, chunks) == Translate(text)
      {
        ChunkInvariance(chunks);
        assert "" + text == text;
        if BadCuts(0, chunks) > 0 {
          BadCutsNeedTriple("", chunks);
        }
      }
    } else {
      var i: nat :| TripleAt(text, i);
      var chunks := [text[..i + 3], text[i + 3..]];
      TripleHasBadCut(text, i);
      ChunkInvariance(chunks);
      assert Streamed(0, chunks) != Translate(text);
    }
  }

  /** The smallest text on which a cutting shows. */
  lemma CutTripleDiffers()
    ensures Streamed(0, [[CR, CR, CR], [LF]]) != Translate([CR, CR, CR, LF])
  {
    var text := [CR, CR, CR, LF];
    TripleHasBadCut(text, 0);
    assert text[..3] == [CR, CR, CR] && text[3..] == [LF];
    ChunkInvariance([[CR, CR, CR], [LF]]);
  }
}
