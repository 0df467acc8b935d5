/**
 `LogTail` refines `Split`: over any arrival of bytes and any polling, the lines
 handed out are the lines of the file.

 `file` is what the file holds in the end. A schedule is `Settled` when the file
 has stopped growing by any read made after `finished()` held.
 */
module LogTailProofs {
  import opened Wrappers
  import opened LogTail

  /** The buffer is the stretch of the file that follows the last line handed out. */
  ghost predicate Buffered(t: Tail, file: Bytes) {
    t.offset + |t.buf| <= |file| && t.buf == file[t.offset..t.offset + |t.buf|]
  }

  ghost predicate Settled(file: Bytes, polls: seq<Poll>) {
    forall i, j :: 0 <= i <= j < |polls| && polls[i].done ==> polls[j].visible >= |file|
  }

  /** No read fails once `finished()` has held. */
  ghost predicate Readable(polls: seq<Poll>) {
    forall i :: 0 <= i < |polls| && polls[i].done ==> !polls[i].failed
  }

  /** A line cut early is the line whatever follows: no CRLF is cut in two. */
  lemma {:induction false} CutIsStable(b: Bytes, whole: Bytes)
    requires b <= whole && CutEnd(b, false).Some?
    ensures whole != [] && FirstEnd(whole) == CutEnd(b, false).value
  {
    if b[0] != LF && b[0] != CR {
      CutIsStable(b[1..], whole[1..]);
    }
  }

  lemma {:induction false} CutFinal(b: Bytes)
    requires b != []
    ensures FirstEnd(b) == if CutEnd(b, true).Some? then CutEnd(b, true).value else |b|
  {
    if b[0] != LF && b[0] != CR && |b| > 1 {
      CutFinal(b[1..]);
    }
  }

  /** What `Next` owes its caller: the next line of the file, or nothing. */
  ghost predicate Advances(t: Tail, t': Tail, out: Outcome, file: Bytes)
    requires t.offset <= |file|
  {
    && Buffered(t', file)
    && (match out
        case Line(raw) =>
          && raw != []
          && t'.offset == t.offset + |raw|
          && Split(file[t.offset..]) == [raw] + Split(file[t'.offset..])
        case Stop(closed) => t'.offset == t.offset && (!closed ==> t.offset == |file|)
        case Pending => t'.offset == t.offset)
  }

  lemma {:induction false} HandsOutFirst(t: Tail, e: nat, file: Bytes)
    requires Buffered(t, file) && 1 <= e <= |t.buf| && FirstEnd(file[t.offset..]) == e
    ensures Advances(t, HandOut(t, e), Line(t.buf[..e]), file)
  {
    var rest := file[t.offset..];
    assert rest[..e] == t.buf[..e];
    assert rest[e..] == file[t.offset + e..];
  }

  /** A poll whose read can be trusted once `finished()` held. */
  predicate Good(file: Bytes, p: Poll) {
    p.done ==> !p.failed && p.visible >= |file|
  }

  lemma {:induction false} ReadIsNext(file: Bytes, pos: nat, p: Poll)
    requires pos <= |file|
    ensures pos + |ReadMore(file, pos, p)| <= |file|
    ensures ReadMore(file, pos, p) == file[pos..pos + |ReadMore(file, pos, p)|]
    ensures p.done && Good(file, p) && ReadMore(file, pos, p) == [] ==> pos == |file|
  {
  }

  lemma {:induction false} Grows(t: Tail, file: Bytes, chunk: Bytes)
    requires Buffered(t, file) && t.offset + |t.buf| + |chunk| <= |file|
    requires chunk == file[t.offset + |t.buf|..t.offset + |t.buf| + |chunk|]
    ensures Buffered(t.(buf := t.buf + chunk), file)
  {
    var n := t.offset + |t.buf|;
    assert file[t.offset..n] + file[n..n + |chunk|] == file[t.offset..n + |chunk|];
  }

  /** At the end of the file, what is left in the buffer is its last lines. */
  lemma {:induction false} FinalCutRefines(t: Tail, file: Bytes)
    requires Buffered(t, file) && t.buf != [] && t.offset + |t.buf| == |file|
    ensures FirstEnd(t.buf) <= |t.buf|
    ensures Advances(t, HandOut(t, FirstEnd(t.buf)), Line(t.buf[..FirstEnd(t.buf)]), file)
  {
    assert t.buf == file[t.offset..];
    HandsOutFirst(t, FirstEnd(t.buf), file);
  }

  lemma {:induction false} TurnRefines(t: Tail, file: Bytes, p: Poll)
    requires Buffered(t, file) && CutEnd(t.buf, false).None? && Good(file, p)
    ensures
      var r := Turn(t, file, p);
      && r.0.committed == t.committed
      && (if r.1.None? then r.0.offset == t.offset && Buffered(r.0, file) else Advances(t, r.0, r.1.value, file))
  {
    var pos := t.offset + |t.buf|;
    var chunk := ReadMore(file, pos, p);
    ReadIsNext(file, pos, p);
    if p.closed {
      assert Turn(t, file, p) == (t, Some(Stop(true)));
    } else if chunk != [] {
      Grows(t, file, chunk);
      assert Turn(t, file, p) == (t.(buf := t.buf + chunk), None);
    } else if !p.done {
      assert Turn(t, file, p) == (t, None);
    } else if t.buf == [] {
      assert Turn(t, file, p) == (t, Some(Stop(false)));
    } else {
      CutFinal(t.buf);
      FinalCutRefines(t, file);
      var n := FirstEnd(t.buf);
      assert Turn(t, file, p) == (HandOut(t, n), Some(Line(t.buf[..n])));
    }
  }

  lemma {:induction false} LoopRefines(t: Tail, file: Bytes, polls: seq<Poll>)
    requires Buffered(t, file) && Settled(file, polls) && Readable(polls)
    ensures Advances(t, Loop(t, file, polls).0, Loop(t, file, polls).1, file)
    ensures Loop(t, file, polls).0.committed == t.committed
    decreases |polls|
  {
    var e := CutEnd(t.buf, false);
    if e.Some? {
      CutIsStable(t.buf, file[t.offset..]);
      HandsOutFirst(t, e.value, file);
    } else if polls != [] {
      assert Good(file, polls[0]);
      TurnRefines(t, file, polls[0]);
      if Turn(t, file, polls[0]).1.None? {
        Later(file, polls, 1);
        LoopRefines(Turn(t, file, polls[0]).0, file, polls[1..]);
      }
    }
  }

  lemma {:induction false} Later(file: Bytes, polls: seq<Poll>, k: nat)
    requires Settled(file, polls) && Readable(polls) && k <= |polls|
    ensures Settled(file, polls[k..]) && Readable(polls[k..])
  {
    var rest := polls[k..];
    forall i, j | 0 <= i <= j < |rest| && rest[i].done
      ensures rest[j].visible >= |file|
    {
      assert polls[k + i].done;
    }
  }

  lemma {:induction false} PrependLine(raw: Bytes, lines: seq<Bytes>, rest: seq<Bytes>, whole: seq<Bytes>)
    requires lines + rest == whole
    ensures ([raw] + lines) + rest == [raw] + whole
    ensures rest == [] ==> lines == whole
  {
  }

  /**
   The lines handed out are the first lines of the file from `start`, the rest of
   it is the lines still to come, and a tail that ends on its own has handed out
   every line.
   */
  lemma {:induction false} TailRefinesSplit(t: Tail, file: Bytes, polls: seq<Poll>)
    requires Buffered(t, file) && Settled(file, polls) && Readable(polls)
    ensures Buffered(ReadAll(t, file, polls).1, file)
    ensures ReadAll(t, file, polls).0 + Split(file[ReadAll(t, file, polls).1.offset..]) == Split(file[t.offset..])
    ensures ReadAll(t, file, polls).2 == Stop(false) ==>
      ReadAll(t, file, polls).1.offset == |file| && ReadAll(t, file, polls).0 == Split(file[t.offset..])
    decreases |polls|, |t.buf|
  {
    var r := Next(t, file, polls);
    LoopRefines(t.(committed := t.offset), file, polls);
    if r.1.Line? {
      Later(file, polls, r.2);
      TailRefinesSplit(r.0, file, polls[r.2..]);
      var q := ReadAll(r.0, file, polls[r.2..]);
      PrependLine(r.1.raw, q.0, Split(file[q.1.offset..]), Split(file[r.0.offset..]));
      assert q.2 == Stop(false) ==> file[q.1.offset..] == [];
    } else if r.1 == Stop(false) {
      assert file[r.0.offset..] == [];
    }
  }

  /** Two schedules that both run to the end hand out the same lines. */
  lemma {:induction false} PollingDoesNotMatter(t: Tail, file: Bytes, polls: seq<Poll>, polls': seq<Poll>)
    requires Buffered(t, file) && Settled(file, polls) && Readable(polls) && Settled(file, polls') && Readable(polls')
    requires ReadAll(t, file, polls).2 == Stop(false) && ReadAll(t, file, polls').2 == Stop(false)
    ensures ReadAll(t, file, polls).0 == ReadAll(t, file, polls').0
  {
    TailRefinesSplit(t, file, polls);
    TailRefinesSplit(t, file, polls');
  }

  /** How many more polls a finished tail can need: each reads a byte, or closes a line, or stops. */
  function Work(t: Tail, file: Bytes): int {
    |file| - (t.offset + |t.buf|) + (if t.buf == [] && t.offset == |file| then 1 else 2)
  }

  ghost predicate Finishing(file: Bytes, polls: seq<Poll>) {
    forall i :: 0 <= i < |polls| ==> polls[i].done && !polls[i].closed && Good(file, polls[i])
  }

  lemma {:induction false} TurnWorks(t: Tail, file: Bytes, p: Poll)
    requires Buffered(t, file) && CutEnd(t.buf, false).None?
    requires p.done && !p.closed && Good(file, p)
    ensures
      var r := Turn(t, file, p);
      && (r.1.None? || r.1.value.Line? || r.1.value == Stop(false))
      && (r.1.None? || r.1.value.Line? ==> Work(r.0, file) < Work(t, file))
  {
    ReadIsNext(file, t.offset + |t.buf|, p);
    if t.buf != [] {
      CutWhole(t.buf);
    }
  }

  lemma {:induction false} LoopEnds(t: Tail, file: Bytes, polls: seq<Poll>)
    requires Buffered(t, file) && Finishing(file, polls) && |polls| >= Work(t, file)
    ensures
      var r := Loop(t, file, polls);
      && (r.1.Line? || r.1 == Stop(false))
      && (r.1.Line? ==> |polls| - r.2 >= Work(r.0, file))
    decreases |polls|
  {
    if CutEnd(t.buf, false).None? {
      TurnWorks(t, file, polls[0]);
      TurnRefines(t, file, polls[0]);
      if Turn(t, file, polls[0]).1.None? {
        LoopEnds(Turn(t, file, polls[0]).0, file, polls[1..]);
      }
    }
  }

  /** Once finished, with every read good, the iteration ends. */
  lemma {:induction false} TailEnds(t: Tail, file: Bytes, polls: seq<Poll>)
    requires Buffered(t, file) && Finishing(file, polls) && |polls| >= Work(t, file)
    ensures ReadAll(t, file, polls).2 == Stop(false)
    decreases |polls|, |t.buf|
  {
    LoopEnds(t.(committed := t.offset), file, polls);
    LoopRefines(t.(committed := t.offset), file, polls);
    var r := Next(t, file, polls);
    if r.1.Line? {
      TailEnds(r.0, file, polls[r.2..]);
    }
  }

  /** A buffer without a complete line is cut as a whole at the end. */
  lemma {:induction false} CutWhole(b: Bytes)
    requires b != [] && CutEnd(b, false).None?
    ensures CutEnd(b, true).Some? ==> CutEnd(b, true).value == |b|
  {
    if b[0] != LF && b[0] != CR {
      if |b| > 1 { CutWhole(b[1..]); }
    }
  }

  // ----- where a failed read breaks it -----------------------------------------------------

  /**
   A read that fails after `finished()` held is taken for the end of the file. With an
   empty buffer the tail then stops, with everything handed out exactly when nothing was
   left to read. Otherwise it hands the buffered bytes out; they are the file's next line
   exactly when nothing was left to read, or they end in a CR that no LF follows.
   */
  lemma {:induction false} FailedReadExact(t: Tail, file: Bytes, p: Poll)
    requires Buffered(t, file) && CutEnd(t.buf, false).None?
    requires p.done && p.failed && !p.closed
    ensures
      var rest := file[t.offset..];
      if t.buf == [] then
        && Turn(t, file, p) == (t, Some(Stop(false)))
        && (Split(rest) == [] <==> t.offset == |file|)
      else
        && Turn(t, file, p) == (HandOut(t, |t.buf|), Some(Line(t.buf)))
        && (Split(rest) == [t.buf] + Split(file[t.offset + |t.buf|..])
            <==> (|rest| == |t.buf| || (t.buf[|t.buf| - 1] == CR && rest[|t.buf|] != LF)))
        && (Split(rest)[0] == t.buf <==> Split(rest) == [t.buf] + Split(file[t.offset + |t.buf|..]))
  {
    if t.buf != [] {
      FailedTurn(t, file, p);
      BufferedLineIff(t, file);
    }
  }

  lemma {:induction false} FailedTurn(t: Tail, file: Bytes, p: Poll)
    requires t.buf != [] && CutEnd(t.buf, false).None? && p.done && p.failed && !p.closed
    ensures Turn(t, file, p) == (HandOut(t, |t.buf|), Some(Line(t.buf)))
  {
    CutWhole(t.buf);
    assert t.buf[..|t.buf|] == t.buf;
  }

  lemma {:induction false} BufferedLineIff(t: Tail, file: Bytes)
    requires Buffered(t, file) && t.buf != [] && CutEnd(t.buf, false).None?
    ensures
      var rest, n := file[t.offset..], |t.buf|;
      && (Split(rest) == [t.buf] + Split(file[t.offset + n..])
          <==> (|rest| == n || (t.buf[n - 1] == CR && rest[n] != LF)))
      && (Split(rest)[0] == t.buf <==> Split(rest) == [t.buf] + Split(file[t.offset + n..]))
  {
    var tail := file[t.offset + |t.buf|..];
    assert file[t.offset..] == t.buf + tail;
    BufferIsLineIff(t.buf, tail);
  }

  lemma {:induction false} BufferIsLineIff(b: Bytes, tail: Bytes)
    requires b != [] && CutEnd(b, false).None?
    ensures Split(b + tail) == [b] + Split(tail) <==> (tail == [] || (b[|b| - 1] == CR && tail[0] != LF))
    ensures Split(b + tail)[0] == b <==> Split(b + tail) == [b] + Split(tail)
  {
    var rest, n := b + tail, |b|;
    assert rest[..n] == b && rest[n..] == tail;
    FirstEndIsBufferIff(rest, n);
    if FirstEnd(rest) != n {
      assert Split(rest)[0] == rest[..FirstEnd(rest)] && |Split(rest)[0]| != n;
    }
  }

  lemma {:induction false} FirstEndIsBufferIff(rest: Bytes, n: nat)
    requires 0 < n <= |rest| && CutEnd(rest[..n], false).None?
    ensures FirstEnd(rest) == n <==> (|rest| == n || (rest[n - 1] == CR && rest[n] != LF))
  {
    var b := rest[..n];
    NoBreakInside(b);
    FirstEndIsFirstLine(rest);
    forall i | 0 < i < n
      ensures !BreakAt(rest, i)
    {
      assert BreakAt(b, i) <==> BreakAt(rest, i);
    }
    if |rest| == n || BreakAt(rest, n) {
      FirstLineUnique(rest, FirstEnd(rest), n);
    }
  }

  lemma {:induction false} NoBreakInside(b: Bytes)
    requires b != [] && CutEnd(b, false).None?
    ensures forall i :: 0 < i < |b| ==> !BreakAt(b, i)
    ensures b[|b| - 1] != LF
  {
    if b[0] != LF && b[0] != CR && |b| > 1 {
      NoBreakInside(b[1..]);
      forall i | 0 < i < |b|
        ensures !BreakAt(b, i)
      {
        if i > 1 { assert BreakAt(b, i) <==> BreakAt(b[1..], i - 1); }
      }
    }
  }

  // ----- exactly which schedules keep it -----------------------------------------------------

  /** If this read fails after `finished()` held, nothing is lost and no line is cut short. */
  predicate ReadHarmless(t: Tail, file: Bytes, p: Poll) {
    p.done && p.failed && !p.closed ==>
      var end := t.offset + |t.buf|;
      end >= |file| || (t.buf != [] && t.buf[|t.buf| - 1] == CR && file[end] != LF)
  }

  predicate LoopHarmless(t: Tail, file: Bytes, polls: seq<Poll>)
    decreases |polls|
  {
    CutEnd(t.buf, false).Some? || polls == [] ||
    (ReadHarmless(t, file, polls[0])
     && var turn := Turn(t, file, polls[0]);
        turn.1.Some? || LoopHarmless(turn.0, file, polls[1..]))
  }

  /** So it is for every read that the iteration comes to. */
  predicate Harmless(t: Tail, file: Bytes, polls: seq<Poll>)
    decreases |polls|, |t.buf|
  {
    LoopHarmless(t.(committed := t.offset), file, polls)
    && var r := Next(t, file, polls);
       r.1.Line? ==> Harmless(r.0, file, polls[r.2..])
  }

  lemma {:induction false} HarmlessTurnRefines(t: Tail, file: Bytes, p: Poll)
    requires Buffered(t, file) && CutEnd(t.buf, false).None? && ReadHarmless(t, file, p)
    requires p.done ==> p.visible >= |file|
    ensures
      var r := Turn(t, file, p);
      && r.0.committed == t.committed
      && (if r.1.None? then r.0.offset == t.offset && Buffered(r.0, file) else Advances(t, r.0, r.1.value, file))
  {
    if p.closed {
    } else if p.done && p.failed {
      FailedReadExact(t, file, p);
    } else {
      TurnRefines(t, file, p);
    }
  }

  /** The step loses lines, or hands out bytes that are not the next line. */
  ghost predicate Fails(t: Tail, t': Tail, out: Outcome, file: Bytes)
    requires t.offset <= |file|
  {
    && Buffered(t', file)
    && (if out.Line? then Split(file[t.offset..]) != [] && Split(file[t.offset..])[0] != out.raw
        else out == Stop(false) && t'.offset < |file|)
  }

  lemma {:induction false} HarmfulTurnFails(t: Tail, file: Bytes, p: Poll)
    requires Buffered(t, file) && CutEnd(t.buf, false).None? && !ReadHarmless(t, file, p)
    ensures Turn(t, file, p).1.Some? && Fails(t, Turn(t, file, p).0, Turn(t, file, p).1.value, file)
  {
    FailedReadExact(t, file, p);
  }

  lemma {:induction false} SettledLater(file: Bytes, polls: seq<Poll>, k: nat)
    requires Settled(file, polls) && k <= |polls|
    ensures Settled(file, polls[k..])
  {
    var rest := polls[k..];
    forall i, j | 0 <= i <= j < |rest| && rest[i].done
      ensures rest[j].visible >= |file|
    {
      assert polls[k + i].done;
    }
  }

  lemma {:induction false} HarmlessLoopRefines(t: Tail, file: Bytes, polls: seq<Poll>)
    requires Buffered(t, file) && Settled(file, polls) && LoopHarmless(t, file, polls)
    ensures Advances(t, Loop(t, file, polls).0, Loop(t, file, polls).1, file)
    decreases |polls|
  {
    var e := CutEnd(t.buf, false);
    if e.Some? {
      CutIsStable(t.buf, file[t.offset..]);
      HandsOutFirst(t, e.value, file);
    } else if polls != [] {
      HarmlessTurnRefines(t, file, polls[0]);
      if Turn(t, file, polls[0]).1.None? {
        SettledLater(file, polls, 1);
        HarmlessLoopRefines(Turn(t, file, polls[0]).0, file, polls[1..]);
      }
    }
  }

  lemma {:induction false} HarmfulLoopFails(t: Tail, file: Bytes, polls: seq<Poll>)
    requires Buffered(t, file) && Settled(file, polls) && !LoopHarmless(t, file, polls)
    ensures Fails(t, Loop(t, file, polls).0, Loop(t, file, polls).1, file)
    decreases |polls|
  {
    if !ReadHarmless(t, file, polls[0]) {
      HarmfulTurnFails(t, file, polls[0]);
    } else {
      HarmlessTurnRefines(t, file, polls[0]);
      SettledLater(file, polls, 1);
      HarmfulLoopFails(Turn(t, file, polls[0]).0, file, polls[1..]);
    }
  }

  lemma {:induction false} ConsCancels(raw: Bytes, lines: seq<Bytes>, rest: seq<Bytes>, whole: seq<Bytes>)
    ensures ([raw] + lines) + rest == [raw] + whole <==> lines + rest == whole
  {
    assert ([raw] + lines) + rest == [raw] + (lines + rest);
    assert ([raw] + (lines + rest))[1..] == lines + rest && ([raw] + whole)[1..] == whole;
  }

  /** What is asked of an iteration that started at `start`: the file's lines, and all of them if it ends on its own. */
  ghost predicate Delivers(start: nat, lines: seq<Bytes>, t': Tail, out: Outcome, file: Bytes)
    requires start <= |file|
  {
    && Buffered(t', file)
    && lines + Split(file[t'.offset..]) == Split(file[start..])
    && (out == Stop(false) ==> t'.offset == |file|)
  }

  /** What `TailRefinesSplit` promises. */
  ghost predicate Refines(t: Tail, file: Bytes, polls: seq<Poll>)
    requires t.offset <= |file|
  {
    var (lines, t', out) := ReadAll(t, file, polls);
    Delivers(t.offset, lines, t', out, file)
  }

  /** A line handed out rightly leaves the promise to the rest of the iteration. */
  lemma {:induction false} DeliversOn(
      start: nat, raw: Bytes, next: nat, lines: seq<Bytes>, t': Tail, out: Outcome, file: Bytes)
    requires start <= |file| && next <= |file|
    requires Split(file[start..]) == [raw] + Split(file[next..])
    ensures Delivers(start, [raw] + lines, t', out, file) <==> Delivers(next, lines, t', out, file)
  {
    if Buffered(t', file) {
      ConsCancels(raw, lines, Split(file[t'.offset..]), Split(file[next..]));
    }
  }

  /**
   On any schedule on which the file has stopped growing once `finished()` holds: the
   lines handed out are the file's, and a tail that ends on its own has handed out all,
   exactly if every read that fails after that is harmless.
   */
  lemma {:induction false} TailRefinesIff(t: Tail, file: Bytes, polls: seq<Poll>)
    requires Buffered(t, file) && Settled(file, polls)
    ensures Refines(t, file, polls) <==> Harmless(t, file, polls)
    decreases |polls|, |t.buf|
  {
    var r := Next(t, file, polls);
    var at := t.(committed := t.offset);
    if !LoopHarmless(at, file, polls) {
      HarmfulLoopFails(at, file, polls);
      if r.1.Line? {
        var q := ReadAll(r.0, file, polls[r.2..]);
        assert ReadAll(t, file, polls).0[0] == r.1.raw;
      }
    } else {
      HarmlessLoopRefines(at, file, polls);
      if r.1.Line? {
        SettledLater(file, polls, r.2);
        TailRefinesIff(r.0, file, polls[r.2..]);
        var q := ReadAll(r.0, file, polls[r.2..]);
        DeliversOn(t.offset, r.1.raw, r.0.offset, q.0, q.1, q.2, file);
      } else if r.1 == Stop(false) {
        assert file[r.0.offset..] == [];
      }
    }
  }

  // ----- a line cut in two -----------------------------------------------------------------------

  const CRLF_FILE: Bytes := [97, CR, LF]
  const EARLY := Poll(false, false, 2, false)
  const FAILING := Poll(false, true, 3, true)
  const GOOD := Poll(false, true, 3, false)

  lemma {:induction false} CrlfFirstLine()
    ensures Next(Tail(0, 0, []), CRLF_FILE, [EARLY, FAILING, GOOD, GOOD]) == (Tail(2, 0, []), Line([97, CR]), 2)
  {
    var t1 := Tail(0, 0, [97, CR]);
    assert CRLF_FILE[0..2] == [97, CR] && [] + [97, CR] == [97, CR];
    assert Turn(Tail(0, 0, []), CRLF_FILE, EARLY) == (t1, None);
    assert [97, CR][1..] == [CR] && CutEnd([CR], false) == None && CutEnd([CR], true) == Some(1);
    assert [97, CR][..2] == [97, CR] && [97, CR][2..] == [];
    assert Turn(t1, CRLF_FILE, FAILING) == (Tail(2, 0, []), Some(Line([97, CR])));
    assert [EARLY, FAILING, GOOD, GOOD][1..] == [FAILING, GOOD, GOOD];
    assert Loop(t1, CRLF_FILE, [FAILING, GOOD, GOOD]) == (Tail(2, 0, []), Line([97, CR]), 1);
  }

  lemma {:induction false} CrlfSecondLine()
    ensures ReadAll(Tail(2, 0, []), CRLF_FILE, [GOOD, GOOD]).0 == [[LF]]
  {
    var t2 := Tail(2, 2, []);
    assert [GOOD, GOOD][1..] == [GOOD];
    assert CRLF_FILE[2..3] == [LF] && [] + [LF] == [LF] && [LF][..1] == [LF] && [LF][1..] == [];
    assert Turn(t2, CRLF_FILE, GOOD) == (Tail(2, 2, [LF]), None);
    assert Loop(Tail(2, 2, [LF]), CRLF_FILE, [GOOD]) == (Tail(3, 2, []), Line([LF]), 0);
    assert Loop(t2, CRLF_FILE, [GOOD, GOOD]) == (Tail(3, 2, []), Line([LF]), 1);
    assert Next(Tail(3, 2, []), CRLF_FILE, [GOOD]) == (Tail(3, 3, []), Stop(false), 1);
    assert ReadAll(Tail(3, 2, []), CRLF_FILE, [GOOD]).0 == [];
  }

  /** Such a read cuts a CRLF in two, and the reader sees an empty line that is not in the file. */
  lemma {:induction false} FailedReadCutsCrlf()
    ensures Settled(CRLF_FILE, [EARLY, FAILING, GOOD, GOOD])
    ensures ReadAll(Tail(0, 0, []), CRLF_FILE, [EARLY, FAILING, GOOD, GOOD]).0 == [[97, CR], [LF]]
    ensures Split(CRLF_FILE) == [[97, CR, LF]]
  {
    CrlfFirstLine();
    CrlfSecondLine();
    assert [EARLY, FAILING, GOOD, GOOD][2..] == [GOOD, GOOD];
    assert CRLF_FILE[1..] == [CR, LF] && FirstEnd([CR, LF]) == 2;
    assert CRLF_FILE[..3] == CRLF_FILE && CRLF_FILE[3..] == [];
  }

  // ----- what is committed --------------------------------------------------------------------

  /** The tail after some calls, each with the polls it makes. */
  function AfterCalls(t: Tail, file: Bytes, calls: seq<seq<Poll>>): Tail {
    if calls == [] then t else Next(AfterCalls(t, file, calls[..|calls| - 1]), file, calls[|calls| - 1]).0
  }

  /** The lines they handed out. */
  function Handed(t: Tail, file: Bytes, calls: seq<seq<Poll>>): seq<Bytes> {
    if calls == [] then []
    else
      var before := calls[..|calls| - 1];
      var out := Next(AfterCalls(t, file, before), file, calls[|calls| - 1]).1;
      Handed(t, file, before) + if out.Line? then [out.raw] else []
  }

  function Total(lines: seq<Bytes>): nat {
    if lines == [] then 0 else Total(lines[..|lines| - 1]) + |lines[|lines| - 1]|
  }

  lemma {:induction false} TotalNext(lines: seq<Bytes>, raw: Bytes)
    ensures Total(lines + [raw]) == Total(lines) + |raw|
  {
    assert (lines + [raw])[..|lines|] == lines;
  }

  /**
   Over any calls and any polling the offset is past the lines handed out, and what is
   committed is past those handed out before the last call: a line is committed when the
   next one is asked for, and not before.
   */
  lemma {:induction false} CommittedIsDone(t: Tail, file: Bytes, calls: seq<seq<Poll>>)
    ensures AfterCalls(t, file, calls).offset == t.offset + Total(Handed(t, file, calls))
    ensures AfterCalls(t, file, calls).committed ==
      if calls == [] then t.committed else t.offset + Total(Handed(t, file, calls[..|calls| - 1]))
  {
    if calls != [] {
      var before := calls[..|calls| - 1];
      CommittedIsDone(t, file, before);
      var at := AfterCalls(t, file, before);
      LoopMoves(at.(committed := at.offset), file, calls[|calls| - 1]);
      var out := Next(at, file, calls[|calls| - 1]).1;
      if out.Line? {
        TotalNext(Handed(t, file, before), out.raw);
      } else {
        assert Handed(t, file, calls) == Handed(t, file, before);
      }
    }
  }

  /** A closed tail with no complete line in its buffer stops at once, and moves nothing. */
  lemma {:induction false} ClosedStops(t: Tail, file: Bytes, polls: seq<Poll>)
    requires polls != [] && polls[0].closed && CutEnd(t.buf, false).None?
    ensures Next(t, file, polls).1 == Stop(true)
    ensures Next(t, file, polls).0.offset == t.offset && Next(t, file, polls).0.buf == t.buf
  {
  }

  /** A read that works gets the bytes that are there, up to its limit. */
  lemma {:induction false} ReadIsFull(file: Bytes, pos: nat, p: Poll)
    requires !p.failed && pos <= p.visible <= |file|
    ensures |ReadMore(file, pos, p)| == if p.visible - pos > READ_MAX then READ_MAX else p.visible - pos
  {
  }

  // ----- resuming at an offset --------------------------------------------------------------

  /** Bytes taken by the first `k` lines. */
  function LengthOf(lines: seq<Bytes>, k: nat): nat
    requires k <= |lines|
  {
    if k == 0 then 0 else |lines[0]| + LengthOf(lines[1..], k - 1)
  }

  lemma {:induction false} LengthOfCons(line: Bytes, rest: seq<Bytes>, k: nat)
    requires 0 < k <= |rest| + 1
    ensures LengthOf([line] + rest, k) == |line| + LengthOf(rest, k - 1)
    ensures ([line] + rest)[k..] == rest[k - 1..]
  {
    assert ([line] + rest)[1..] == rest;
  }

  lemma {:induction false} DropDrop(b: Bytes, e: nat, n: nat)
    requires e + n <= |b|
    ensures b[e..][n..] == b[e + n..]
  {
  }

  lemma {:induction false} SplitCons(b: Bytes)
    requires b != []
    ensures Split(b) == [b[..FirstEnd(b)]] + Split(b[FirstEnd(b)..])
  {
  }

  /** Splitting composes: after `k` lines, the rest of the file splits into the rest of the lines. */
  lemma {:induction false} SplitComposes(b: Bytes, k: nat)
    requires k <= |Split(b)|
    ensures LengthOf(Split(b), k) <= |b|
    ensures Split(b[LengthOf(Split(b), k)..]) == Split(b)[k..]
    decreases |b|, 1
  {
    if k == 0 {
      assert b[0..] == b;
    } else {
      SplitCons(b);
      SplitComposesNext(b, b[..FirstEnd(b)], b[FirstEnd(b)..], k);
    }
  }

  lemma {:induction false} Rejoined(b: Bytes, line: Bytes, rest: Bytes, tail: seq<Bytes>, k: nat)
    requires b == line + rest && 0 < k <= |tail| + 1 && LengthOf(tail, k - 1) <= |rest|
    ensures LengthOf([line] + tail, k) <= |b| && b[LengthOf([line] + tail, k)..] == rest[LengthOf(tail, k - 1)..]
    ensures ([line] + tail)[k..] == tail[k - 1..]
  {
    LengthOfCons(line, tail, k);
    assert rest == b[|line|..];
    DropDrop(b, |line|, LengthOf(tail, k - 1));
  }

  lemma {:induction false} SplitComposesNext(b: Bytes, line: Bytes, rest: Bytes, k: nat)
    requires b == line + rest && line != [] && 0 < k <= |Split(rest)| + 1
    ensures LengthOf([line] + Split(rest), k) <= |b|
    ensures Split(b[LengthOf([line] + Split(rest), k)..]) == ([line] + Split(rest))[k..]
    decreases |b|, 0
  {
    SplitComposes(rest, k - 1);
    Rejoined(b, line, rest, Split(rest), k);
  }
}
