/**
 `LogTail` (mc/agent_shim_client.py): an incremental splitter over a file that
 another process is still appending to.

 `Split` is the specification: the lines of a finished file under universal
 newlines, terminators kept. The class polls, buffers and cuts as the source
 does; `Next` is the function it is proved against, and the lemmas show that
 whatever the arrival of bytes and the polling, the lines handed out are those
 of `Split`.
 */
module LogTail {
  import opened Wrappers

  type Byte = b: int | 0 <= b < 256
  type Bytes = seq<Byte>

  const LF: Byte := 10
  const CR: Byte := 13
  const READ_MAX := 1048576

  // ----- lines of a finished file ------------------------------------------------

  /** Length of the first line, its terminator included. */
  function FirstEnd(b: Bytes): (e: nat)
    requires b != []
    ensures 1 <= e <= |b|
  {
    if b[0] == LF then 1
    else if b[0] == CR then (if |b| > 1 && b[1] == LF then 2 else 1)
    else if |b| == 1 then 1
    else 1 + FirstEnd(b[1..])
  }

  function Split(b: Bytes): seq<Bytes> {
    if b == [] then [] else [b[..FirstEnd(b)]] + Split(b[FirstEnd(b)..])
  }

  function Concat(lines: seq<Bytes>): Bytes {
    if lines == [] then [] else lines[0] + Concat(lines[1..])
  }

  /** A line break ends just before position `i`; a CRLF is one break, never two. */
  predicate BreakAt(b: Bytes, i: int) {
    0 < i <= |b| && (b[i - 1] == LF || (b[i - 1] == CR && !(i < |b| && b[i] == LF)))
  }

  /** `e` is the first place where a line of `b` ends: its first break, or its end. */
  ghost predicate FirstLine(b: Bytes, e: int) {
    0 < e <= |b| && (BreakAt(b, e) || e == |b|) && forall i :: 0 < i < e ==> !BreakAt(b, i)
  }

  lemma {:induction false} FirstEndIsFirstLine(b: Bytes)
    requires b != []
    ensures FirstLine(b, FirstEnd(b))
  {
    if b[0] != LF && b[0] != CR && |b| > 1 {
      FirstEndIsFirstLine(b[1..]);
      forall i | 0 < i <= |b|
        ensures i > 1 ==> (BreakAt(b, i) <==> BreakAt(b[1..], i - 1))
      {
      }
      var e := FirstEnd(b[1..]);
      assert BreakAt(b[1..], e) ==> BreakAt(b, e + 1);
      forall i | 0 < i < e + 1
        ensures !BreakAt(b, i)
      {
        assert i > 1 ==> !BreakAt(b[1..], i - 1);
      }
    }
  }

  lemma {:induction false} FirstLineUnique(b: Bytes, e: int, f: int)
    requires FirstLine(b, e) && FirstLine(b, f)
    ensures e == f
  {
  }

  lemma {:induction false} ConcatCons(line: Bytes, rest: seq<Bytes>)
    ensures Concat([line] + rest) == line + Concat(rest)
  {
    assert ([line] + rest)[1..] == rest;
  }

  lemma {:induction false} SplitConcat(b: Bytes)
    ensures Concat(Split(b)) == b
  {
    if b != [] {
      var e := FirstEnd(b);
      assert Split(b) == [b[..e]] + Split(b[e..]);
      SplitConcat(b[e..]);
      ConcatCons(b[..e], Split(b[e..]));
      Rejoined(b, e);
    }
  }

  lemma {:induction false} Rejoined(b: Bytes, e: nat)
    requires e <= |b|
    ensures b[..e] + b[e..] == b
  {
  }

  lemma {:induction false} LinesAreNotEmpty(b: Bytes, k: nat)
    requires k < |Split(b)|
    ensures Split(b)[k] != []
  {
    if k > 0 {
      LinesAreNotEmpty(b[FirstEnd(b)..], k - 1);
    }
  }

  // ----- universal newlines ---------------------------------------------------------

  /** What a text-mode pipe would have delivered: every line break becomes one LF. */
  function Translate(b: Bytes): Bytes {
    if b == [] then []
    else if b[0] == CR then [LF] + Translate(if |b| > 1 && b[1] == LF then b[2..] else b[1..])
    else [b[0]] + Translate(b[1..])
  }

  /** The text of one raw line. */
  function LineText(raw: Bytes): Bytes {
    var n := |raw|;
    if n >= 2 && raw[n - 2] == CR && raw[n - 1] == LF then raw[..n - 2] + [LF]
    else if n >= 1 && raw[n - 1] == CR then raw[..n - 1] + [LF]
    else raw
  }

  function Texts(lines: seq<Bytes>): seq<Bytes> {
    if lines == [] then [] else [LineText(lines[0])] + Texts(lines[1..])
  }

  lemma {:induction false} LineTextCons(x: Byte, raw: Bytes)
    requires raw != [] && x != CR
    ensures LineText([x] + raw) == [x] + LineText(raw)
  {
    var n := |raw|;
    assert ([x] + raw)[..n] == [x] + raw[..n - 1];
    if n >= 2 {
      assert ([x] + raw)[..n - 1] == [x] + raw[..n - 2];
    }
  }

  lemma {:induction false} Reassociate(a: Bytes, b: Bytes, c: Bytes)
    ensures a + (b + c) == (a + b) + c
  {
  }

  lemma {:induction false} SplitsAfter(b: Bytes, e: nat)
    requires 1 + e <= |b|
    ensures b[..1 + e] == [b[0]] + b[1..][..e] && b[1 + e..] == b[1..][e..]
  {
  }

  lemma {:induction false} TranslateFirst(b: Bytes)
    requires b != []
    ensures Translate(b) == LineText(b[..FirstEnd(b)]) + Translate(b[FirstEnd(b)..])
  {
    if b[0] == CR {
      TranslateBreak(b);
    } else if b[0] == LF || |b| == 1 {
      assert LineText(b[..1]) == [b[0]];
    } else {
      var rest := b[1..];
      var e := FirstEnd(rest);
      TranslateFirst(rest);
      SplitsAfter(b, e);
      LineTextCons(b[0], rest[..e]);
      Reassociate([b[0]], LineText(rest[..e]), Translate(rest[e..]));
    }
  }

  lemma {:induction false} TranslateBreak(b: Bytes)
    requires b != [] && b[0] == CR
    ensures Translate(b) == LineText(b[..FirstEnd(b)]) + Translate(b[FirstEnd(b)..])
  {
    if |b| > 1 && b[1] == LF {
      assert b[..2] == [CR, LF];
      assert LineText([CR, LF]) == [LF];
    } else {
      assert b[..1] == [CR];
      assert LineText([CR]) == [LF];
    }
  }

  /** The lines' texts, put together, are the universal-newline text of the file. */
  lemma {:induction false} LinesAreUniversalNewlines(b: Bytes)
    ensures Concat(Texts(Split(b))) == Translate(b)
  {
    if b != [] {
      var e := FirstEnd(b);
      TranslateFirst(b);
      LinesAreUniversalNewlines(b[e..]);
      assert Split(b)[1..] == Split(b[e..]);
      assert Texts(Split(b))[1..] == Texts(Split(b[e..]));
    }
  }

  // ----- the tail -----------------------------------------------------------------------

  /** `offset` is past the last line handed out, `committed` past the last line applied. */
  datatype Tail = Tail(offset: nat, committed: nat, buf: Bytes)

  /**
   One turn of the polling loop: was the tail closed, did `finished()` hold (it
   is sampled before the read), how long the file was when read, and whether the
   read raised OSError (which the source turns into an empty read).
   */
  datatype Poll = Poll(closed: bool, done: bool, visible: nat, failed: bool)

  datatype Outcome = Line(raw: Bytes) | Stop(closed: bool) | Pending

  /** One line off the front of the buffer; a CR that comes last is held back unless `final`. */
  function CutEnd(b: Bytes, final: bool): (e: Option<nat>)
    ensures e.Some? ==> 1 <= e.value <= |b|
  {
    if b == [] then None
    else if b[0] == LF then Some(1)
    else if b[0] == CR then
      if |b| > 1 then Some(if b[1] == LF then 2 else 1) else if final then Some(1) else None
    else
      var e := CutEnd(b[1..], final);
      if e.Some? then Some(1 + e.value) else None
  }

  function HandOut(t: Tail, e: nat): Tail
    requires e <= |t.buf|
  {
    t.(offset := t.offset + e, buf := t.buf[e..])
  }

  function ReadMore(file: Bytes, pos: nat, p: Poll): Bytes {
    var end := if p.visible < |file| then p.visible else |file|;
    if p.failed || end <= pos then []
    else if end - pos > READ_MAX then file[pos..pos + READ_MAX]
    else file[pos..end]
  }

  /** One turn of the loop, when the buffer holds no complete line. */
  function Turn(t: Tail, file: Bytes, p: Poll): (Tail, Option<Outcome>) {
    if p.closed then (t, Some(Stop(true)))
    else
      var chunk := ReadMore(file, t.offset + |t.buf|, p);
      if chunk != [] then (t.(buf := t.buf + chunk), None)
      else if !p.done then (t, None)
      else if t.buf == [] then (t, Some(Stop(false)))
      else
        var e := CutEnd(t.buf, true);
        var n := if e.Some? then e.value else |t.buf|;
        (HandOut(t, n), Some(Line(t.buf[..n])))
  }

  /** The loop of `__next__`, over the polls still to come; also how many of them it takes. */
  function Loop(t: Tail, file: Bytes, polls: seq<Poll>): (r: (Tail, Outcome, nat))
    ensures r.2 <= |polls|
    ensures r.1.Line? && r.2 == 0 ==> |r.0.buf| < |t.buf|
    decreases |polls|
  {
    var e := CutEnd(t.buf, false);
    if e.Some? then (HandOut(t, e.value), Line(t.buf[..e.value]), 0)
    else if polls == [] then (t, Pending, 0)
    else
      var turn := Turn(t, file, polls[0]);
      if turn.1.Some? then (turn.0, turn.1.value, 1)
      else
        var r := Loop(turn.0, file, polls[1..]);
        (r.0, r.1, r.2 + 1)
  }

  /** Asking for the next line commits the previous one. */
  function Next(t: Tail, file: Bytes, polls: seq<Poll>): (Tail, Outcome, nat) {
    Loop(t.(committed := t.offset), file, polls)
  }

  /** `for line in tail`, as far as the polls reach: the raw lines, the tail then, and why it ended. */
  function ReadAll(t: Tail, file: Bytes, polls: seq<Poll>): (seq<Bytes>, Tail, Outcome)
    decreases |polls|, |t.buf|
  {
    var r := Next(t, file, polls);
    if r.1.Line? then
      var q := ReadAll(r.0, file, polls[r.2..]);
      ([r.1.raw] + q.0, q.1, q.2)
    else ([], r.0, r.1)
  }

  /** The loop goes round once, with nothing to hand out. */
  predicate Goes(t: Tail, t': Tail, file: Bytes, p: Poll) {
    CutEnd(t.buf, false).None? && Turn(t, file, p) == (t', None)
  }

  /** The loop ends in its pass number `k`, having used `now` polls. */
  predicate Ends(t: Tail, t': Tail, out: Outcome, file: Bytes, polls: seq<Poll>, k: nat, now: nat)
    requires k <= |polls|
  {
    var e := CutEnd(t.buf, false);
    if e.Some? then t' == HandOut(t, e.value) && out == Line(t.buf[..e.value]) && now == k
    else if k == |polls| then t' == t && out == Pending && now == k
    else Turn(t, file, polls[k]) == (t', Some(out)) && now == k + 1
  }

  /** From its pass `k` on, the loop ends with this, `now` polls having been used in all. */
  predicate Loops(t: Tail, t': Tail, out: Outcome, file: Bytes, polls: seq<Poll>, k: nat, now: nat)
    requires k <= |polls|
  {
    now >= k && Loop(t, file, polls[k..]) == (t', out, now - k)
  }

  lemma {:induction false} LoopGoesOn(
      t: Tail, next: Tail, t': Tail, out: Outcome, file: Bytes, polls: seq<Poll>, k: nat, now: nat)
    requires k < |polls| && Goes(t, next, file, polls[k]) && Loops(next, t', out, file, polls, k + 1, now)
    ensures Loops(t, t', out, file, polls, k, now)
  {
    assert polls[k..][0] == polls[k] && polls[k..][1..] == polls[k + 1..];
  }

  lemma {:induction false} LoopEndsHere(
      t: Tail, t': Tail, out: Outcome, file: Bytes, polls: seq<Poll>, k: nat, now: nat)
    requires k <= |polls| && Ends(t, t', out, file, polls, k, now)
    ensures Loops(t, t', out, file, polls, k, now)
  {
    assert k < |polls| ==> polls[k..][0] == polls[k];
  }

  /** Passes that go round and one that ends are a run of the loop. */
  lemma {:induction false} TraceIsLoop(
      trace: seq<Tail>, t': Tail, out: Outcome, file: Bytes, polls: seq<Poll>, now: nat, k: nat)
    requires k < |trace| <= |polls| + 1
    requires forall i :: 0 <= i < |trace| - 1 ==> Goes(trace[i], trace[i + 1], file, polls[i])
    requires Ends(trace[|trace| - 1], t', out, file, polls, |trace| - 1, now)
    ensures Loops(trace[k], t', out, file, polls, k, now)
    decreases |trace| - k
  {
    if k == |trace| - 1 {
      LoopEndsHere(trace[k], t', out, file, polls, k, now);
    } else {
      TraceIsLoop(trace, t', out, file, polls, now, k + 1);
      LoopGoesOn(trace[k], trace[k + 1], t', out, file, polls, k, now);
    }
  }

  /** The loop commits nothing, and moves on by just the line it hands out. */
  lemma {:induction false} LoopMoves(t: Tail, file: Bytes, polls: seq<Poll>)
    ensures
      var r := Loop(t, file, polls);
      r.0.committed == t.committed && r.0.offset == t.offset + if r.1.Line? then |r.1.raw| else 0
    decreases |polls|
  {
    if CutEnd(t.buf, false).None? && polls != [] && Turn(t, file, polls[0]).1.None? {
      LoopMoves(Turn(t, file, polls[0]).0, file, polls[1..]);
    }
  }

  // ----- the class ------------------------------------------------------------------------

  class Reader {
    var offset: nat
    var committed: nat
    var buf: Bytes
    /** The reader holds the boundary while a line's effects are applied. */
    var holdsBoundary: bool

    ghost function State(): Tail
      reads this
    {
      Tail(offset, committed, buf)
    }

    constructor (start: nat)
      ensures State() == Tail(start, start, []) && !holdsBoundary
    {
      offset, committed, buf, holdsBoundary := start, start, [], false;
    }

    method Cut(final: bool) returns (raw: Option<Bytes>)
      modifies this`buf
      ensures raw.Some? == CutEnd(old(buf), final).Some?
      ensures raw.Some? ==>
        var e := CutEnd(old(buf), final).value;
        raw.value == old(buf)[..e] && buf == old(buf)[e..]
      ensures raw.None? ==> buf == old(buf)
    {
      var i := 0;
      while i < |buf|
        invariant 0 <= i <= |buf| && buf == old(buf)
        invariant var rest := CutEnd(buf[i..], final);
          CutEnd(buf, final) == if rest.Some? then Some(i + rest.value) else None
      {
        var b := buf[i];
        var end := 0;
        assert buf[i..][1..] == buf[i + 1..];
        if b == LF {
          end := i + 1;
        } else if b == CR {
          if i + 1 < |buf| {
            end := if buf[i + 1] == LF then i + 2 else i + 1;
          } else if final {
            end := i + 1;
          } else {
            return None;
          }
        }
        if end != 0 {
          raw := Some(buf[..end]);
          buf := buf[end..];
          return raw;
        }
        i := i + 1;
      }
      return None;
    }

    /** One turn of the polling loop; a value means that `__next__` ends with it. */
    method PollOnce(file: Bytes, p: Poll) returns (out: Option<Outcome>)
      modifies this
      ensures (State(), out) == Turn(old(State()), file, p)
      ensures holdsBoundary == (old(holdsBoundary) || (out.Some? && out.value.Line?))
    {
      if p.closed {
        return Some(Stop(true));
      }
      var chunk := ReadMore(file, offset + |buf|, p);
      if chunk != [] {
        buf := buf + chunk;
        return None;
      }
      if !p.done {
        return None;
      }
      if buf == [] {
        return Some(Stop(false));
      }
      var raw := Cut(true);
      if raw.None? {
        assert buf[..|buf|] == buf && buf[|buf|..] == [];
        raw := Some(buf);
        buf := [];
      }
      offset := offset + |raw.value|;
      holdsBoundary := true;
      return Some(Line(raw.value));
    }

    /** The body of the loop in `__next__`: cut a line, or else poll once. */
    method Attempt(file: Bytes, polls: seq<Poll>, used: nat) returns (out: Option<Outcome>, now: nat)
      requires used <= |polls| && !holdsBoundary
      modifies this
      ensures used <= now <= |polls|
      ensures holdsBoundary == (out.Some? && out.value.Line?)
      ensures out.Some? ==> Ends(old(State()), State(), out.value, file, polls, used, now)
      ensures out.None? ==>
        used < |polls| && now == used + 1 && Goes(old(State()), State(), file, polls[used])
    {
      var raw := Cut(false);
      if raw.Some? {
        offset := offset + |raw.value|;
        holdsBoundary := true;
        return Some(Line(raw.value)), used;
      }
      if used == |polls| {
        return Some(Pending), used;
      }
      out := PollOnce(file, polls[used]);
      now := used + 1;
    }

    /** `__next__`: commit the previous line, then poll until there is one to hand out. */
    method NextLine(file: Bytes, polls: seq<Poll>) returns (out: Outcome, used: nat)
      modifies this
      ensures (State(), out, used) == Next(old(State()), file, polls)
      ensures committed == old(offset) && offset == old(offset) + if out.Line? then |out.raw| else 0
      ensures holdsBoundary == out.Line?
    {
      committed := offset;
      holdsBoundary := false;
      ghost var trace := [State()];
      used := 0;
      var end: Option<Outcome> := None;
      while end.None?
        invariant used <= |polls| && holdsBoundary == (end.Some? && end.value.Line?)
        invariant 0 < |trace| <= used + 1 && trace[0] == old(State()).(committed := old(offset))
        invariant forall i :: 0 <= i < |trace| - 1 ==> Goes(trace[i], trace[i + 1], file, polls[i])
        invariant end.None? ==> |trace| == used + 1 && trace[used] == State()
        invariant end.Some? ==>
          Ends(trace[|trace| - 1], State(), end.value, file, polls, |trace| - 1, used)
        decreases end.None?, |polls| - used
      {
        end, used := Attempt(file, polls, used);
        if end.None? {
          trace := trace + [State()];
        }
      }
      TraceIsLoop(trace, State(), end.value, file, polls, used, 0);
      assert polls[0..] == polls;
      LoopMoves(trace[0], file, polls);
      return end.value, used;
    }
  }
}
