/**
 Exactly once, for processes that send nothing more to a shim once a `send` has
 raised in doubt: every `send` that returned has its own payload in the CLI's input.
 */
module ShimExactlyOnce {
  import opened Wrappers
  import opened ShimCore
  import opened ShimProtocol
  import opened ShimShape
  import opened ShimOrder

  predicate Writing(k: Core, p: Pid) {
    k.writer.Some? && k.writer.value.sender == p
  }

  /** Every payload still waiting at the owner connection of `p` is `f`. */
  ghost predicate WaitingOnly(w: World, p: Pid, f: Frame) {
    forall c :: 0 <= c < |w.links| && w.links[c].pid == p && IsOwner(w.core, c)
      ==> Frames(w.links[c]) == [] || Frames(w.links[c]) == [f]
  }

  ghost predicate NothingWaiting(w: World, p: Pid) {
    forall c :: 0 <= c < |w.links| && w.links[c].pid == p && IsOwner(w.core, c) ==> Frames(w.links[c]) == []
  }

  ghost predicate Quiet(w: World, p: Pid) {
    !Writing(w.core, p) && NothingWaiting(w, p)
  }

  /** The call `id` is out under number `num`: it holds that number, or nobody does. */
  ghost predicate Open(w: World, p: Pid, f: Frame) {
    && OwnedBy(w.core, p)
    && (w.core.lastSeq == f.num - 1
        || (w.core.lastSeq == f.num && w.core.numbered != [] && w.core.numbered[|w.core.numbered| - 1] == Entry(p, f)))
    && (Writing(w.core, p) ==> w.core.writer.value.frame == f)
    && WaitingOnly(w, p, f)
  }

  ghost predicate GreetingSays(l: Link, lo: int, hi: int) {
    |l.outbox| <= 1 && (l.outbox != [] && l.outbox[0].Ok? ==> lo <= l.outbox[0].lastSeq <= hi)
  }

  /** The connection a call is using: its frame, or its write, or its reply, and nothing else. */
  ghost predicate OneInFlight(w: World, c: Conn, f: Frame)
    requires IsLink(w, c)
  {
    var l := w.links[c];
    || (l.outbox == [] && Frames(l) == [f] && !l.thread.InLock?)
    || (l.outbox == [] && Frames(l) == [])
    || (|l.outbox| == 1 && Frames(l) == [] && !l.thread.InLock? && ReplyMeans(w.core, l.pid, f, l.outbox[0]))
  }

  ghost predicate ReplyMeans(k: Core, p: Pid, f: Frame, r: Reply) {
    match r
    case Ack(_) => k.lastSeq == f.num
    case ErrStdinClosed => k.lastSeq == f.num - 1 && !Writing(k, p)
    case ErrNotOwner => true
    case _ => false
  }

  ghost predicate SendingSound(w: World, p: Pid, f: Frame, retried: bool, c: Conn)
    requires IsLink(w, c)
  {
    && Open(w, p, f)
    && (forall d :: 0 <= d < |w.links| && d != c && w.links[d].pid == p && IsOwner(w.core, d) ==>
          Frames(w.links[d]) == [])
    && (!retried && Writing(w.core, p) ==> w.core.writer.value.conn == c)
    && OneInFlight(w, c, f)
  }

  ghost predicate ClientSound(w: World, p: Pid)
    requires IsClient(w, p) && ClientShape(w, p)
  {
    var cl := w.clients[p];
    && (cl.doubt.Some? ==> cl.phase.Ready?)
    && (cl.alive && cl.doubt.None? ==>
          match cl.phase
          case Ready =>
            && Quiet(w, p)
            && (cl.sock.Some? ==>
                  && w.links[cl.sock.value].outbox == []
                  && Frames(w.links[cl.sock.value]) == []
                  && cl.last == w.core.lastSeq)
          case Dialing(id, want) =>
            if want.None? then Quiet(w, p) else Open(w, p, Frame(want.value, id))
          case Greeting(c, id, want) =>
            if want.None? then Quiet(w, p) && GreetingSays(w.links[c], w.core.lastSeq, w.core.lastSeq)
            else
              && Open(w, p, Frame(want.value, id))
              && (w.links[c].claimed ==> NothingWaiting(w, p))
              && GreetingSays(w.links[c], want.value - 1, w.core.lastSeq)
          case Sending(id, num, retried, c) =>
            && cl.last == num - 1
            && SendingSound(w, p, Frame(num, id), retried, c))
  }

  ghost predicate ReceiptsSound(w: World) {
    forall i :: 0 <= i < |w.returned| ==>
      Entry(w.returned[i].pid, Frame(w.returned[i].num, w.returned[i].id)) in w.core.numbered
  }

  ghost predicate Sound(w: World) {
    && ReceiptsSound(w)
    && (forall p :: 0 <= p < |w.clients| ==> ClientShape(w, p) && ClientSound(w, p))
  }

  /** Apart from `down`, the connection is as it was. */
  predicate SameLink(l: Link, l': Link) {
    l'.(down := false) == l.(down := false)
  }

  /** A step of process `p` keeps what every other process relies on. */
  ghost predicate StepOf(w: World, w': World, p: Pid) {
    && |w.links| <= |w'.links| && |w.clients| <= |w'.clients|
    && (forall d :: 0 <= d < |w.links| && w.links[d].pid != p ==> SameLink(w.links[d], w'.links[d]))
    && (forall d :: 0 <= d < |w.links| && w.links[d].pid == p ==> w'.links[d].pid == p)
    && (forall d :: |w.links| <= d < |w'.links| ==> w'.links[d].pid == p)
    && (forall q :: 0 <= q < |w.clients| && q != p ==> w'.clients[q] == w.clients[q])
    && (w'.core.writer == w.core.writer
        || ((w.core.writer.Some? ==> Writing(w.core, p)) && (w'.core.writer.Some? ==> Writing(w'.core, p))))
    && ((w'.core.lastSeq == w.core.lastSeq && w'.core.numbered == w.core.numbered) || OwnedBy(w.core, p))
    && (forall d :: 0 <= d < |w.links| && w.links[d].pid != p && IsOwner(w'.core, d) ==> IsOwner(w.core, d))
  }

  lemma {:induction false} OtherWaiting(w: World, w': World, p: Pid, q: Pid, f: Frame)
    requires StepOf(w, w', p) && q != p
    ensures NothingWaiting(w, q) ==> NothingWaiting(w', q)
    ensures WaitingOnly(w, q, f) ==> WaitingOnly(w', q, f)
    ensures Writing(w'.core, q) == Writing(w.core, q) && (Writing(w.core, q) ==> w'.core.writer == w.core.writer)
  {
    forall d | 0 <= d < |w'.links| && w'.links[d].pid == q && IsOwner(w'.core, d)
      ensures d < |w.links| && w.links[d].pid == q && IsOwner(w.core, d)
      ensures Frames(w'.links[d]) == Frames(w.links[d])
    {
    }
  }

  lemma {:induction false} OtherOpen(w: World, w': World, p: Pid, q: Pid, f: Frame)
    requires StepOf(w, w', p) && q != p && OwnedBy(w.core, q) && OwnedBy(w'.core, q)
    requires Open(w, q, f)
    ensures Open(w', q, f)
  {
    OtherWaiting(w, w', p, q, f);
  }

  lemma {:induction false} OtherSending(w: World, w': World, p: Pid, q: Pid, f: Frame, retried: bool, c: Conn)
    requires StepOf(w, w', p) && q != p && OwnedBy(w.core, q) && OwnedBy(w'.core, q)
    requires IsLink(w, c) && w.links[c].pid == q && SendingSound(w, q, f, retried, c)
    ensures SendingSound(w', q, f, retried, c)
  {
    OtherOpen(w, w', p, q, f);
    OtherWaiting(w, w', p, q, f);
    assert SameLink(w.links[c], w'.links[c]);
    forall d | 0 <= d < |w'.links| && d != c && w'.links[d].pid == q && IsOwner(w'.core, d)
      ensures Frames(w'.links[d]) == []
    {
      assert d < |w.links| && w.links[d].pid == q && IsOwner(w.core, d);
    }
  }

  lemma {:induction false} SoundOther(w: World, w': World, p: Pid, q: Pid)
    requires Shape(w) && Sound(w) && StepOf(w, w', p)
    requires IsClient(w, q) && q != p && ClientShape(w', q)
    ensures ClientSound(w', q)
  {
    assert ClientShape(w, q) && ClientSound(w, q);
    var cl := w.clients[q];
    if cl.alive && cl.doubt.None? {
      match cl.phase
      case Ready =>
        OtherWaiting(w, w', p, q, Frame(0, 0));
        if cl.sock.Some? {
          assert LinkShape(w, cl.sock.value) && SameLink(w.links[cl.sock.value], w'.links[cl.sock.value]);
        }
      case Dialing(id, want) =>
        OtherWaiting(w, w', p, q, Frame(0, 0));
        if want.Some? { OtherOpen(w, w', p, q, Frame(want.value, id)); }
      case Greeting(c, id, want) =>
        OtherWaiting(w, w', p, q, Frame(0, 0));
        assert LinkShape(w, c) && SameLink(w.links[c], w'.links[c]);
        assert w.links[c].outbox != [] ==> w.links[c].outbox[0] in w.links[c].outbox;
        if want.Some? { OtherOpen(w, w', p, q, Frame(want.value, id)); }
      case Sending(id, num, retried, c) =>
        assert LinkShape(w, c);
        OtherSending(w, w', p, q, Frame(num, id), retried, c);
    }
  }

  /** Frames of `p` only leave its connections, and a new owner connection has none. */
  ghost predicate Shrinks(w: World, w': World, p: Pid) {
    && |w'.links| == |w.links|
    && forall d :: 0 <= d < |w.links| && w.links[d].pid == p ==>
         && w'.links[d].pid == p
         && Shorter(Frames(w.links[d]), Frames(w'.links[d]))
         && (IsOwner(w'.core, d) ==> IsOwner(w.core, d) || Frames(w'.links[d]) == [])
  }

  lemma {:induction false} WaitingShrinks(w: World, w': World, p: Pid, f: Frame)
    requires Shrinks(w, w', p)
    requires forall d :: 0 <= d < |w.links| ==> w'.links[d].pid == w.links[d].pid
    ensures NothingWaiting(w, p) ==> NothingWaiting(w', p)
    ensures WaitingOnly(w, p, f) ==> WaitingOnly(w', p, f)
  {
  }

  /** The connection client `p` is listening on, if any. */
  function Ear(cl: Client): Option<Conn> {
    match cl.phase
    case Ready => cl.sock
    case Dialing(_, _) => None
    case Greeting(c, _, _) => Some(c)
    case Sending(_, _, _, c) => Some(c)
  }

  /** A step that books nothing keeps `p` sound if what `p` hears stays truthful. */
  lemma {:induction false} SoundShrinks(w: World, w': World, p: Pid)
    requires IsClient(w, p) && w'.clients == w.clients
    requires ClientShape(w, p) && ClientSound(w, p) && ClientShape(w', p)
    requires w'.core.(owner := w.core.owner, stdinClosed := w.core.stdinClosed) == w.core && SameOwner(w.core, w'.core)
    requires Shrinks(w, w', p)
    requires forall d :: 0 <= d < |w.links| ==> w'.links[d].pid == w.links[d].pid
    requires var x := Ear(w.clients[p]);
      x.Some? && w.clients[p].alive && w.clients[p].doubt.None? ==>
        if w.clients[p].phase.Sending?
        then OneInFlight(w', x.value, Frame(w.clients[p].phase.num, w.clients[p].phase.id))
        else
          w'.links[x.value].outbox == w.links[x.value].outbox && w'.links[x.value].claimed == w.links[x.value].claimed
    ensures ClientSound(w', p)
  {
    var cl := w.clients[p];
    var f := if CurrentId(cl.phase).Some? && CurrentNum(cl.phase).Some?
             then Frame(CurrentNum(cl.phase).value, CurrentId(cl.phase).value) else Frame(0, 0);
    WaitingShrinks(w, w', p, f);
  }

  /** What a step of `c`'s thread leaves alone, when it books and writes nothing. */
  ghost predicate Still(w: World, w': World, c: Conn)
    requires IsLink(w, c)
  {
    && Shrinks(w, w', w.links[c].pid) && w'.clients == w.clients
    && (forall d :: 0 <= d < |w.links| ==> w'.links[d].pid == w.links[d].pid)
    && (forall d :: 0 <= d < |w.links| && d != c ==> w'.links[d] == w.links[d])
    && w'.core.(owner := w.core.owner, stdinClosed := w.core.stdinClosed) == w.core && SameOwner(w.core, w'.core)
  }

  lemma {:induction false} CheckShrinks(w: World, c: Conn)
    requires CanCheck(w, c)
    ensures Still(w, DoCheck(w, c), c) && DoCheck(w, c).links[c].claimed == w.links[c].claimed
  {
    assert Shorter(Frames(w.links[c]), Frames(DoCheck(w, c).links[c]));
  }

  /** A frame that is turned away is answered so. */
  lemma {:induction false} CheckReply(w: World, c: Conn, f: Frame)
    requires CanCheck(w, c) && OneInFlight(w, c, f)
    ensures OneInFlight(DoCheck(w, c), c, f)
  {
    assert Frames(w.links[c]) == w.links[c].inbox;
    assert Frames(w.links[c]) == [f];
  }

  lemma {:induction false} SoundCheck(w: World, c: Conn)
    requires Shape(w) && Sound(w) && CanCheck(w, c)
    requires IsClient(w, w.links[c].pid) && ClientShape(DoCheck(w, c), w.links[c].pid)
    ensures ClientSound(DoCheck(w, c), w.links[c].pid)
  {
    var w' := DoCheck(w, c);
    var p := w.links[c].pid;
    assert ClientShape(w, p) && ClientSound(w, p);
    CheckShrinks(w, c);
    var cl := w.clients[p];
    if cl.alive && cl.doubt.None? && cl.phase.Sending? && cl.phase.conn == c {
      CheckReply(w, c, Frame(cl.phase.num, cl.phase.id));
    }
    SoundShrinks(w, w', p);
  }

  lemma {:induction false} HangupShrinks(w: World, c: Conn)
    requires CanHangup(w, c)
    ensures
      var w' := End(w, c, w.links[c]);
      && Still(w, w', c) && w'.links[c].claimed == w.links[c].claimed
      && w'.links[c].outbox == w.links[c].outbox
  {
    assert Shorter(Frames(w.links[c]), Frames(End(w, c, w.links[c]).links[c]));
  }

  lemma {:induction false} HangupReply(w: World, c: Conn, f: Frame)
    requires CanHangup(w, c) && OneInFlight(w, c, f)
    ensures OneInFlight(End(w, c, w.links[c]), c, f)
  {
    var w' := End(w, c, w.links[c]);
    assert Frames(w'.links[c]) == w.links[c].inbox;
  }

  lemma {:induction false} SoundHangup(w: World, c: Conn)
    requires Shape(w) && Sound(w) && CanHangup(w, c)
    requires IsClient(w, w.links[c].pid) && ClientShape(End(w, c, w.links[c]), w.links[c].pid)
    ensures ClientSound(End(w, c, w.links[c]), w.links[c].pid)
  {
    var w' := End(w, c, w.links[c]);
    var p := w.links[c].pid;
    assert ClientShape(w, p) && ClientSound(w, p);
    HangupShrinks(w, c);
    var cl := w.clients[p];
    if cl.alive && cl.doubt.None? && cl.phase.Sending? && cl.phase.conn == c {
      HangupReply(w, c, Frame(cl.phase.num, cl.phase.id));
    }
    SoundShrinks(w, w', p);
  }

  /** The answer to the current call's frame is the truth about it. */
  lemma {:induction false} JudgedReply(w: World, c: Conn, f: Frame)
    requires CanDecide(w, c) && !CanBegin(w, c)
    requires OneInFlight(w, c, f) && Open(w, w.links[c].pid, f)
    ensures OneInFlight(DoDecide(w, c), c, f)
  {
    assert Frames(w.links[c])[0] == w.links[c].thread.frame;
    assert w.links[c].thread.frame == f && w.links[c].inbox == [];
  }

  lemma {:induction false} JudgedShrinks(w: World, c: Conn)
    requires Shape(w) && CanDecide(w, c) && !CanBegin(w, c)
    ensures
      Still(w, DoDecide(w, c), c)
  {
    assert LinkShape(w, c);
    assert Frames(DoDecide(w, c).links[c]) == Frames(w.links[c])[1..];
  }

  lemma {:induction false} SoundJudged(w: World, c: Conn)
    requires Shape(w) && Sound(w) && CanDecide(w, c) && !CanBegin(w, c)
    requires IsClient(w, w.links[c].pid) && ClientShape(DoDecide(w, c), w.links[c].pid)
    ensures ClientSound(DoDecide(w, c), w.links[c].pid)
  {
    var w' := DoDecide(w, c);
    var p := w.links[c].pid;
    assert LinkShape(w, c) && ClientShape(w, p) && ClientSound(w, p);
    JudgedShrinks(w, c);
    assert Frames(w.links[c])[0] == w.links[c].thread.frame;
    var cl := w.clients[p];
    if cl.alive && cl.doubt.None? && cl.phase.Sending? && cl.phase.conn == c {
      JudgedReply(w, c, Frame(cl.phase.num, cl.phase.id));
    }
    SoundShrinks(w, w', p);
  }

  /** The frame that starts its write is the current call's, and it was the only one waiting. */
  lemma {:induction false} SoundBegin(w: World, c: Conn)
    requires Shape(w) && Sound(w) && CanBegin(w, c)
    requires IsClient(w, w.links[c].pid) && ClientShape(DoDecide(w, c), w.links[c].pid)
    ensures ClientSound(DoDecide(w, c), w.links[c].pid)
  {
    var w' := DoDecide(w, c);
    var p := w.links[c].pid;
    assert LinkShape(w, c) && ClientShape(w, p) && ClientSound(w, p);
    assert Frames(w.links[c])[0] == w.links[c].thread.frame;
    assert Frames(w'.links[c]) == Frames(w.links[c])[1..];
    var cl := w.clients[p];
    var f := if CurrentId(cl.phase).Some? && CurrentNum(cl.phase).Some?
             then Frame(CurrentNum(cl.phase).value, CurrentId(cl.phase).value) else Frame(0, 0);
    WaitingShrinks(w, w', p, f);
  }

  lemma {:induction false} SoundSayOk(w: World, c: Conn)
    requires Shape(w) && Sound(w) && IsLink(w, c) && w.links[c].thread.Claimed?
    requires IsClient(w, w.links[c].pid) && ClientShape(DoSayOk(w, c), w.links[c].pid)
    ensures ClientSound(DoSayOk(w, c), w.links[c].pid)
  {
    var w' := DoSayOk(w, c);
    var p := w.links[c].pid;
    assert LinkShape(w, c) && ClientShape(w, p) && ClientSound(w, p);
  }

  lemma {:induction false} SoundSample(w: World, c: Conn)
    requires Shape(w) && Sound(w) && CanSample(w, c)
    requires IsClient(w, w.links[c].pid) && ClientShape(DoSample(w, c), w.links[c].pid)
    ensures ClientSound(DoSample(w, c), w.links[c].pid)
  {
    var w' := DoSample(w, c);
    var p := w.links[c].pid;
    assert LinkShape(w, c) && ClientShape(w, p) && ClientSound(w, p);
  }

  lemma {:induction false} SoundWritten(w: World, c: Conn)
    requires Shape(w) && Sound(w) && Holds(w, c, false)
    requires IsClient(w, w.links[c].pid) && ClientShape(DoWritten(w, c), w.links[c].pid)
    ensures ClientSound(DoWritten(w, c), w.links[c].pid)
  {
    var w' := DoWritten(w, c);
    var p := w.links[c].pid;
    assert LinkShape(w, c) && ClientShape(w, p) && ClientSound(w, p);
  }

  /** The end of a write by `p`: `w'` frees the lock, and connection `c` has its answer. */
  ghost predicate Answers(w: World, w': World, c: Conn, r: Reply) {
    && IsLink(w, c) && w.core.writer.Some? && w.core.writer.value.conn == c
    && w'.core.writer.None? && w'.core.owner == w.core.owner && w'.clients == w.clients
    && w'.links == w.links[c := Put(w.links[c], r).(thread := Idle)]
  }

  lemma {:induction false} AnswersWaiting(w: World, w': World, c: Conn, r: Reply, p: Pid, f: Frame)
    requires Answers(w, w', c, r) && w.links[c].thread.InLock?
    ensures forall d :: 0 <= d < |w.links| ==> Frames(w'.links[d]) == Frames(w.links[d])
    ensures NothingWaiting(w, p) ==> NothingWaiting(w', p)
    ensures WaitingOnly(w, p, f) ==> WaitingOnly(w', p, f)
  {
  }

  /** The connection in use keeps its one frame, write or reply, if the answer is the truth. */
  lemma {:induction false} AnswersSending(
      w: World, w': World, c: Conn, r: Reply, p: Pid, f: Frame, retried: bool, c2: Conn)
    requires Answers(w, w', c, r) && w.links[c].thread.InLock? && Writing(w.core, p) && w.core.writer.value.frame == f
    requires IsLink(w, c2) && w.links[c2].pid == p && SendingSound(w, p, f, retried, c2) && Open(w', p, f)
    requires ReplyMeans(w'.core, p, f, r)
    requires |w.links[c2].outbox| == 1 && c2 != c ==> ReplyMeans(w'.core, p, f, w.links[c2].outbox[0])
    ensures SendingSound(w', p, f, retried, c2)
  {
    AnswersWaiting(w, w', c, r, p, f);
    if c2 == c {
      assert w.links[c].outbox == [] && Frames(w.links[c]) == [];
    }
  }

  lemma {:induction false} SoundAnswer(w: World, w': World, c: Conn, r: Reply, p: Pid, f: Frame)
    requires Answers(w, w', c, r) && w.links[c].thread.InLock? && Writing(w.core, p) && w.core.writer.value.frame == f
    requires IsClient(w, p) && ClientShape(w, p) && ClientSound(w, p) && ClientShape(w', p)
    requires Open(w, p, f) ==> Open(w', p, f)
    requires ReplyMeans(w'.core, p, f, r)
    requires w.core.lastSeq == f.num - 1 && w.core.lastSeq <= w'.core.lastSeq
    requires r.Ack? ==> w'.core.lastSeq == f.num
    requires r.ErrStdinClosed? ==> w'.core.lastSeq == w.core.lastSeq
    ensures ClientSound(w', p)
  {
    var cl := w.clients[p];
    AnswersWaiting(w, w', c, r, p, f);
    if cl.alive && cl.doubt.None? && cl.phase.Sending? {
      var c2 := cl.phase.conn;
      assert Open(w, p, Frame(cl.phase.num, cl.phase.id)) && f == Frame(cl.phase.num, cl.phase.id);
      AnswersSending(w, w', c, r, p, f, cl.phase.retried, c2);
    }
  }

  lemma {:induction false} SoundWriteFails(w: World, c: Conn)
    requires Shape(w) && Sound(w) && Holds(w, c, false)
    requires IsClient(w, w.links[c].pid) && ClientShape(DoWriteFails(w, c), w.links[c].pid)
    ensures ClientSound(DoWriteFails(w, c), w.links[c].pid)
  {
    var p := w.links[c].pid;
    assert LinkShape(w, c) && ClientShape(w, p) && ClientSound(w, p);
    var f := w.core.writer.value.frame;
    AnswersWaiting(w, DoWriteFails(w, c), c, ErrStdinClosed, p, f);
    SoundAnswer(w, DoWriteFails(w, c), c, ErrStdinClosed, p, f);
  }

  lemma {:induction false} SoundFinishOurs(w: World, c: Conn)
    requires Shape(w) && Sound(w) && CanFinish(w, c) && StillOurs(w.core)
    requires IsClient(w, w.links[c].pid) && ClientShape(DoFinish(w, c), w.links[c].pid)
    ensures ClientSound(DoFinish(w, c), w.links[c].pid)
  {
    var p := w.links[c].pid;
    assert LinkShape(w, c) && ClientShape(w, p) && ClientSound(w, p);
    var f := w.core.writer.value.frame;
    AnswersWaiting(w, DoFinish(w, c), c, Ack(f.num), p, f);
    SoundAnswer(w, DoFinish(w, c), c, Ack(f.num), p, f);
  }

  lemma {:induction false} SoundFinishLost(w: World, c: Conn)
    requires Shape(w) && Sound(w) && CanFinish(w, c) && !StillOurs(w.core)
    requires IsClient(w, w.links[c].pid) && ClientShape(DoFinish(w, c), w.links[c].pid)
    ensures ClientSound(DoFinish(w, c), w.links[c].pid)
  {
    var w' := DoFinish(w, c);
    var p := w.links[c].pid;
    assert LinkShape(w, c) && ClientShape(w, p) && ClientSound(w, p);
  }

  lemma {:induction false} SoundFinish(w: World, c: Conn)
    requires Shape(w) && Sound(w) && CanFinish(w, c)
    requires IsClient(w, w.links[c].pid) && ClientShape(DoFinish(w, c), w.links[c].pid)
    ensures ClientSound(DoFinish(w, c), w.links[c].pid)
  {
    if StillOurs(w.core) {
      SoundFinishOurs(w, c);
    } else {
      SoundFinishLost(w, c);
    }
  }

  lemma {:induction false} SoundReadReply(w: World, p: Pid)
    requires Shape(w) && Sound(w) && CanReadReply(w, p)
    requires ClientShape(DoReadReply(w, p), p)
    ensures ClientSound(DoReadReply(w, p), p)
  {
    var w' := DoReadReply(w, p);
    var c := w.clients[p].phase.conn;
    assert LinkShape(w, c) && ClientShape(w, p) && ClientSound(w, p);
  }

  lemma {:induction false} SoundGreetOk(w: World, p: Pid)
    requires Shape(w) && Sound(w) && CanGreetOk(w, p)
    requires ClientShape(DoGreetOk(w, p), p)
    ensures ClientSound(DoGreetOk(w, p), p)
  {
    var w' := DoGreetOk(w, p);
    var c := w.clients[p].phase.conn;
    assert LinkShape(w, c) && ClientShape(w, p) && ClientSound(w, p);
  }

  predicate Blocked(w: World, c: Conn)
    requires IsLink(w, c)
  {
    Blocker(w.core, w.core.owner.Some? && Alive(w, w.core.owner.value.pid), w.links[c].pid).Some?
  }

  lemma {:induction false} SoundRefused(w: World, c: Conn)
    requires Shape(w) && Sound(w) && CanClaim(w, c) && Blocked(w, c)
    requires IsClient(w, w.links[c].pid) && ClientShape(DoClaim(w, c, false), w.links[c].pid)
    ensures ClientSound(DoClaim(w, c, false), w.links[c].pid)
  {
    var w' := DoClaim(w, c, false);
    var p := w.links[c].pid;
    assert LinkShape(w, c) && ClientShape(w, p) && ClientSound(w, p);
  }

  lemma {:induction false} SoundAccepted(w: World, c: Conn)
    requires Shape(w) && Sound(w) && CanClaim(w, c) && !Blocked(w, c)
    requires IsClient(w, w.links[c].pid) && ClientShape(DoClaim(w, c, false), w.links[c].pid)
    ensures ClientSound(DoClaim(w, c, false), w.links[c].pid)
  {
    var w' := DoClaim(w, c, false);
    var p := w.links[c].pid;
    assert LinkShape(w, c) && ClientShape(w, p) && ClientSound(w, p);
    WaitingShrinks(w, w', p, Frame(0, 0));
  }

  lemma {:induction false} SoundClaimUncut(w: World, c: Conn)
    requires Shape(w) && Sound(w) && CanClaim(w, c)
    requires IsClient(w, w.links[c].pid) && ClientShape(DoClaim(w, c, false), w.links[c].pid)
    ensures ClientSound(DoClaim(w, c, false), w.links[c].pid)
  {
    if Blocked(w, c) {
      SoundRefused(w, c);
    } else {
      SoundAccepted(w, c);
    }
  }

  lemma {:induction false} SoundClaim(w: World, c: Conn, cut: bool)
    requires Shape(w) && Sound(w) && CanClaim(w, c)
    requires IsClient(w, w.links[c].pid) && ClientShape(DoClaim(w, c, cut), w.links[c].pid)
    ensures ClientSound(DoClaim(w, c, cut), w.links[c].pid)
  {
    var w1 := DoClaim(w, c, false);
    ShapeClaim(w, c, false);
    assert ClientShape(w1, w.links[c].pid);
    SoundClaimUncut(w, c);
    CutShutsDown(w, c, cut);
    SoundDown(w1, DoClaim(w, c, cut), w.links[c].pid);
  }

  /** Cutting the displaced owner off makes no difference but that its connection is down. */
  lemma {:induction false} CutShutsDown(w: World, c: Conn, cut: bool)
    requires CanClaim(w, c)
    ensures
      var w1, w' := DoClaim(w, c, false), DoClaim(w, c, cut);
      && w'.clients == w1.clients && w'.core == w1.core && |w'.links| == |w1.links|
      && forall d :: 0 <= d < |w1.links| ==> SameLink(w1.links[d], w'.links[d])
  {
  }

  /** Shutting connections down changes nothing a client relies on. */
  lemma {:induction false} SoundDown(w: World, w': World, p: Pid)
    requires IsClient(w, p) && w'.clients == w.clients && w'.core == w.core && |w'.links| == |w.links|
    requires forall d :: 0 <= d < |w.links| ==> SameLink(w.links[d], w'.links[d])
    requires ClientShape(w, p) && ClientSound(w, p) && ClientShape(w', p)
    ensures ClientSound(w', p)
  {
    SoundShrinks(w, w', p);
  }

  /** A process that sends nothing more to the shim, by any client, after a doubtful error. */
  const CAREFUL := Policy({}, false)

  lemma {:induction false} SoundLocal(w: World, e: Event, p: Pid)
    requires Shape(w) && Sound(w) && Enabled(CAREFUL, w, e) && IsClient(w, p)
    requires
      || e == Die(p) || e == StartSend(p) || e == Dial(p) || e == DialFail(p) || e == GreetFail(p) || e == IoFail(p)
      || e == Renew(p)
    requires ClientShape(Apply(CAREFUL, w, e), p)
    ensures ClientSound(Apply(CAREFUL, w, e), p)
  {
    var w' := Apply(CAREFUL, w, e);
    assert ClientShape(w, p) && ClientSound(w, p);
    if e.StartSend? && w.clients[p].sock.Some? {
      var c := w.clients[p].sock.value;
      assert LinkShape(w, c);
      assert Frames(w'.links[c]) == [Frame(w.clients[p].last + 1, w.nextId)];
    }
  }

  /** The process a step belongs to; no client's, for a step of the world. */
  function Actor(w: World, e: Event): Pid
    requires Enabled(CAREFUL, w, e)
  {
    match e
    case Die(p) => p
    case StartSend(p) => p
    case Dial(p) => p
    case DialFail(p) => p
    case GreetOk(p) => p
    case GreetFail(p) => p
    case ReadReply(p) => p
    case IoFail(p) => p
    case Renew(p) => p
    case Boot => |w.clients|
    case CloseStdinNow => |w.clients|
    case _ => w.links[e.c].pid
  }

  lemma {:induction false} GreetStepOf(w: World, p: Pid)
    requires Shape(w) && CanGreetOk(w, p)
    ensures StepOf(w, DoGreetOk(w, p), p)
  {
    assert ClientShape(w, p);
  }

  lemma {:induction false} ReadStepOf(w: World, p: Pid)
    requires Shape(w) && CanReadReply(w, p)
    ensures StepOf(w, DoReadReply(w, p), p)
  {
    assert ClientShape(w, p);
  }

  lemma {:induction false} ClientStepOf(w: World, e: Event)
    requires Shape(w) && Enabled(CAREFUL, w, e) && !ThreadEvent(e)
    ensures StepOf(w, Apply(CAREFUL, w, e), Actor(w, e))
  {
    if e.GreetOk? {
      GreetStepOf(w, e.p);
    } else if e.ReadReply? {
      ReadStepOf(w, e.p);
    } else if IsClient(w, Actor(w, e)) {
      assert ClientShape(w, Actor(w, e));
    }
  }

  predicate ThreadEvent(e: Event) {
    || e.ClaimHello? || e.SayOk? || e.Check? || e.Sample? || e.Decide? || e.Written? || e.WriteFails? || e.Finish?
    || e.Hangup?
  }

  lemma {:induction false} ClaimStepOf(w: World, c: Conn, cut: bool)
    requires Shape(w) && CanClaim(w, c)
    ensures StepOf(w, DoClaim(w, c, cut), w.links[c].pid)
  {
    assert LinkShape(w, c);
  }

  lemma {:induction false} DecideStepOf(w: World, c: Conn)
    requires Shape(w) && CanDecide(w, c)
    ensures StepOf(w, DoDecide(w, c), w.links[c].pid)
  {
    assert LinkShape(w, c);
  }

  lemma {:induction false} WriteFailsStepOf(w: World, c: Conn)
    requires Shape(w) && Holds(w, c, false)
    ensures StepOf(w, DoWriteFails(w, c), w.links[c].pid)
  {
    assert LinkShape(w, c);
  }

  lemma {:induction false} FinishStepOf(w: World, c: Conn)
    requires Shape(w) && CanFinish(w, c)
    ensures StepOf(w, DoFinish(w, c), w.links[c].pid)
  {
    assert LinkShape(w, c);
  }

  lemma {:induction false} ThreadStepOf(w: World, e: Event)
    requires Shape(w) && Enabled(CAREFUL, w, e) && ThreadEvent(e)
    ensures StepOf(w, Apply(CAREFUL, w, e), w.links[e.c].pid)
  {
    assert LinkShape(w, e.c);
    if e.ClaimHello? {
      ClaimStepOf(w, e.c, e.cut);
    } else if e.Decide? {
      DecideStepOf(w, e.c);
    } else if e.WriteFails? {
      WriteFailsStepOf(w, e.c);
    } else if e.Finish? {
      FinishStepOf(w, e.c);
    }
  }

  lemma {:induction false} ReceiptsStep(w: World, e: Event)
    requires Shape(w) && Sound(w) && Enabled(CAREFUL, w, e)
    ensures ReceiptsSound(Apply(CAREFUL, w, e))
  {
    if e.GreetOk? || e.ReadReply? {
      assert ClientShape(w, e.p) && ClientSound(w, e.p);
    }
    if e.GreetOk? {
      GreetReceipt(w, e.p);
    } else if e.ReadReply? {
      ReadReceipt(w, e.p);
    }
  }

  /** A HELLO that says a payload has landed says so of the very payload. */
  lemma {:induction false} GreetReceipt(w: World, p: Pid)
    requires Shape(w) && Sound(w) && CanGreetOk(w, p) && w.clients[p].doubt.None?
    ensures ReceiptsSound(DoGreetOk(w, p))
  {
    assert ClientShape(w, p) && ClientSound(w, p);
  }

  /** So does an ACK. */
  lemma {:induction false} ReadReceipt(w: World, p: Pid)
    requires Shape(w) && Sound(w) && CanReadReply(w, p) && w.clients[p].doubt.None?
    ensures ReceiptsSound(DoReadReply(w, p))
  {
    assert ClientShape(w, p) && ClientSound(w, p);
  }

  lemma {:induction false} SoundActor(w: World, e: Event)
    requires Shape(w) && Sound(w) && Enabled(CAREFUL, w, e) && IsClient(w, Actor(w, e))
    requires ClientShape(Apply(CAREFUL, w, e), Actor(w, e))
    ensures ClientSound(Apply(CAREFUL, w, e), Actor(w, e))
  {
    match e
    case Boot => assert false;
    case CloseStdinNow => assert false;
    case GreetOk(p) => SoundGreetOk(w, p);
    case ReadReply(p) => SoundReadReply(w, p);
    case ClaimHello(c, cut) => SoundClaim(w, c, cut);
    case SayOk(c) => SoundSayOk(w, c);
    case Check(c) => SoundCheck(w, c);
    case Sample(c) => SoundSample(w, c);
    case Decide(c) => if CanBegin(w, c) { SoundBegin(w, c); } else { SoundJudged(w, c); }
    case Written(c) => SoundWritten(w, c);
    case WriteFails(c) => SoundWriteFails(w, c);
    case Finish(c) => SoundFinish(w, c);
    case Hangup(c) => SoundHangup(w, c);
    case Die(p) => SoundLocal(w, e, p);
    case StartSend(p) => SoundLocal(w, e, p);
    case Dial(p) => SoundLocal(w, e, p);
    case DialFail(p) => SoundLocal(w, e, p);
    case GreetFail(p) => SoundLocal(w, e, p);
    case IoFail(p) => SoundLocal(w, e, p);
    case Renew(p) => SoundLocal(w, e, p);
  }

  /** Only a boot adds a client, and only one. */
  lemma {:induction false} BootAdds(w: World, e: Event)
    requires Enabled(CAREFUL, w, e) && (ThreadEvent(e) ==> IsClient(w, Actor(w, e)))
    ensures |Apply(CAREFUL, w, e).clients| == |w.clients| + if e.Boot? then 1 else 0
  {
  }

  lemma {:induction false} SoundBoot(w: World)
    requires Shape(w) && ClientShape(Apply(CAREFUL, w, Boot), |w.clients|)
    ensures ClientSound(Apply(CAREFUL, w, Boot), |w.clients|)
  {
    forall c | 0 <= c < |w.links|
      ensures w.links[c].pid < |w.clients|
    {
      assert LinkShape(w, c);
    }
  }

  /** The process a step belongs to stays sound, be it new. */
  lemma {:induction false} SoundOwn(w: World, e: Event)
    requires Shape(w) && Sound(w) && Enabled(CAREFUL, w, e)
    requires Actor(w, e) < |Apply(CAREFUL, w, e).clients| && ClientShape(Apply(CAREFUL, w, e), Actor(w, e))
    requires ThreadEvent(e) ==> IsClient(w, Actor(w, e))
    ensures ClientSound(Apply(CAREFUL, w, e), Actor(w, e))
  {
    if IsClient(w, Actor(w, e)) {
      SoundActor(w, e);
    } else {
      BootAdds(w, e);
      SoundBoot(w);
    }
  }

  /** The others do too. */
  lemma {:induction false} SoundRest(w: World, w': World, p: Pid, q: Pid)
    requires Shape(w) && Sound(w) && Shape(w') && StepOf(w, w', p) && q < |w.clients| && q != p
    ensures q < |w'.clients| && ClientShape(w', q) && ClientSound(w', q)
  {
    assert ClientShape(w', q);
    SoundOther(w, w', p, q);
  }

  lemma {:induction false} ActorStepOf(w: World, e: Event)
    requires Shape(w) && Enabled(CAREFUL, w, e)
    ensures StepOf(w, Apply(CAREFUL, w, e), Actor(w, e))
    ensures ThreadEvent(e) ==> IsClient(w, Actor(w, e))
  {
    if ThreadEvent(e) {
      ThreadStepOf(w, e);
      assert LinkShape(w, e.c);
    } else {
      ClientStepOf(w, e);
    }
  }

  lemma {:induction false} ClientsStaySound(w: World, e: Event, q: Pid)
    requires Shape(w) && Sound(w) && Enabled(CAREFUL, w, e) && Shape(Apply(CAREFUL, w, e))
    requires q < |Apply(CAREFUL, w, e).clients|
    ensures ClientShape(Apply(CAREFUL, w, e), q) && ClientSound(Apply(CAREFUL, w, e), q)
  {
    ActorStepOf(w, e);
    assert ClientShape(Apply(CAREFUL, w, e), q);
    if q == Actor(w, e) {
      SoundOwn(w, e);
    } else {
      BootAdds(w, e);
      SoundRest(w, Apply(CAREFUL, w, e), Actor(w, e), q);
    }
  }

  lemma {:induction false} SoundStep(w: World, e: Event)
    requires Shape(w) && Sound(w) && Enabled(CAREFUL, w, e)
    ensures Shape(Apply(CAREFUL, w, e)) && Sound(Apply(CAREFUL, w, e))
  {
    var w' := Apply(CAREFUL, w, e);
    ShapeStep(CAREFUL, w, e);
    ReceiptsStep(w, e);
    forall q | 0 <= q < |w'.clients|
      ensures ClientShape(w', q) && ClientSound(w', q)
    {
      ClientsStaySound(w, e, q);
    }
  }

  lemma {:induction false} SoundRun(w: World, es: seq<Event>)
    requires Shape(w) && Sound(w) && Run(CAREFUL, w, es).Some?
    ensures Shape(Run(CAREFUL, w, es).value) && Sound(Run(CAREFUL, w, es).value)
    decreases |es|
  {
    if es != [] {
      SoundStep(w, es[0]);
      SoundRun(Apply(CAREFUL, w, es[0]), es[1..]);
    }
  }

  /**
   Exactly once, over every run of careful processes: each `send` that returned
   has its own payload in the CLI's input, under the number it returned, at
   exactly one place; and one process's payloads stand in the order of its calls.
   */
  lemma {:induction false} ExactlyOnce(owned: bool, es: seq<Event>)
    requires Run(CAREFUL, Start(owned), es).Some?
    ensures AllHonoured(Run(CAREFUL, Start(owned), es).value)
    ensures forall r | r in Run(CAREFUL, Start(owned), es).value.returned ::
      WrittenExactlyOnce(Run(CAREFUL, Start(owned), es).value, r)
    ensures WrittenOnceInOrder(Run(CAREFUL, Start(owned), es).value)
  {
    var w := Run(CAREFUL, Start(owned), es).value;
    ShapeStart(owned);
    SoundRun(Start(owned), es);
    AtMostOnceInOrder(CAREFUL, owned, es);
    forall r | r in w.returned
      ensures Honoured(w, r) && WrittenExactlyOnce(w, r)
    {
      var k :| 0 <= k < |w.core.numbered| && w.core.numbered[k] == Entry(r.pid, Frame(r.num, r.id));
      var i :| 0 <= i < |w.core.log| && w.core.log[i] == w.core.numbered[k];
    }
  }

  /** A number is used by the end of a write of the owner's process, and by nothing else. */
  lemma {:induction false} NumberStep(policy: Policy, w: World, e: Event)
    requires Shape(w) && Enabled(policy, w, e)
    ensures
      var w' := Apply(policy, w, e);
      if e.Finish? && OwnedBy(w.core, w.core.writer.value.sender)
      then w'.core.lastSeq == w.core.lastSeq + 1
        && w'.core.numbered == w.core.numbered + [Entry(w.core.owner.value.pid, w.core.writer.value.frame)]
      else w'.core.lastSeq == w.core.lastSeq && w'.core.numbered == w.core.numbered
  {
  }

  /**
   Takeover safety, whatever clients do after an error: a number is used only
   when a write is booked for the process that owns the shim at that moment, one
   number at a time; a displaced owner's write uses none and is never acknowledged.
   */
  lemma {:induction false} NumbersGoToTheOwner(policy: Policy, owned: bool, es: seq<Event>, e: Event)
    requires Run(policy, Start(owned), es).Some?
    requires Enabled(policy, Run(policy, Start(owned), es).value, e)
    ensures
      var w := Run(policy, Start(owned), es).value;
      var w' := Apply(policy, w, e);
      if e.Finish? && OwnedBy(w.core, w.core.writer.value.sender)
      then w'.core.lastSeq == w.core.lastSeq + 1
        && w'.core.numbered == w.core.numbered + [Entry(w.core.owner.value.pid, w.core.writer.value.frame)]
      else w'.core.lastSeq == w.core.lastSeq && w'.core.numbered == w.core.numbered
    ensures
      var w := Run(policy, Start(owned), es).value;
      e.Finish? && !OwnedBy(w.core, w.core.writer.value.sender) ==>
        forall n :: Ack(n) in Apply(policy, w, e).links[e.c].outbox ==> Ack(n) in w.links[e.c].outbox
  {
    ShapeStart(owned);
    OrderRun(policy, Start(owned), es);
    NumberStep(policy, Run(policy, Start(owned), es).value, e);
  }
}
