/**
 At most once, and in order: over every run, whatever clients do after an
 error, no payload of a process reaches the CLI twice, and a process's payloads
 reach it in the order of its `send` calls.
 */
module ShimOrder {
  import opened Wrappers
  import opened ShimCore
  import opened ShimProtocol
  import opened ShimShape

  /** The payloads a connection may still hand to the CLI, next first. */
  function Frames(l: Link): seq<Frame> {
    (if l.thread.Checked? then [l.thread.frame] else if l.thread.Sampled? then [l.thread.frame] else []) + l.inbox
  }

  /** The number is used up, or is about to be: the write of this very frame is being booked. */
  ghost predicate Spent(k: Core, p: Pid, f: Frame) {
    f.num <= k.lastSeq
    || (k.writer.Some? && k.writer.value.flushed && k.writer.value.sender == p && k.writer.value.frame == f)
  }

  /** A payload waiting at the owner's connection is newer than all written ones, or will be answered as a duplicate. */
  ghost predicate NewerOrSpent(k: Core, p: Pid, f: Frame) {
    && (forall i :: 0 <= i < |k.log| && k.log[i].pid == p ==>
          k.log[i].frame.id < f.id || (k.log[i].frame.id == f.id && Spent(k, p, f)))
    && (k.writer.Some? && k.writer.value.sender == p ==>
          k.writer.value.frame.id < f.id || k.writer.value.frame == f)
  }

  ghost predicate LinkOrder(w: World, c: Conn)
    requires IsLink(w, c)
  {
    var fs := Frames(w.links[c]);
    && (forall i :: 0 <= i < |fs| ==> fs[i].id < w.nextId)
    && (forall i, j :: 0 <= i < j < |fs| ==> fs[i].id < fs[j].id)
    && (IsOwner(w.core, c) ==> forall i :: 0 <= i < |fs| ==> NewerOrSpent(w.core, w.links[c].pid, fs[i]))
  }

  ghost predicate LogOrder(w: World) {
    && WrittenOnceInOrder(w)
    && (forall i :: 0 <= i < |w.core.log| ==>
          && w.core.log[i].frame.id < w.nextId
          && IsClient(w, w.core.log[i].pid)
          && w.clients[w.core.log[i].pid].joined)
    && (w.core.writer.Some? ==>
          var x := w.core.writer.value;
          && x.frame.id < w.nextId
          && (!x.flushed ==> forall i :: 0 <= i < |w.core.log| && w.core.log[i].pid == x.sender ==>
                w.core.log[i].frame.id < x.frame.id))
  }

  /** `f` belongs to an earlier call than `id`, or is that call's payload under the number `want`. */
  ghost predicate UpTo(f: Frame, id: nat, want: Option<int>) {
    f.id < id || (want.Some? && f == Frame(want.value, id))
  }

  function CurrentId(ph: Phase): Option<nat> {
    match ph
    case Ready => None
    case Dialing(id, _) => Some(id)
    case Greeting(_, id, _) => Some(id)
    case Sending(id, _, _, _) => Some(id)
  }

  function CurrentNum(ph: Phase): Option<int> {
    match ph
    case Ready => None
    case Dialing(_, want) => want
    case Greeting(_, _, want) => want
    case Sending(_, num, _, _) => Some(num)
  }

  ghost predicate ClientOrder(w: World, p: Pid)
    requires IsClient(w, p)
  {
    var cl := w.clients[p];
    cl.alive ==>
      && (cl.joined ==> forall i :: 0 <= i < |w.core.log| && w.core.log[i].pid == p ==>
            Spent(w.core, p, w.core.log[i].frame))
      && (CurrentId(cl.phase).Some? ==>
            var id := CurrentId(cl.phase).value;
            var want := CurrentNum(cl.phase);
            && id < w.nextId
            && (forall i :: 0 <= i < |w.core.log| && w.core.log[i].pid == p ==> UpTo(w.core.log[i].frame, id, want))
            && (w.core.writer.Some? && w.core.writer.value.sender == p ==> UpTo(w.core.writer.value.frame, id, want))
            && (forall c :: 0 <= c < |w.links| && w.links[c].pid == p ==> FramesUpTo(w.links[c], id, want)))
  }

  ghost predicate FramesUpTo(l: Link, id: nat, want: Option<int>) {
    forall i :: 0 <= i < |Frames(l)| ==> UpTo(Frames(l)[i], id, want)
  }

  ghost predicate Order(w: World) {
    && LogOrder(w)
    && (forall c :: 0 <= c < |w.links| ==> LinkOrder(w, c))
    && (forall p :: 0 <= p < |w.clients| ==> ClientOrder(w, p))
  }

  /** `fs'` is `fs`, or `fs` with its first frame dealt with. */
  predicate Shorter(fs: seq<Frame>, fs': seq<Frame>) {
    fs' == fs || (fs != [] && fs' == fs[1..])
  }

  /** The step writes nothing, books nothing and adds no frame. */
  ghost predicate Narrower(w: World, w': World) {
    && w'.core.log == w.core.log && w'.core.lastSeq == w.core.lastSeq && w'.core.writer == w.core.writer
    && w'.nextId >= w.nextId
    && |w'.links| == |w.links| && |w'.clients| == |w.clients|
    && (forall d :: 0 <= d < |w.links| ==>
          && w'.links[d].pid == w.links[d].pid
          && Shorter(Frames(w.links[d]), Frames(w'.links[d]))
          && (IsOwner(w'.core, d) ==> IsOwner(w.core, d) || Frames(w.links[d]) == []))
    && (forall p :: 0 <= p < |w.clients| ==>
          && (w'.clients[p].alive ==> w.clients[p].alive)
          && (w.clients[p].joined ==> w'.clients[p].joined)
          && (CurrentId(w'.clients[p].phase).Some? ==> SameCall(w.clients[p].phase, w'.clients[p].phase)))
  }

  predicate SameCall(a: Phase, b: Phase) {
    CurrentId(a) == CurrentId(b) && CurrentNum(a) == CurrentNum(b)
  }

  lemma {:induction false} NarrowerLink(w: World, w': World, d: Conn)
    requires Order(w) && Narrower(w, w') && d < |w.links|
    ensures LinkOrder(w', d)
  {
    assert LinkOrder(w, d);
  }

  lemma {:induction false} NarrowerClient(w: World, w': World, q: Pid)
    requires Order(w) && Narrower(w, w') && q < |w.clients|
    ensures ClientOrder(w', q)
  {
    assert ClientOrder(w, q);
  }

  lemma {:induction false} OrderNarrower(w: World, w': World)
    requires Order(w) && Narrower(w, w')
    ensures Order(w')
  {
    forall d | 0 <= d < |w'.links|
      ensures LinkOrder(w', d)
    {
      NarrowerLink(w, w', d);
    }
    forall q | 0 <= q < |w'.clients|
      ensures ClientOrder(w', q)
    {
      NarrowerClient(w, w', q);
    }
    assert LogOrder(w');
  }

  lemma {:induction false} OrderBoot(w: World)
    requires Order(w)
    ensures Order(w.(clients := w.clients + [Client(true, false, None, 0, Ready, None)]))
  {
    var w' := w.(clients := w.clients + [Client(true, false, None, 0, Ready, None)]);
    forall d | 0 <= d < |w'.links|
      ensures LinkOrder(w', d)
    {
      assert LinkOrder(w, d);
    }
    forall q | 0 <= q < |w'.clients|
      ensures ClientOrder(w', q)
    {
      if q < |w.clients| { assert ClientOrder(w, q); }
    }
  }

  lemma {:induction false} OrderDial(w: World, p: Pid)
    requires Order(w) && CanDial(w, p)
    ensures Order(DoDial(w, p))
  {
    var w' := DoDial(w, p);
    forall d | 0 <= d < |w'.links|
      ensures LinkOrder(w', d)
    {
      if d < |w.links| { assert LinkOrder(w, d); }
    }
    forall q | 0 <= q < |w'.clients|
      ensures ClientOrder(w', q)
    {
      assert ClientOrder(w, q);
    }
  }

  /** A fresh call is newer than everything its process sent before. */
  lemma {:induction false} OrderFresh(w: World, p: Pid)
    requires Order(w) && IsClient(w, p)
    ensures Order(SetClient(w, p, w.clients[p].(phase := Dialing(w.nextId, None))).(nextId := w.nextId + 1))
  {
    var w' := SetClient(w, p, w.clients[p].(phase := Dialing(w.nextId, None))).(nextId := w.nextId + 1);
    forall d | 0 <= d < |w'.links|
      ensures LinkOrder(w', d) && FramesUpTo(w'.links[d], w.nextId, None)
    {
      assert LinkOrder(w, d);
    }
    forall q | 0 <= q < |w'.clients|
      ensures ClientOrder(w', q)
    {
      assert ClientOrder(w, q);
    }
  }

  /** A call puts its frame on a connection, where only older frames are waiting. */
  lemma {:induction false} OrderTransmit(w: World, p: Pid, id: nat, num: int, retried: bool, c: Conn)
    requires Order(w) && CanTransmit(w, p, id, num, retried, c)
    ensures Order(Transmit(w, p, id, num, retried, c))
  {
    var w' := Transmit(w, p, id, num, retried, c);
    TransmitLink(w, p, id, num, retried, c);
    TransmitClient(w, p, id, num, retried, c);
    forall d | 0 <= d < |w'.links|
      ensures LinkOrder(w', d)
    {
      assert LinkOrder(w, d);
    }
    forall q | 0 <= q < |w'.clients|
      ensures ClientOrder(w', q)
    {
      assert ClientOrder(w, q);
    }
  }

  lemma {:induction false} TransmitFrames(w: World, p: Pid, id: nat, num: int, retried: bool, c: Conn, d: Conn)
    requires Order(w) && CanTransmit(w, p, id, num, retried, c) && IsLink(w, d) && w.links[d].pid == p
    ensures FramesUpTo(Transmit(w, p, id, num, retried, c).links[d], id, Some(num))
  {
    var w' := Transmit(w, p, id, num, retried, c);
    assert ClientOrder(w, p);
    assert FramesUpTo(w.links[d], id, CurrentNum(w.clients[p].phase));
    if d == c {
      assert Frames(w'.links[c]) == Frames(w.links[c]) + [Frame(num, id)];
    }
  }

  lemma {:induction false} TransmitClient(w: World, p: Pid, id: nat, num: int, retried: bool, c: Conn)
    requires Order(w) && CanTransmit(w, p, id, num, retried, c)
    ensures ClientOrder(Transmit(w, p, id, num, retried, c), p)
  {
    var w' := Transmit(w, p, id, num, retried, c);
    assert ClientOrder(w, p);
    forall d | 0 <= d < |w'.links| && w'.links[d].pid == p
      ensures FramesUpTo(w'.links[d], id, Some(num))
    {
      TransmitFrames(w, p, id, num, retried, c, d);
    }
  }

  predicate CanTransmit(w: World, p: Pid, id: nat, num: int, retried: bool, c: Conn) {
    && Alive(w, p) && w.clients[p].joined && IsLink(w, c) && w.links[c].pid == p
    && CurrentId(w.clients[p].phase) == Some(id)
    && CurrentNum(w.clients[p].phase) == (if retried then Some(num) else None)
    && (retried ==> Frames(w.links[c]) == [])
  }

  /** The frame of the present call is newer than all its process has written, or is being booked. */
  lemma {:induction false} TransmitNewer(w: World, p: Pid, id: nat, num: int, retried: bool, c: Conn)
    requires Order(w) && CanTransmit(w, p, id, num, retried, c)
    ensures NewerOrSpent(w.core, p, Frame(num, id)) && id < w.nextId
    ensures forall i :: 0 <= i < |Frames(w.links[c])| ==> Frames(w.links[c])[i].id < id
  {
    assert ClientOrder(w, p);
    assert FramesUpTo(w.links[c], id, CurrentNum(w.clients[p].phase));
    forall i | 0 <= i < |Frames(w.links[c])|
      ensures Frames(w.links[c])[i].id < id
    {
      assert UpTo(Frames(w.links[c])[i], id, CurrentNum(w.clients[p].phase));
    }
  }

  lemma {:induction false} TransmitLink(w: World, p: Pid, id: nat, num: int, retried: bool, c: Conn)
    requires Order(w) && CanTransmit(w, p, id, num, retried, c)
    ensures LinkOrder(Transmit(w, p, id, num, retried, c), c)
  {
    TransmitNewer(w, p, id, num, retried, c);
    assert LinkOrder(w, c);
    assert Frames(Transmit(w, p, id, num, retried, c).links[c]) == Frames(w.links[c]) + [Frame(num, id)];
  }

  predicate CanBegin(w: World, c: Conn) {
    CanDecide(w, c) && Judge(w.core, c, w.links[c].thread.sender, w.links[c].thread.frame).Write?
  }

  lemma {:induction false} BeginLog(w: World, c: Conn)
    requires Shape(w) && Order(w) && CanBegin(w, c)
    ensures LogOrder(DoDecide(w, c))
  {
    assert LinkShape(w, c) && LinkOrder(w, c);
    var fs := Frames(w.links[c]);
    assert fs[0] == w.links[c].thread.frame && NewerOrSpent(w.core, w.links[c].pid, fs[0]);
  }

  lemma {:induction false} BeginNewer(k: Core, c: Conn, p: Pid, f: Frame, later: Frame)
    requires k.writer.None? && NewerOrSpent(k, p, later) && f.id < later.id
    ensures NewerOrSpent(BeginWrite(k, c, p, f), p, later)
  {
  }

  /** What waits behind the frame that starts its write. */
  lemma {:induction false} BeginRest(k: Core, c: Conn, p: Pid, fs: seq<Frame>, next: nat)
    requires k.writer.None? && fs != []
    requires forall i :: 0 <= i < |fs| ==> fs[i].id < next && NewerOrSpent(k, p, fs[i])
    requires forall i, j :: 0 <= i < j < |fs| ==> fs[i].id < fs[j].id
    ensures forall i :: 0 <= i < |fs[1..]| ==> fs[1..][i].id < next
    ensures forall i :: 0 <= i < |fs[1..]| ==> NewerOrSpent(BeginWrite(k, c, p, fs[0]), p, fs[1..][i])
    ensures forall i, j :: 0 <= i < j < |fs[1..]| ==> fs[1..][i].id < fs[1..][j].id
  {
    forall i | 0 <= i < |fs[1..]|
      ensures NewerOrSpent(BeginWrite(k, c, p, fs[0]), p, fs[1..][i])
    {
      BeginNewer(k, c, p, fs[0], fs[i + 1]);
    }
  }

  lemma {:induction false} BeginShape(w: World, c: Conn)
    requires Shape(w) && CanBegin(w, c)
    ensures
      var w' := DoDecide(w, c);
      var fs := Frames(w.links[c]);
      && fs != [] && fs[0] == w.links[c].thread.frame && Frames(w'.links[c]) == fs[1..]
      && w.core.writer.None? && IsOwner(w.core, c) && w'.nextId == w.nextId
      && w'.core == BeginWrite(w.core, c, w.links[c].pid, fs[0]) && w'.links[c].pid == w.links[c].pid
  {
    assert LinkShape(w, c);
  }

  lemma {:induction false} BeginLink(w: World, c: Conn)
    requires Shape(w) && Order(w) && CanBegin(w, c)
    ensures LinkOrder(DoDecide(w, c), c)
  {
    BeginShape(w, c);
    assert LinkOrder(w, c);
    BeginRest(w.core, c, w.links[c].pid, Frames(w.links[c]), w.nextId);
  }

  /** The write starts: the owner's next frame leaves its connection for the CLI. */
  lemma {:induction false} OrderBegin(w: World, c: Conn)
    requires Shape(w) && Order(w) && CanBegin(w, c)
    ensures Order(DoDecide(w, c))
  {
    var w' := DoDecide(w, c);
    BeginLog(w, c);
    BeginLink(w, c);
    assert Frames(w'.links[c]) == Frames(w.links[c])[1..];
    forall d | 0 <= d < |w'.links|
      ensures LinkOrder(w', d)
    {
      assert LinkOrder(w, d);
    }
    forall q | 0 <= q < |w'.clients|
      ensures ClientOrder(w', q)
    {
      assert ClientOrder(w, q);
      assert LinkShape(w, c);
      assert w.links[c].thread.frame == Frames(w.links[c])[0];
    }
  }

  lemma {:induction false} OrderWritten(w: World, c: Conn)
    requires Shape(w) && Order(w) && Holds(w, c, false)
    ensures Order(DoWritten(w, c))
  {
    var w' := DoWritten(w, c);
    assert LinkShape(w, c);
    forall d | 0 <= d < |w'.links|
      ensures LinkOrder(w', d)
    {
      assert LinkOrder(w, d);
    }
    forall q | 0 <= q < |w'.clients|
      ensures ClientOrder(w', q)
    {
      assert ClientOrder(w, q);
    }
  }

  /** The send lock is let go, with or without the number. */
  lemma {:induction false} OrderRelease(w: World, k: Core)
    requires Shape(w) && Order(w) && w.core.writer.Some?
    requires k == if w.core.writer.value.flushed then Advance(w.core) else BreakPipe(w.core)
    ensures Order(w.(core := k))
  {
    var w' := w.(core := k);
    assert LinkShape(w, w.core.writer.value.conn);
    forall d | 0 <= d < |w'.links|
      ensures LinkOrder(w', d)
    {
      ReleaseLink(w, k, d);
    }
    forall q | 0 <= q < |w'.clients|
      ensures ClientOrder(w', q)
    {
      ReleaseClient(w, k, q);
    }
  }

  lemma {:induction false} ReleaseLink(w: World, k: Core, d: Conn)
    requires Shape(w) && Order(w) && w.core.writer.Some? && IsLink(w, d)
    requires k == if w.core.writer.value.flushed then Advance(w.core) else BreakPipe(w.core)
    ensures LinkOrder(w.(core := k), d)
  {
    assert LinkShape(w, w.core.writer.value.conn);
    assert LinkOrder(w, d) && LinkShape(w, d);
  }

  lemma {:induction false} ReleaseClient(w: World, k: Core, q: Pid)
    requires Shape(w) && Order(w) && w.core.writer.Some? && IsClient(w, q)
    requires k == if w.core.writer.value.flushed then Advance(w.core) else BreakPipe(w.core)
    ensures ClientOrder(w.(core := k), q)
  {
    assert LinkShape(w, w.core.writer.value.conn);
    assert ClientOrder(w, q) && ClientShape(w, q);
  }

  lemma {:induction false} OrderStartSend(w: World, p: Pid)
    requires Shape(w) && Order(w) && Alive(w, p) && w.clients[p].phase.Ready?
    ensures ClientShape(w, p) && Order(DoStartSend(w, p))
  {
    var cl := w.clients[p];
    assert ClientShape(w, p);
    OrderFresh(w, p);
    if cl.sock.Some? {
      var c := cl.sock.value;
      assert LinkShape(w, c);
      var w1 := SetClient(w, p, cl.(phase := Dialing(w.nextId, None))).(nextId := w.nextId + 1);
      OrderTransmit(w1, p, w.nextId, cl.last + 1, false, c);
      assert DoStartSend(w, p).clients == Transmit(w1, p, w.nextId, cl.last + 1, false, c).clients;
    }
  }

  lemma {:induction false} OrderGreetOk(w: World, p: Pid)
    requires Shape(w) && Order(w) && CanGreetOk(w, p)
    ensures Order(DoGreetOk(w, p))
  {
    var cl := w.clients[p];
    var c := cl.phase.conn;
    assert ClientShape(w, p) && LinkShape(w, c);
    assert w.links[c].outbox[0] in w.links[c].outbox;
    var w' := DoGreetOk(w, p);
    var n := w.links[c].outbox[0].lastSeq;
    if cl.phase.want.Some? && n >= cl.phase.want.value {
      OrderNarrower(w, w');
    } else {
      var w1 := SetClient(SetLink(w, c, w.links[c].(outbox := w.links[c].outbox[1..])), p, cl.(last := n));
      OrderNarrower(w, w1);
      var num := if cl.phase.want.None? then n + 1 else cl.phase.want.value;
      OrderTransmit(w1, p, cl.phase.id, num, cl.phase.want.Some?, c);
    }
  }

  lemma {:induction false} OrderClaim(w: World, c: Conn, cut: bool)
    requires Shape(w) && Order(w) && CanClaim(w, c)
    ensures Order(DoClaim(w, c, cut))
  {
    assert LinkShape(w, c);
    OrderNarrower(w, DoClaim(w, c, cut));
  }

  lemma {:induction false} OrderDecide(w: World, c: Conn)
    requires Shape(w) && Order(w) && CanDecide(w, c)
    ensures Order(DoDecide(w, c))
  {
    if CanBegin(w, c) {
      OrderBegin(w, c);
    } else {
      assert Frames(DoDecide(w, c).links[c]) == Frames(w.links[c])[1..];
      OrderNarrower(w, DoDecide(w, c));
    }
  }

  lemma {:induction false} OrderWriteFails(w: World, c: Conn)
    requires Shape(w) && Order(w) && Holds(w, c, false)
    ensures Order(DoWriteFails(w, c))
  {
    OrderRelease(w, BreakPipe(w.core));
    assert LinkShape(w, c);
    OrderNarrower(w.(core := BreakPipe(w.core)), DoWriteFails(w, c));
  }

  lemma {:induction false} FinishNarrows(w: World, c: Conn)
    requires Shape(w) && CanFinish(w, c)
    ensures Narrower(w.(core := Advance(w.core)), DoFinish(w, c))
  {
    assert LinkShape(w, c);
  }

  lemma {:induction false} OrderFinish(w: World, c: Conn)
    requires Shape(w) && Order(w) && CanFinish(w, c)
    ensures Order(DoFinish(w, c))
  {
    OrderRelease(w, Advance(w.core));
    FinishNarrows(w, c);
    OrderNarrower(w.(core := Advance(w.core)), DoFinish(w, c));
  }

  /** A reply is read, and the client's call is over. */
  lemma {:induction false} PopNarrows(w: World, p: Pid, c: Conn, cl: Client)
    requires IsClient(w, p) && IsLink(w, c) && w.links[c].outbox != []
    requires cl.phase.Ready? && cl.joined == w.clients[p].joined && (cl.alive ==> w.clients[p].alive)
    ensures Narrower(w, SetClient(SetLink(w, c, w.links[c].(outbox := Rest(w.links[c].outbox))), p, cl))
  {
    assert Frames(w.links[c].(outbox := Rest(w.links[c].outbox))) == Frames(w.links[c]);
  }

  lemma {:induction false} ReadIsPop(w: World, p: Pid)
    requires CanReadReply(w, p)
    ensures
      var c, w' := w.clients[p].phase.conn, DoReadReply(w, p);
      && IsClient(w', p) && w'.clients[p].phase.Ready?
      && w'.clients[p].joined == w.clients[p].joined && w'.clients[p].alive
      && w'.(returned := w.returned) ==
           SetClient(SetLink(w, c, w.links[c].(outbox := Rest(w.links[c].outbox))), p, w'.clients[p])
  {
  }

  lemma {:induction false} ReadNarrows(w: World, p: Pid)
    requires CanReadReply(w, p)
    ensures Narrower(w, DoReadReply(w, p))
  {
    ReadIsPop(w, p);
    PopNarrows(w, p, w.clients[p].phase.conn, DoReadReply(w, p).clients[p]);
    ReturnedNarrows(w, DoReadReply(w, p));
  }

  lemma {:induction false} ReturnedNarrows(w: World, w': World)
    requires Narrower(w, w'.(returned := w.returned))
    ensures Narrower(w, w')
  {
  }

  lemma {:induction false} OrderReadReply(w: World, p: Pid)
    requires Order(w) && CanReadReply(w, p)
    ensures Order(DoReadReply(w, p))
  {
    ReadNarrows(w, p);
    OrderNarrower(w, DoReadReply(w, p));
  }

  lemma {:induction false} OrderClientStep(policy: Policy, w: World, e: Event)
    requires Shape(w) && Order(w) && Enabled(policy, w, e)
    requires e.Die? || e.DialFail? || e.GreetFail? || e.IoFail? || e.Renew?
    ensures Order(Apply(policy, w, e))
  {
    OrderNarrower(w, Apply(policy, w, e));
  }

  lemma {:induction false} CheckNarrows(w: World, c: Conn)
    requires CanCheck(w, c)
    ensures Narrower(w, DoCheck(w, c))
  {
    assert Shorter(Frames(w.links[c]), Frames(DoCheck(w, c).links[c]));
  }

  lemma {:induction false} HangupNarrows(w: World, c: Conn)
    requires CanHangup(w, c)
    ensures Narrower(w, End(w, c, w.links[c]))
  {
    assert Shorter(Frames(w.links[c]), Frames(End(w, c, w.links[c]).links[c]));
  }

  lemma {:induction false} ThreadNarrows(policy: Policy, w: World, e: Event)
    requires Enabled(policy, w, e)
    requires e.SayOk? || e.Check? || e.Sample? || e.Hangup? || e.CloseStdinNow?
    ensures Narrower(w, Apply(policy, w, e))
  {
    if e.Check? {
      CheckNarrows(w, e.c);
    } else if e.Hangup? {
      HangupNarrows(w, e.c);
    } else if e.SayOk? || e.Sample? {
      assert Frames(w.links[e.c]) == Frames(Apply(policy, w, e).links[e.c]);
    }
  }

  lemma {:induction false} OrderThreadStep(policy: Policy, w: World, e: Event)
    requires Order(w) && Enabled(policy, w, e)
    requires e.SayOk? || e.Check? || e.Sample? || e.Hangup? || e.CloseStdinNow?
    ensures Order(Apply(policy, w, e))
  {
    ThreadNarrows(policy, w, e);
    OrderNarrower(w, Apply(policy, w, e));
  }

  lemma {:induction false} OrderClientEvent(policy: Policy, w: World, e: Event)
    requires Shape(w) && Order(w) && Enabled(policy, w, e) && ClientEvent(e)
    ensures Order(Apply(policy, w, e))
  {
    match e
    case Boot => OrderBoot(w);
    case StartSend(p) => OrderStartSend(w, p);
    case Dial(p) => OrderDial(w, p);
    case GreetOk(p) => OrderGreetOk(w, p);
    case ReadReply(p) => OrderReadReply(w, p);
    case _ => OrderClientStep(policy, w, e);
  }

  lemma {:induction false} OrderShimEvent(policy: Policy, w: World, e: Event)
    requires Shape(w) && Order(w) && Enabled(policy, w, e)
    requires e.ClaimHello? || e.Decide? || e.Written? || e.WriteFails? || e.Finish?
    ensures Order(Apply(policy, w, e))
  {
    match e
    case ClaimHello(c, cut) => OrderClaim(w, c, cut);
    case Decide(c) => OrderDecide(w, c);
    case Written(c) => OrderWritten(w, c);
    case WriteFails(c) => OrderWriteFails(w, c);
    case Finish(c) => OrderFinish(w, c);
  }

  lemma {:induction false} OrderStep(policy: Policy, w: World, e: Event)
    requires Shape(w) && Order(w) && Enabled(policy, w, e)
    ensures Order(Apply(policy, w, e))
  {
    if ClientEvent(e) {
      OrderClientEvent(policy, w, e);
    } else if e.SayOk? || e.Check? || e.Sample? || e.Hangup? || e.CloseStdinNow? {
      OrderThreadStep(policy, w, e);
    } else {
      OrderShimEvent(policy, w, e);
    }
  }

  lemma {:induction false} OrderRun(policy: Policy, w: World, es: seq<Event>)
    requires Shape(w) && Order(w) && Run(policy, w, es).Some?
    ensures Shape(Run(policy, w, es).value) && Order(Run(policy, w, es).value)
    decreases |es|
  {
    if es != [] {
      ShapeStep(policy, w, es[0]);
      OrderStep(policy, w, es[0]);
      OrderRun(policy, Apply(policy, w, es[0]), es[1..]);
    }
  }

  /**
   Whatever the clients do after an error, over every run: no payload is written
   twice, each process's payloads are written in call order, and the numbers
   1..lastSeq are given out one each to payloads that were written.
   */
  lemma {:induction false} AtMostOnceInOrder(policy: Policy, owned: bool, es: seq<Event>)
    requires Run(policy, Start(owned), es).Some?
    ensures WrittenOnceInOrder(Run(policy, Start(owned), es).value)
    ensures Numbering(Run(policy, Start(owned), es).value)
  {
    ShapeStart(owned);
    OrderRun(policy, Start(owned), es);
  }
}
