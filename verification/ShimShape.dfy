/**
 What every step of the protocol keeps, whatever the clients do after an error:
 threads, links and clients fit together, numbers are given out one by one, and
 a live process that ever owned the shim still owns it.
 */
module ShimShape {
  import opened Wrappers
  import opened ShimCore
  import opened ShimProtocol

  ghost predicate LinkShape(w: World, c: Conn)
    requires IsLink(w, c)
  {
    var l := w.links[c];
    && IsClient(w, l.pid)
    && (l.claimed ==> w.clients[l.pid].joined)
    && (!l.claimed ==>
          (l.thread.AwaitHello? || l.thread.Ended?) && l.inbox == [] && forall r :: r in l.outbox ==> r.Refused?)
    && (l.thread.AwaitHello? ==> !l.claimed)
    && (l.thread.Claimed? || l.thread.AwaitHello? ==> l.inbox == [] && l.outbox == [])
    && (l.thread.Sampled? && l.thread.sender.Some? ==> l.thread.sender.value == l.pid)
    && (l.thread.InLock? <==> HasLock(w.core, c))
  }

  ghost predicate OwnerShape(w: World) {
    w.core.owner.Some? ==>
      var o := w.core.owner.value;
      && IsClient(w, o.pid)
      && w.clients[o.pid].joined
      && (o.conn.Some? ==>
            var c := o.conn.value;
            && IsLink(w, c)
            && w.links[c].pid == o.pid
            && w.links[c].claimed
            && !w.links[c].thread.Ended?)
  }

  ghost predicate WriterShape(w: World) {
    w.core.writer.Some? ==>
      var x := w.core.writer.value;
      && IsLink(w, x.conn)
      && x.sender == w.links[x.conn].pid
      && x.frame.num == w.core.lastSeq + 1
      && (x.flushed ==> w.core.log != [] && w.core.log[|w.core.log| - 1] == Entry(x.sender, x.frame))
  }

  /** The numbered payloads are exactly 1, 2, ..., lastSeq, and each of them was written. */
  ghost predicate Numbering(w: World) {
    && |w.core.numbered| == w.core.lastSeq
    && (forall k :: 0 <= k < |w.core.numbered| ==> w.core.numbered[k].frame.num == k + 1)
    && (forall k :: 0 <= k < |w.core.numbered| ==> w.core.numbered[k] in w.core.log)
  }

  ghost predicate ClientShape(w: World, p: Pid)
    requires IsClient(w, p)
  {
    var cl := w.clients[p];
    && (cl.alive && cl.joined ==> OwnedBy(w.core, p))
    && (cl.sock.Some? ==>
          && IsLink(w, cl.sock.value)
          && w.links[cl.sock.value].pid == p
          && w.links[cl.sock.value].claimed
          && !w.links[cl.sock.value].thread.Claimed?)
    && (cl.phase.Dialing? ==> cl.sock.None? && (cl.phase.want.Some? ==> cl.joined))
    && (cl.phase.Greeting? ==>
          var c := cl.phase.conn;
          && cl.sock.None?
          && (cl.phase.want.Some? ==> cl.joined)
          && IsLink(w, c)
          && w.links[c].pid == p
          && w.links[c].inbox == []
          && !w.links[c].thread.Checked? && !w.links[c].thread.Sampled? && !w.links[c].thread.InLock?
          && forall r :: r in w.links[c].outbox ==> r.Ok? || r.Refused?)
    && (cl.phase.Sending? ==> cl.sock == Some(cl.phase.conn))
  }

  ghost predicate Shape(w: World) {
    && OwnerShape(w)
    && WriterShape(w)
    && Numbering(w)
    && (forall c :: 0 <= c < |w.links| ==> LinkShape(w, c))
    && (forall p :: 0 <= p < |w.clients| ==> ClientShape(w, p))
  }

  lemma {:induction false} ShapeStart(owned: bool)
    ensures Shape(Start(owned))
  {
  }

  predicate SameOwner(k: Core, k': Core) {
    k.owner.Some? == k'.owner.Some? && (k.owner.Some? ==> k.owner.value.pid == k'.owner.value.pid)
  }

  /** A live process other than `p` owns the shim. */
  predicate BlockedBy(w: World, p: Pid) {
    w.core.owner.Some? && w.core.owner.value.pid != p && Alive(w, w.core.owner.value.pid)
  }

  /** A step of process `p` on connection `c` leaves every other process and connection in shape. */
  lemma {:induction false} ShapeOthers(w: World, w': World, c: Conn, p: Pid)
    requires Shape(w)
    requires |w.links| <= |w'.links| <= |w.links| + 1 && |w.clients| <= |w'.clients|
    requires |w'.links| == |w.links| + 1 ==> c == |w.links|
    requires c < |w.links| ==> w.links[c].pid == p
    requires forall d :: 0 <= d < |w.links| && d != c ==> w'.links[d] == w.links[d]
    requires forall q :: 0 <= q < |w.clients| && q != p ==> w'.clients[q] == w.clients[q]
    requires p < |w.clients| ==> (w.clients[p].joined ==> w'.clients[p].joined)
    requires forall d :: 0 <= d < |w.links| && d != c ==> (HasLock(w'.core, d) <==> HasLock(w.core, d))
    requires SameOwner(w.core, w'.core) || !BlockedBy(w, p)
    ensures forall d :: 0 <= d < |w.links| && d != c ==> LinkShape(w', d)
    ensures forall q :: 0 <= q < |w.clients| && q != p ==> ClientShape(w', q)
  {
    forall d | 0 <= d < |w.links| && d != c
      ensures LinkShape(w', d)
    {
      assert LinkShape(w, d);
    }
    forall q | 0 <= q < |w.clients| && q != p
      ensures ClientShape(w', q)
    {
      assert ClientShape(w, q);
    }
  }

  lemma {:induction false} ShapeBoot(w: World)
    requires Shape(w)
    ensures Shape(w.(clients := w.clients + [Client(true, false, None, 0, Ready, None)]))
  {
    ShapeOthers(w, w.(clients := w.clients + [Client(true, false, None, 0, Ready, None)]), |w.links|, |w.clients|);
  }

  /** Steps of client `p` that touch no connection: dying, raising, starting to dial. */
  lemma {:induction false} ShapeLocal(w: World, p: Pid, cl: Client, nextId: nat)
    requires Shape(w) && IsClient(w, p)
    requires cl.joined == w.clients[p].joined && (cl.alive ==> w.clients[p].alive)
    requires cl.sock.None? || cl.sock == w.clients[p].sock
    requires
      || cl.phase.Ready?
      || (cl.phase.Dialing? && cl.sock.None? && (cl.phase.want.Some? ==> cl.joined))
      || cl == w.clients[p].(alive := cl.alive)
    ensures Shape(SetClient(w, p, cl).(nextId := nextId))
  {
    var w' := SetClient(w, p, cl).(nextId := nextId);
    ShapeOthers(w, w', |w.links|, p);
    assert ClientShape(w, p);
    assert ClientShape(w', p);
  }

  lemma {:induction false} ShapeDial(w: World, p: Pid)
    requires Shape(w) && CanDial(w, p)
    ensures Shape(DoDial(w, p))
  {
    var w' := DoDial(w, p);
    ShapeOthers(w, w', |w.links|, p);
    assert ClientShape(w, p);
    assert ClientShape(w', p) && LinkShape(w', |w.links|);
  }

  lemma {:induction false} ShapeTransmit(w: World, p: Pid, id: nat, num: int, retried: bool, c: Conn)
    requires Shape(w) && IsClient(w, p) && IsLink(w, c)
    requires w.links[c].pid == p && w.links[c].claimed && !w.links[c].thread.Claimed?
    ensures Shape(Transmit(w, p, id, num, retried, c))
  {
    var w' := Transmit(w, p, id, num, retried, c);
    ShapeOthers(w, w', c, p);
    assert LinkShape(w, c) && ClientShape(w, p);
    assert LinkShape(w', c) && ClientShape(w', p);
  }

  lemma {:induction false} ShapeReturns(w: World, r: Receipt)
    requires Shape(w)
    ensures Shape(w.(returned := Push(w.returned, r)))
  {
    var w' := w.(returned := Push(w.returned, r));
    ShapeOthers(w, w', |w.links|, |w.clients|);
  }

  /** The answer to the HELLO has been read. */
  function Heard(w: World, p: Pid): World
    requires CanGreetOk(w, p)
  {
    var c := w.clients[p].phase.conn;
    SetLink(w, c, w.links[c].(outbox := Rest(w.links[c].outbox)))
  }

  lemma {:induction false} ShapeHeard(w: World, p: Pid, cl: Client)
    requires Shape(w) && CanGreetOk(w, p)
    requires
      || cl == w.clients[p].(last := cl.last)
      || cl == w.clients[p].(sock := Some(w.clients[p].phase.conn), last := cl.last, phase := Ready)
    ensures Shape(SetClient(Heard(w, p), p, cl))
    ensures
      var l := Heard(w, p).links[w.clients[p].phase.conn];
      l.pid == p && l.claimed && !l.thread.Claimed?
  {
    var c := w.clients[p].phase.conn;
    assert ClientShape(w, p) && LinkShape(w, c);
    assert w.links[c].outbox[0] in w.links[c].outbox;
    var w' := SetClient(Heard(w, p), p, cl);
    ShapeOthers(w, w', c, p);
    assert ClientShape(w', p) && LinkShape(w', c);
  }

  lemma {:induction false} ShapeGreetOk(w: World, p: Pid)
    requires Shape(w) && CanGreetOk(w, p)
    ensures Shape(DoGreetOk(w, p))
  {
    var cl := w.clients[p];
    var c := cl.phase.conn;
    var n := w.links[c].outbox[0].lastSeq;
    if cl.phase.want.Some? && n >= cl.phase.want.value {
      var cl' := cl.(sock := Some(c), last := cl.phase.want.value, phase := Ready);
      ShapeHeard(w, p, cl');
      ShapeReturns(SetClient(Heard(w, p), p, cl'), Receipt(p, cl.phase.id, cl.phase.want.value));
      assert DoGreetOk(w, p).clients == SetClient(Heard(w, p), p, cl').clients;
    } else {
      ShapeHeard(w, p, cl.(last := n));
      ShapeTransmit(SetClient(Heard(w, p), p, cl.(last := n)), p, cl.phase.id,
                    if cl.phase.want.None? then n + 1 else cl.phase.want.value, cl.phase.want.Some?, c);
    }
  }

  /** A call is over: its reply is read, and the client is idle, with its socket or without. */
  lemma {:induction false} ShapeRead(w: World, p: Pid, cl: Client)
    requires Shape(w) && CanReadReply(w, p) && cl.phase.Ready?
    requires cl.joined == w.clients[p].joined && cl.alive && (cl.sock.None? || cl.sock == w.clients[p].sock)
    ensures
      var c := w.clients[p].phase.conn;
      Shape(SetClient(SetLink(w, c, w.links[c].(outbox := Rest(w.links[c].outbox))), p, cl))
  {
    var c := w.clients[p].phase.conn;
    var w' := SetClient(SetLink(w, c, w.links[c].(outbox := Rest(w.links[c].outbox))), p, cl);
    assert LinkShape(w, c) && ClientShape(w, p);
    ShapeOthers(w, w', c, p);
    assert LinkShape(w', c) && ClientShape(w', p);
  }

  lemma {:induction false} ShapeReadReply(w: World, p: Pid)
    requires Shape(w) && CanReadReply(w, p)
    ensures Shape(DoReadReply(w, p))
  {
    var w' := DoReadReply(w, p);
    var cl, c := w.clients[p], w.clients[p].phase.conn;
    ShapeRead(w, p, w'.clients[p]);
    var w1 := SetClient(SetLink(w, c, w.links[c].(outbox := Rest(w.links[c].outbox))), p, w'.clients[p]);
    if w.links[c].outbox[0].Ack? {
      ShapeReturns(w1, Receipt(p, cl.phase.id, cl.phase.num));
    }
  }

  lemma {:induction false} ShapeSayOk(w: World, c: Conn)
    requires Shape(w) && IsLink(w, c) && w.links[c].thread.Claimed?
    ensures Shape(DoSayOk(w, c))
  {
    var w' := DoSayOk(w, c);
    var p := w.links[c].pid;
    assert LinkShape(w, c) && ClientShape(w, p);
    ShapeOthers(w, w', c, p);
    assert LinkShape(w', c) && ClientShape(w', p);
  }

  lemma {:induction false} ShapeTurnedAway(w: World, c: Conn)
    requires Shape(w) && CanCheck(w, c) && !IsOwner(w.core, c)
    ensures Shape(DoCheck(w, c))
  {
    var w' := DoCheck(w, c);
    var p := w.links[c].pid;
    assert LinkShape(w, c) && ClientShape(w, p);
    ShapeOthers(w, w', c, p);
    assert LinkShape(w', c) && ClientShape(w', p);
  }

  lemma {:induction false} ShapeChecked(w: World, c: Conn)
    requires Shape(w) && CanCheck(w, c) && IsOwner(w.core, c)
    ensures Shape(DoCheck(w, c))
  {
    var w' := DoCheck(w, c);
    var p := w.links[c].pid;
    assert LinkShape(w, c) && ClientShape(w, p);
    ShapeOthers(w, w', c, p);
    assert LinkShape(w', c) && ClientShape(w', p);
  }

  lemma {:induction false} ShapeCheck(w: World, c: Conn)
    requires Shape(w) && CanCheck(w, c)
    ensures Shape(DoCheck(w, c))
  {
    if IsOwner(w.core, c) {
      ShapeChecked(w, c);
    } else {
      ShapeTurnedAway(w, c);
    }
  }

  lemma {:induction false} ShapeSample(w: World, c: Conn)
    requires Shape(w) && CanSample(w, c)
    ensures Shape(DoSample(w, c))
  {
    var w' := DoSample(w, c);
    var p := w.links[c].pid;
    assert LinkShape(w, c) && ClientShape(w, p);
    ShapeOthers(w, w', c, p);
    assert LinkShape(w', c) && ClientShape(w', p);
  }

  lemma {:induction false} ShapeRefuse(w: World, c: Conn, r: Reply)
    requires Shape(w) && CanDecide(w, c)
    ensures Shape(End(w, c, Put(w.links[c], r)))
  {
    var w' := End(w, c, Put(w.links[c], r));
    var p := w.links[c].pid;
    assert LinkShape(w, c) && ClientShape(w, p);
    ShapeOthers(w, w', c, p);
    assert LinkShape(w', c) && ClientShape(w', p);
  }

  lemma {:induction false} ShapeAnswer(w: World, c: Conn, r: Reply)
    requires Shape(w) && CanDecide(w, c)
    ensures Shape(SetLink(w, c, Put(w.links[c], r).(thread := Idle)))
  {
    var w' := SetLink(w, c, Put(w.links[c], r).(thread := Idle));
    var p := w.links[c].pid;
    assert LinkShape(w, c) && ClientShape(w, p);
    ShapeOthers(w, w', c, p);
    assert LinkShape(w', c) && ClientShape(w', p);
  }

  lemma {:induction false} ShapeBegin(w: World, c: Conn)
    requires Shape(w) && CanDecide(w, c) && Judge(w.core, c, w.links[c].thread.sender, w.links[c].thread.frame).Write?
    ensures Shape(DoDecide(w, c))
  {
    var w' := DoDecide(w, c);
    var p := w.links[c].pid;
    assert LinkShape(w, c) && ClientShape(w, p);
    ShapeOthers(w, w', c, p);
    assert LinkShape(w', c) && ClientShape(w', p);
  }

  lemma {:induction false} ShapeDecide(w: World, c: Conn)
    requires Shape(w) && CanDecide(w, c)
    ensures Shape(DoDecide(w, c))
  {
    match Judge(w.core, c, w.links[c].thread.sender, w.links[c].thread.frame)
    case NotOwner => ShapeRefuse(w, c, ErrNotOwner);
    case Duplicate => ShapeAnswer(w, c, Ack(w.links[c].thread.frame.num));
    case Gap(n) => ShapeAnswer(w, c, ErrGap(n));
    case StdinClosed => ShapeAnswer(w, c, ErrStdinClosed);
    case Write => ShapeBegin(w, c);
  }

  lemma {:induction false} ShapeWritten(w: World, c: Conn)
    requires Shape(w) && Holds(w, c, false)
    ensures Shape(DoWritten(w, c))
  {
    var w' := DoWritten(w, c);
    var p := w.links[c].pid;
    assert LinkShape(w, c) && ClientShape(w, p);
    ShapeOthers(w, w', c, p);
    assert LinkShape(w', c) && ClientShape(w', p);
  }

  lemma {:induction false} ShapeWriteFails(w: World, c: Conn)
    requires Shape(w) && Holds(w, c, false)
    ensures Shape(DoWriteFails(w, c))
  {
    var w' := DoWriteFails(w, c);
    var p := w.links[c].pid;
    assert LinkShape(w, c) && ClientShape(w, p);
    ShapeOthers(w, w', c, p);
    assert LinkShape(w', c) && ClientShape(w', p);
  }

  lemma {:induction false} ShapeFinish(w: World, c: Conn)
    requires Shape(w) && CanFinish(w, c)
    ensures Shape(DoFinish(w, c))
  {
    var w' := DoFinish(w, c);
    var p := w.links[c].pid;
    assert LinkShape(w, c) && ClientShape(w, p);
    ShapeOthers(w, w', c, p);
    assert LinkShape(w', c) && ClientShape(w', p);
  }

  lemma {:induction false} ShapeHangup(w: World, c: Conn)
    requires Shape(w) && CanHangup(w, c)
    ensures Shape(End(w, c, w.links[c]))
  {
    var w' := End(w, c, w.links[c]);
    var p := w.links[c].pid;
    assert LinkShape(w, c) && ClientShape(w, p);
    ShapeOthers(w, w', c, p);
    assert LinkShape(w', c) && ClientShape(w', p);
  }

  lemma {:induction false} ShapeCloseStdin(w: World)
    requires Shape(w) && w.core.writer.None?
    ensures Shape(w.(core := CloseStdin(w.core)))
  {
    var w' := w.(core := CloseStdin(w.core));
    ShapeOthers(w, w', |w.links|, |w.clients|);
  }

  lemma {:induction false} ShapeDown(w: World, c: Conn)
    requires Shape(w) && IsLink(w, c)
    ensures Shape(SetLink(w, c, w.links[c].(down := true)))
  {
    var w' := SetLink(w, c, w.links[c].(down := true));
    var p := w.links[c].pid;
    assert LinkShape(w, c) && ClientShape(w, p);
    ShapeOthers(w, w', c, p);
    assert LinkShape(w', c) && ClientShape(w', p);
  }

  lemma {:induction false} ShapeRefused(w: World, c: Conn)
    requires Shape(w) && CanClaim(w, c)
    ensures Shape(SetLink(w, c, Put(w.links[c], Refused).(thread := Ended)))
  {
    var w' := SetLink(w, c, Put(w.links[c], Refused).(thread := Ended));
    var p := w.links[c].pid;
    assert LinkShape(w, c) && ClientShape(w, p);
    ShapeOthers(w, w', c, p);
    assert LinkShape(w', c) && ClientShape(w', p);
  }

  lemma {:induction false} ShapeAccepted(w: World, c: Conn)
    requires Shape(w) && CanClaim(w, c) && !BlockedBy(w, w.links[c].pid)
    ensures Shape(DoClaim(w, c, false))
  {
    var w' := DoClaim(w, c, false);
    var p := w.links[c].pid;
    assert LinkShape(w, c) && ClientShape(w, p);
    ShapeOthers(w, w', c, p);
    assert LinkShape(w', c) && ClientShape(w', p);
  }

  lemma {:induction false} ShapeClaimUncut(w: World, c: Conn)
    requires Shape(w) && CanClaim(w, c)
    ensures Shape(DoClaim(w, c, false))
  {
    if BlockedBy(w, w.links[c].pid) {
      ShapeRefused(w, c);
    } else {
      ShapeAccepted(w, c);
    }
  }

  lemma {:induction false} ShapeClaim(w: World, c: Conn, cut: bool)
    requires Shape(w) && CanClaim(w, c)
    ensures Shape(DoClaim(w, c, cut))
  {
    var k := w.core;
    if cut && k.owner.Some? && k.owner.value.conn.Some? && k.owner.value.conn != Some(c)
       && !BlockedBy(w, w.links[c].pid) {
      var x := k.owner.value.conn.value;
      ShapeDown(w, x);
      ShapeClaimUncut(SetLink(w, x, w.links[x].(down := true)), c);
      assert DoClaim(w, c, cut) == DoClaim(SetLink(w, x, w.links[x].(down := true)), c, false);
    } else {
      ShapeClaimUncut(w, c);
      assert DoClaim(w, c, cut) == DoClaim(w, c, false);
    }
  }

  lemma {:induction false} ShapeStartSend(policy: Policy, w: World, p: Pid)
    requires Shape(w) && CanStartSend(policy, w, p)
    ensures Shape(DoStartSend(w, p))
  {
    assert ClientShape(w, p);
    var cl := w.clients[p];
    if cl.sock.Some? {
      assert LinkShape(w, cl.sock.value);
      ShapeLocal(w, p, cl, w.nextId + 1);
      assert SetClient(w, p, cl).(nextId := w.nextId + 1) == w.(nextId := w.nextId + 1);
      ShapeTransmit(w.(nextId := w.nextId + 1), p, w.nextId, cl.last + 1, false, cl.sock.value);
    } else {
      ShapeLocal(w, p, cl.(phase := Dialing(w.nextId, None)), w.nextId + 1);
    }
  }

  lemma {:induction false} ShapeIoFail(w: World, p: Pid)
    requires Shape(w) && CanIoFail(w, p)
    ensures Shape(DoIoFail(w, p))
  {
    assert ClientShape(w, p) && LinkShape(w, w.clients[p].phase.conn);
    ShapeLocal(w, p, DoIoFail(w, p).clients[p], w.nextId);
  }

  /** The steps of a client, or of the world. */
  predicate ClientEvent(e: Event) {
    || e.Boot? || e.Die? || e.StartSend? || e.Dial? || e.DialFail? || e.GreetOk? || e.GreetFail? || e.ReadReply?
    || e.IoFail? || e.Renew?
  }

  lemma {:induction false} ShapeClientStep(policy: Policy, w: World, e: Event)
    requires Shape(w) && Enabled(policy, w, e) && ClientEvent(e)
    ensures Shape(Apply(policy, w, e))
  {
    match e
    case Boot => ShapeBoot(w);
    case Die(p) => ShapeLocal(w, p, w.clients[p].(alive := false), w.nextId);
    case StartSend(p) => ShapeStartSend(policy, w, p);
    case Dial(p) => ShapeDial(w, p);
    case DialFail(p) => ShapeLocal(w, p, DoDialFail(w, p).clients[p], w.nextId);
    case GreetOk(p) => ShapeGreetOk(w, p);
    case GreetFail(p) => ShapeLocal(w, p, DoGreetFail(w, p).clients[p], w.nextId);
    case ReadReply(p) => ShapeReadReply(w, p);
    case IoFail(p) => ShapeIoFail(w, p);
    case Renew(p) => ShapeLocal(w, p, DoRenew(w, p).clients[p], w.nextId);
  }

  lemma {:induction false} ShapeStep(policy: Policy, w: World, e: Event)
    requires Shape(w) && Enabled(policy, w, e)
    ensures Shape(Apply(policy, w, e))
  {
    match e
    case ClaimHello(c, cut) => ShapeClaim(w, c, cut);
    case SayOk(c) => ShapeSayOk(w, c);
    case Check(c) => ShapeCheck(w, c);
    case Sample(c) => ShapeSample(w, c);
    case Decide(c) => ShapeDecide(w, c);
    case Written(c) => ShapeWritten(w, c);
    case WriteFails(c) => ShapeWriteFails(w, c);
    case Finish(c) => ShapeFinish(w, c);
    case Hangup(c) => ShapeHangup(w, c);
    case CloseStdinNow => ShapeCloseStdin(w);
    case _ => ShapeClientStep(policy, w, e);
  }
}
