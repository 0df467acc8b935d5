/**
 What the protocol gets done, next to what it prevents: an undisturbed call returns, a
 retry recovers the call whose answer or payload was lost, a number that is ahead heals,
 and a closed input stays closed.
 */
module ShimProgress {
  import opened Wrappers
  import opened ShimCore
  import opened ShimProtocol
  import opened ShimTakeover

  lemma {:induction false} RunAppend(policy: Policy, w: World, a: seq<Event>, b: seq<Event>)
    requires Run(policy, w, a).Some?
    ensures Run(policy, w, a + b) == Run(policy, Run(policy, w, a).value, b)
    decreases |a|
  {
    if a == [] {
      assert a + b == b;
    } else {
      assert (a + b)[1..] == a[1..] + b;
      RunAppend(policy, Apply(policy, w, a[0]), a[1..], b);
    }
  }

  /** Nothing else is under way on the connection through which `p` owns the shim. */
  predicate Clear(w: World, p: Pid, c: Conn, inbox: seq<Frame>) {
    && Alive(w, p) && w.clients[p].sock == Some(c)
    && IsLink(w, c) && w.links[c] == Link(p, Idle, true, inbox, [], false)
    && w.core.owner == Some(Owner(p, Some(c)))
    && w.core.writer.None? && !w.core.stdinClosed
  }

  /** The payload of call `id` of `p` is on its way under the next number. */
  predicate Sent(w: World, p: Pid, c: Conn, id: nat, retried: bool) {
    var n := w.core.lastSeq + 1;
    Clear(w, p, c, [Frame(n, id)]) && w.clients[p].phase == Sending(id, n, retried, c)
  }

  /** `p` is between two calls and knows the shim's number. */
  predicate Quiet(policy: Policy, w: World, p: Pid, c: Conn) {
    && Clear(w, p, c, [])
    && w.clients[p].phase.Ready? && w.clients[p].last == w.core.lastSeq && GoesOn(policy, w.clients[p])
  }

  /** What a call leaves behind: its payload at the end of the CLI's input, under the next number, and a receipt. */
  predicate Landed(w: World, w': World, p: Pid, c: Conn, id: nat) {
    var n := w.core.lastSeq + 1;
    && Clear(w', p, c, [])
    && w'.core.lastSeq == n
    && w'.core.log == w.core.log + [Entry(p, Frame(n, id))]
    && w'.core.numbered == w.core.numbered + [Entry(p, Frame(n, id))]
    && w'.returned == w.returned + [Receipt(p, id, n)]
    && IsClient(w, p) && w'.clients[p] == w.clients[p].(last := n, phase := Ready, sock := Some(c))
  }

  /** `w` with the connection and the shim as given. */
  function At(w: World, c: Conn, l: Link, k: Core): World
    requires IsLink(w, c)
  {
    w.(core := k, links := w.links[c := l])
  }

  lemma {:induction false} ArrivesAtLock(policy: Policy, w: World, p: Pid, c: Conn, f: Frame)
    requires Clear(w, p, c, [f])
    ensures Run(policy, w, [Check(c)] + [Sample(c)]) ==
      Some(At(w, c, Link(p, Sampled(f, Some(p)), true, [], [], false), w.core))
  {
    var w1 := At(w, c, Link(p, Checked(f), true, [], [], false), w.core);
    assert Apply(policy, w, Check(c)) == w1;
    var w2 := At(w, c, Link(p, Sampled(f, Some(p)), true, [], [], false), w.core);
    assert Apply(policy, w1, Sample(c)) == w2;
    ThenRun(policy, w, Check(c), [Sample(c)]);
    ThenRun(policy, w1, Sample(c), []);
    assert [Sample(c)] + [] == [Sample(c)];
  }

  lemma {:induction false} TakenIsWritten(policy: Policy, w: World, p: Pid, c: Conn, id: nat, retried: bool)
    requires Sent(w, p, c, id, retried)
    ensures
      var n := w.core.lastSeq + 1;
      var f := Frame(n, id);
      var k := w.core.(lastSeq := n, log := w.core.log + [Entry(p, f)], numbered := w.core.numbered + [Entry(p, f)]);
      Run(policy, At(w, c, Link(p, Sampled(f, Some(p)), true, [], [], false), w.core),
          [Decide(c)] + ([Written(c)] + [Finish(c)])) == Some(At(w, c, Link(p, Idle, true, [], [Ack(n)], false), k))
  {
    var n := w.core.lastSeq + 1;
    var f := Frame(n, id);
    var held := Link(p, InLock, true, [], [], false);
    var w3 := At(w, c, Link(p, Sampled(f, Some(p)), true, [], [], false), w.core);
    var w4 := At(w, c, held, w.core.(writer := Some(Writer(c, f, p, false))));
    assert Apply(policy, w3, Decide(c)) == w4;
    var w5 := At(w, c, held, w.core.(writer := Some(Writer(c, f, p, true)), log := w.core.log + [Entry(p, f)]));
    assert Apply(policy, w4, Written(c)) == w5;
    var k := w.core.(lastSeq := n, log := w.core.log + [Entry(p, f)], numbered := w.core.numbered + [Entry(p, f)]);
    var w6 := At(w, c, Link(p, Idle, true, [], [Ack(n)], false), k);
    assert Apply(policy, w5, Finish(c)) == w6;
    ThenRun(policy, w3, Decide(c), [Written(c)] + [Finish(c)]);
    ThenRun(policy, w4, Written(c), [Finish(c)]);
    ThenRun(policy, w5, Finish(c), []);
    assert [Finish(c)] + [] == [Finish(c)];
  }

  /** From a payload on its way to the return of its call. */
  function Delivery(p: Pid, c: Conn): seq<Event> {
    ([Check(c)] + [Sample(c)]) + (([Decide(c)] + ([Written(c)] + [Finish(c)])) + [ReadReply(p)])
  }

  lemma {:induction false} SentReturns(policy: Policy, w: World, p: Pid, c: Conn, id: nat, retried: bool)
    requires Sent(w, p, c, id, retried)
    ensures
      var r := Run(policy, w, Delivery(p, c));
      r.Some? && Landed(w, r.value, p, c, id)
  {
    var n := w.core.lastSeq + 1;
    var f := Frame(n, id);
    var k := w.core.(lastSeq := n, log := w.core.log + [Entry(p, f)], numbered := w.core.numbered + [Entry(p, f)]);
    var w2 := At(w, c, Link(p, Sampled(f, Some(p)), true, [], [], false), w.core);
    var w6 := At(w, c, Link(p, Idle, true, [], [Ack(n)], false), k);
    ArrivesAtLock(policy, w, p, c, f);
    TakenIsWritten(policy, w, p, c, id, retried);
    RunAppend(policy, w, [Check(c)] + [Sample(c)], ([Decide(c)] + ([Written(c)] + [Finish(c)])) + [ReadReply(p)]);
    RunAppend(policy, w2, [Decide(c)] + ([Written(c)] + [Finish(c)]), [ReadReply(p)]);
    ThenRun(policy, w6, ReadReply(p), []);
    assert [ReadReply(p)] + [] == [ReadReply(p)];
  }

  /**
   Progress: a call that nothing disturbs returns with the next number, its payload stands
   at the end of the CLI's input, and everything is quiet again for the next one.
   */
  lemma {:induction false} UndisturbedCallReturns(policy: Policy, w: World, p: Pid, c: Conn)
    requires Quiet(policy, w, p, c)
    ensures
      var r := Run(policy, w, [StartSend(p)] + Delivery(p, c));
      r.Some? && Landed(w, r.value, p, c, w.nextId) && Quiet(policy, r.value, p, c)
  {
    ThenRun(policy, w, StartSend(p), Delivery(p, c));
    var w1 := Apply(policy, w, StartSend(p));
    assert w1.links[c] == Link(p, Idle, true, [Frame(w.core.lastSeq + 1, w.nextId)], [], false);
    SentReturns(policy, w1, p, c, w.nextId, false);
  }

  /**
   A call whose number is ahead of the shim's is refused without a write and without a
   doubt, and leaves the client with the shim's number: its next call can be a quiet one.
   */
  lemma {:induction false} GapHeals(policy: Policy, w: World, p: Pid, c: Conn, id: nat, num: int, retried: bool)
    requires Clear(w, p, c, [Frame(num, id)]) && w.clients[p].phase == Sending(id, num, retried, c)
    requires num > w.core.lastSeq + 1
    ensures
      var r := Run(policy, w, ([Check(c)] + [Sample(c)]) + ([Decide(c)] + [ReadReply(p)]));
      && r.Some? && Clear(r.value, p, c, []) && r.value.core == w.core && r.value.returned == w.returned
      && r.value.clients[p] == w.clients[p].(last := w.core.lastSeq, phase := Ready)
  {
    var f := Frame(num, id);
    ArrivesAtLock(policy, w, p, c, f);
    var w2 := At(w, c, Link(p, Sampled(f, Some(p)), true, [], [], false), w.core);
    var w3 := At(w, c, Link(p, Idle, true, [], [ErrGap(w.core.lastSeq + 1)], false), w.core);
    assert Apply(policy, w2, Decide(c)) == w3;
    RunAppend(policy, w, [Check(c)] + [Sample(c)], [Decide(c)] + [ReadReply(p)]);
    ThenRun(policy, w2, Decide(c), [ReadReply(p)]);
    ThenRun(policy, w3, ReadReply(p), []);
    assert [ReadReply(p)] + [] == [ReadReply(p)];
  }

  /**
   A call that is told why it was not written raises without a doubt: closed stdin and a
   gap at any attempt, a displacement at the first. Only the last drops the connection.
   */
  lemma {:induction false} RefusalsLeaveNoDoubt(w: World, p: Pid)
    requires CanReadReply(w, p)
    requires
      var r := w.links[w.clients[p].phase.conn].outbox[0];
      r.ErrStdinClosed? || r.ErrGap? || (r.ErrNotOwner? && !w.clients[p].phase.retried)
    ensures
      var r := w.links[w.clients[p].phase.conn].outbox[0];
      var cl := DoReadReply(w, p).clients[p];
      && cl.phase.Ready? && cl.doubt == w.clients[p].doubt
      && cl.sock == (if r.ErrNotOwner? then None else w.clients[p].sock)
      && DoReadReply(w, p).returned == w.returned && DoReadReply(w, p).core == w.core
  {
  }

  /** The connection failed while the owner's call waited for its answer; no write is under way any more. */
  predicate Dropped(w: World, p: Pid) {
    && Alive(w, p) && w.clients[p].phase.Sending? && !w.clients[p].phase.retried
    && OwnedBy(w.core, p) && w.core.writer.None? && !w.core.stdinClosed
    && (w.core.owner.value.conn.Some? ==> IsLink(w, w.core.owner.value.conn.value))
  }

  /** The retry: a new connection, and the answer to its HELLO. */
  function Reconnect(p: Pid, c: Conn, cut: bool): seq<Event> {
    ([IoFail(p)] + ([Dial(p)] + [ClaimHello(c, cut)])) + ([SayOk(c)] + [GreetOk(p)])
  }

  /** The retry up to the accepted HELLO. */
  lemma {:induction false} RetryJoins(policy: Policy, w: World, p: Pid, cut: bool)
    requires Dropped(w, p)
    ensures
      var c := |w.links|;
      var r := Run(policy, w, [IoFail(p)] + ([Dial(p)] + [ClaimHello(c, cut)]));
      && r.Some? && Alive(r.value, p) && IsLink(r.value, c)
      && r.value.core == w.core.(owner := Some(Owner(p, Some(c))))
      && r.value.links[c] == Link(p, Claimed, true, [], [], false)
      && r.value.clients[p] == w.clients[p].(sock := None, joined := true,
           phase := Greeting(c, w.clients[p].phase.id, Some(w.clients[p].phase.num)))
      && r.value.returned == w.returned
  {
    var c := |w.links|;
    var w1 := Apply(policy, w, IoFail(p));
    var w2 := Apply(policy, w1, Dial(p));
    assert w2.links[c] == Link(p, AwaitHello, false, [], [], false) && w2.core == w.core;
    ThenRun(policy, w, IoFail(p), [Dial(p)] + [ClaimHello(c, cut)]);
    ThenRun(policy, w1, Dial(p), [ClaimHello(c, cut)]);
    ThenRun(policy, w2, ClaimHello(c, cut), []);
    assert [ClaimHello(c, cut)] + [] == [ClaimHello(c, cut)];
  }

  lemma {:induction false} RetryHears(policy: Policy, w: World, p: Pid, cut: bool)
    requires Dropped(w, p) && w.clients[p].phase.num <= w.core.lastSeq + 1
    ensures
      var c := |w.links|;
      var id, num := w.clients[p].phase.id, w.clients[p].phase.num;
      var r := Run(policy, w, Reconnect(p, c, cut));
      && r.Some? && r.value.core == w.core.(owner := Some(Owner(p, Some(c))))
      && (num <= w.core.lastSeq ==>
            Clear(r.value, p, c, []) && r.value.clients[p].phase.Ready?
            && r.value.returned == w.returned + [Receipt(p, id, num)])
      && (num > w.core.lastSeq ==> Sent(r.value, p, c, id, true) && r.value.returned == w.returned)
  {
    var c := |w.links|;
    RetryJoins(policy, w, p, cut);
    var a := [IoFail(p)] + ([Dial(p)] + [ClaimHello(c, cut)]);
    var w3 := Run(policy, w, a).value;
    RunAppend(policy, w, a, [SayOk(c)] + [GreetOk(p)]);
    var w4 := Apply(policy, w3, SayOk(c));
    assert w4.links[c] == Link(p, Idle, true, [], [Ok(w.core.lastSeq)], false);
    ThenRun(policy, w3, SayOk(c), [GreetOk(p)]);
    ThenRun(policy, w4, GreetOk(p), []);
    assert [GreetOk(p)] + [] == [GreetOk(p)];
  }

  /**
   The retry recovers: a call whose answer was lost returns with its number and without a
   second write, and one whose payload was lost has it written once and returns.
   */
  lemma {:induction false} RetryReturns(policy: Policy, w: World, p: Pid, cut: bool)
    requires Dropped(w, p) && w.clients[p].phase.num <= w.core.lastSeq + 1
    ensures
      var c := |w.links|;
      var id, num := w.clients[p].phase.id, w.clients[p].phase.num;
      var landed := num <= w.core.lastSeq;
      var r := Run(policy, w, Reconnect(p, c, cut) + if landed then [] else Delivery(p, c));
      && r.Some? && r.value.returned == w.returned + [Receipt(p, id, num)]
      && r.value.core.log == w.core.log + (if landed then [] else [Entry(p, Frame(num, id))])
      && r.value.core.owner == Some(Owner(p, Some(c)))
  {
    var c := |w.links|;
    var rest := if w.clients[p].phase.num <= w.core.lastSeq then [] else Delivery(p, c);
    RetryHears(policy, w, p, cut);
    RunAppend(policy, w, Reconnect(p, c, cut), rest);
    if w.clients[p].phase.num > w.core.lastSeq {
      SentReturns(policy, Run(policy, w, Reconnect(p, c, cut)).value, p, c, w.clients[p].phase.id, true);
    }
  }

  /** The CLI's input is closed and no write is under way. */
  predicate Shut(k: Core) {
    k.stdinClosed && k.writer.None?
  }

  lemma {:induction false} ShutStep(policy: Policy, w: World, e: Event)
    requires Enabled(policy, w, e) && Shut(w.core)
    ensures Shut(Apply(policy, w, e).core)
    ensures
      var k := Apply(policy, w, e).core;
      k.log == w.core.log && k.numbered == w.core.numbered && k.lastSeq == w.core.lastSeq
  {
    if e.Decide? {
      assert Judge(w.core, e.c, w.links[e.c].thread.sender, w.links[e.c].thread.frame) != Write;
    }
  }

  /** Once closed, by the finalize thread or by a write that failed, the CLI's input gets nothing more. */
  lemma {:induction false} NothingAfterClose(policy: Policy, w: World, es: seq<Event>)
    requires Shut(w.core) && Run(policy, w, es).Some?
    ensures
      var k := Run(policy, w, es).value.core;
      Shut(k) && k.log == w.core.log && k.numbered == w.core.numbered && k.lastSeq == w.core.lastSeq
    decreases |es|
  {
    if es != [] {
      ShutStep(policy, w, es[0]);
      NothingAfterClose(policy, Apply(policy, w, es[0]), es[1..]);
    }
  }

  /** Both ways to close it do: the log is what it was and stays so over any run. */
  lemma {:induction false} CloseIsFinal(policy: Policy, w: World, e: Event, es: seq<Event>)
    requires Enabled(policy, w, e) && (e.CloseStdinNow? || e.WriteFails?)
    requires Run(policy, w, [e] + es).Some?
    ensures
      var k := Run(policy, w, [e] + es).value.core;
      Shut(k) && k.log == w.core.log && k.numbered == w.core.numbered && k.lastSeq == w.core.lastSeq
  {
    ThenRun(policy, w, e, es);
    NothingAfterClose(policy, Apply(policy, w, e), es);
  }
}
