/**
 Takeover safety over whole runs, whatever the clients do after an error: what a
 connection is told once its HELLO was answered is about payloads of its own
 process, however often the shim changed hands before, meanwhile or afterwards.
 */
module ShimTakeover {
  import opened Wrappers
  import opened ShimCore
  import opened ShimProtocol
  import opened ShimShape
  import opened ShimOrder

  /** The numbers after `n` belong to payloads of `p`. */
  ghost predicate OwnFrom(k: Core, n: nat, p: Pid) {
    forall i :: n <= i < |k.numbered| ==> k.numbered[i].pid == p
  }

  /** Number `num` was given to a payload of `p`. */
  predicate TakenBy(k: Core, num: int, p: Pid) {
    1 <= num <= |k.numbered| && k.numbered[num - 1].pid == p
  }

  /** This reply claims no number above `n` but for a payload of `p`. */
  predicate Truthful(k: Core, r: Reply, n: nat, p: Pid) {
    r.Ack? && r.num > n ==> TakenBy(k, r.num, p)
  }

  ghost predicate AllTruthful(k: Core, rs: seq<Reply>, n: nat, p: Pid) {
    forall r :: r in rs ==> Truthful(k, r, n, p)
  }

  /** Connection `c`, once accepted: while it is the owner, the numbers after `n` go to its process. */
  ghost predicate Accepted(w: World, c: Conn, n: nat) {
    && IsLink(w, c) && w.links[c].claimed && n <= w.core.lastSeq
    && (IsOwner(w.core, c) ==> OwnFrom(w.core, n, w.links[c].pid))
  }

  /** Numbers are given out by the end of a write of the present owner's process, one at a time, and by nothing else. */
  ghost predicate Grows(k: Core, k': Core) {
    (k'.numbered == k.numbered && k'.lastSeq == k.lastSeq)
    || (k.owner.Some? && k.writer.Some? && k.writer.value.sender == k.owner.value.pid
        && k'.numbered == k.numbered + [Entry(k.owner.value.pid, k.writer.value.frame)]
        && k'.lastSeq == k.writer.value.frame.num)
  }

  /** A step seen from connection `c`: it stays the process's own, and does not become the owner's again. */
  ghost predicate Seen(w: World, w': World, c: Conn)
    requires IsLink(w, c)
  {
    && IsLink(w', c) && w'.links[c].pid == w.links[c].pid
    && w'.links[c].claimed
    && (IsOwner(w'.core, c) ==> IsOwner(w.core, c))
    && Grows(w.core, w'.core)
  }

  lemma {:induction false} ClientSeen(policy: Policy, w: World, e: Event, c: Conn)
    requires Shape(w) && Enabled(policy, w, e) && IsLink(w, c)
    requires w.links[c].claimed
    requires ClientEvent(e)
    ensures Seen(w, Apply(policy, w, e), c) && Apply(policy, w, e).core == w.core
    ensures forall r :: r in Apply(policy, w, e).links[c].outbox ==> r in w.links[c].outbox
  {
    if e.GreetOk? {
      GreetSeen(w, e.p, c);
    } else if e.ReadReply? {
      ReadSeen(w, e.p, c);
    }
  }

  lemma {:induction false} GreetSeen(w: World, p: Pid, c: Conn)
    requires Shape(w) && CanGreetOk(w, p) && IsLink(w, c) && w.links[c].claimed
    ensures Seen(w, DoGreetOk(w, p), c) && DoGreetOk(w, p).core == w.core
    ensures forall r :: r in DoGreetOk(w, p).links[c].outbox ==> r in w.links[c].outbox
  {
  }

  lemma {:induction false} ReadSeen(w: World, p: Pid, c: Conn)
    requires Shape(w) && CanReadReply(w, p) && IsLink(w, c) && w.links[c].claimed
    ensures Seen(w, DoReadReply(w, p), c) && DoReadReply(w, p).core == w.core
    ensures forall r :: r in DoReadReply(w, p).links[c].outbox ==> r in w.links[c].outbox
  {
  }

  lemma {:induction false} WorldSeen(policy: Policy, w: World, e: Event, c: Conn)
    requires Shape(w) && Enabled(policy, w, e) && IsLink(w, c)
    requires w.links[c].claimed
    requires e.ClaimHello? || e.CloseStdinNow? || e.Written?
    ensures Seen(w, Apply(policy, w, e), c)
    ensures Apply(policy, w, e).links[c].outbox == w.links[c].outbox
    ensures Apply(policy, w, e).core.numbered == w.core.numbered
  {
    assert LinkShape(w, c);
  }

  lemma {:induction false} ThreadSeen(policy: Policy, w: World, e: Event, c: Conn)
    requires Shape(w) && Enabled(policy, w, e) && IsLink(w, c)
    requires w.links[c].claimed
    requires e.SayOk? || e.Check? || e.Sample?
    ensures Seen(w, Apply(policy, w, e), c)
    ensures Apply(policy, w, e).core.numbered == w.core.numbered
    ensures forall r :: r in Apply(policy, w, e).links[c].outbox ==> r in w.links[c].outbox || !r.Ack?
  {
  }

  lemma {:induction false} EndSeen(policy: Policy, w: World, e: Event, c: Conn)
    requires Shape(w) && Enabled(policy, w, e) && IsLink(w, c)
    requires w.links[c].claimed
    requires e.WriteFails? || e.Hangup?
    ensures Seen(w, Apply(policy, w, e), c)
    ensures Apply(policy, w, e).core.numbered == w.core.numbered
    ensures forall r :: r in Apply(policy, w, e).links[c].outbox ==> r in w.links[c].outbox || !r.Ack?
  {
  }

  lemma {:induction false} DecideSeen(w: World, d: Conn, c: Conn)
    requires Shape(w) && CanDecide(w, d) && IsLink(w, c)
    requires w.links[c].claimed
    ensures Seen(w, DoDecide(w, d), c)
    ensures DoDecide(w, d).core.numbered == w.core.numbered
    ensures forall r :: r in DoDecide(w, d).links[c].outbox ==>
      r in w.links[c].outbox || !r.Ack? || (IsOwner(w.core, c) && r.num <= w.core.lastSeq)
  {
  }

  lemma {:induction false} FinishSeen(w: World, d: Conn, c: Conn)
    requires Shape(w) && CanFinish(w, d) && IsLink(w, c)
    requires w.links[c].claimed
    ensures Seen(w, DoFinish(w, d), c)
    ensures forall r :: r in DoFinish(w, d).links[c].outbox ==>
      r in w.links[c].outbox || !r.Ack? || TakenBy(DoFinish(w, d).core, r.num, w.links[c].pid)
  {
    assert LinkShape(w, d);
  }

  lemma {:induction false} StepSeen(policy: Policy, w: World, e: Event, c: Conn)
    requires Shape(w) && Enabled(policy, w, e) && IsLink(w, c) && w.links[c].claimed
    ensures Seen(w, Apply(policy, w, e), c)
    ensures forall r :: r in Apply(policy, w, e).links[c].outbox ==>
      || r in w.links[c].outbox || !r.Ack?
      || (IsOwner(w.core, c) && r.num <= w.core.lastSeq)
      || TakenBy(Apply(policy, w, e).core, r.num, w.links[c].pid)
  {
    if e.Decide? {
      DecideSeen(w, e.c, c);
    } else if e.Finish? {
      FinishSeen(w, e.c, c);
    } else if e.ClaimHello? || e.CloseStdinNow? || e.Written? {
      WorldSeen(policy, w, e, c);
    } else if e.SayOk? || e.Check? || e.Sample? {
      ThreadSeen(policy, w, e, c);
    } else if e.WriteFails? || e.Hangup? {
      EndSeen(policy, w, e, c);
    } else {
      ClientSeen(policy, w, e, c);
    }
  }

  lemma {:induction false} AcceptedStep(policy: Policy, w: World, e: Event, c: Conn, n: nat)
    requires Shape(w) && Enabled(policy, w, e) && Accepted(w, c, n)
    ensures Accepted(Apply(policy, w, e), c, n)
  {
    StepSeen(policy, w, e, c);
  }

  lemma {:induction false} AcceptedRun(policy: Policy, w: World, es: seq<Event>, c: Conn, n: nat)
    requires Shape(w) && Accepted(w, c, n) && Run(policy, w, es).Some?
    ensures Accepted(Run(policy, w, es).value, c, n)
    ensures Run(policy, w, es).value.links[c].pid == w.links[c].pid && Shape(Run(policy, w, es).value)
    decreases |es|
  {
    if es != [] {
      ShapeStep(policy, w, es[0]);
      StepSeen(policy, w, es[0], c);
      AcceptedStep(policy, w, es[0], c, n);
      AcceptedRun(policy, Apply(policy, w, es[0]), es[1..], c, n);
    }
  }

  /**
   A connection that owns the shim now and later has owned it all the time, and
   whatever happened in between, every number given out went to a payload of its process.
   */
  lemma {:induction false} OwnerTakesNumbers(policy: Policy, owned: bool, before: seq<Event>, es: seq<Event>, c: Conn)
    requires Run(policy, Start(owned), before).Some?
    requires
      var w := Run(policy, Start(owned), before).value;
      IsOwner(w.core, c) && Run(policy, w, es).Some? && IsOwner(Run(policy, w, es).value.core, c)
    ensures
      var w := Run(policy, Start(owned), before).value;
      var w' := Run(policy, w, es).value;
      IsLink(w, c) && |w.core.numbered| <= |w'.core.numbered| && OwnFrom(w'.core, |w.core.numbered|, w.links[c].pid)
  {
    var w := Run(policy, Start(owned), before).value;
    ShapeStart(owned);
    OrderRun(policy, Start(owned), before);
    AcceptedRun(policy, w, es, c, w.core.lastSeq);
  }

  /** What was said stays true: numbers are only added. */
  lemma {:induction false} StaysTruthful(k: Core, k': Core, rs: seq<Reply>, rs': seq<Reply>, n: nat, p: Pid)
    requires AllTruthful(k, rs, n, p) && Grows(k, k')
    requires forall r :: r in rs' ==> r in rs || Truthful(k', r, n, p)
    ensures AllTruthful(k', rs', n, p)
  {
    forall r | r in rs'
      ensures Truthful(k', r, n, p)
    {
      assert r in rs ==> Truthful(k, r, n, p);
    }
  }

  lemma {:induction false} TruthfulStep(policy: Policy, w: World, e: Event, c: Conn, n: nat)
    requires Shape(w) && Enabled(policy, w, e) && Accepted(w, c, n)
    requires AllTruthful(w.core, w.links[c].outbox, n, w.links[c].pid)
    ensures
      var w' := Apply(policy, w, e);
      IsLink(w', c) && AllTruthful(w'.core, w'.links[c].outbox, n, w.links[c].pid)
  {
    var w' := Apply(policy, w, e);
    var p := w.links[c].pid;
    StepSeen(policy, w, e, c);
    forall r | r in w'.links[c].outbox
      ensures r in w.links[c].outbox || Truthful(w'.core, r, n, p)
    {
      if r.Ack? && IsOwner(w.core, c) && n < r.num <= w.core.lastSeq {
        assert TakenBy(w.core, r.num, p);
      }
    }
    StaysTruthful(w.core, w'.core, w.links[c].outbox, w'.links[c].outbox, n, p);
  }

  lemma {:induction false} TruthfulRun(policy: Policy, w: World, es: seq<Event>, c: Conn, n: nat)
    requires Shape(w) && Accepted(w, c, n) && Run(policy, w, es).Some?
    requires AllTruthful(w.core, w.links[c].outbox, n, w.links[c].pid)
    ensures
      var w' := Run(policy, w, es).value;
      IsLink(w', c) && AllTruthful(w'.core, w'.links[c].outbox, n, w.links[c].pid)
    decreases |es|
  {
    if es != [] {
      ShapeStep(policy, w, es[0]);
      StepSeen(policy, w, es[0], c);
      AcceptedStep(policy, w, es[0], c, n);
      TruthfulStep(policy, w, es[0], c, n);
      TruthfulRun(policy, Apply(policy, w, es[0]), es[1..], c, n);
    }
  }

  /**
   A connection whose HELLO is answered with `n` never gets an ACK for a number
   above `n` that was not given to a payload of its own process.
   */
  lemma {:induction false} AcksAreOwn(policy: Policy, owned: bool, before: seq<Event>, es: seq<Event>, c: Conn, m: int)
    requires Run(policy, Start(owned), before).Some?
    requires
      var w := Run(policy, Start(owned), before).value;
      IsLink(w, c) && w.links[c].thread.Claimed? && Run(policy, DoSayOk(w, c), es).Some?
    ensures
      var w := Run(policy, Start(owned), before).value;
      var w' := Run(policy, DoSayOk(w, c), es).value;
      IsLink(w', c) && (Ack(m) in w'.links[c].outbox && m > w.core.lastSeq ==> TakenBy(w'.core, m, w.links[c].pid))
  {
    var w := Run(policy, Start(owned), before).value;
    ShapeStart(owned);
    OrderRun(policy, Start(owned), before);
    assert LinkShape(w, c);
    ShapeSayOk(w, c);
    TruthfulRun(policy, DoSayOk(w, c), es, c, w.core.lastSeq);
    if Ack(m) in Run(policy, DoSayOk(w, c), es).value.links[c].outbox && m > w.core.lastSeq {
      assert Truthful(Run(policy, DoSayOk(w, c), es).value.core, Ack(m), w.core.lastSeq, w.links[c].pid);
    }
  }

  // ----- who gets the shim ----------------------------------------------------------------------

  /** Some other process that is alive owns the shim. */
  predicate HeldByOther(w: World, p: Pid) {
    w.core.owner.Some? && w.core.owner.value.pid != p && Alive(w, w.core.owner.value.pid)
  }

  /** The claimant owns the shim, and the connection that did is shut down if that call succeeds. */
  ghost predicate Installed(w: World, w': World, c: Conn, cut: bool)
    requires IsLink(w, c)
  {
    && |w'.links| == |w.links|
    && w'.core == w.core.(owner := Some(Owner(w.links[c].pid, Some(c))))
    && w'.links[c] == w.links[c].(thread := Claimed, claimed := true)
    && (forall d :: 0 <= d < |w.links| && d != c ==>
          w'.links[d] == w.links[d].(down := w.links[d].down || (cut && IsOwner(w.core, d))))
  }

  /** The claimant is told so, and nothing else happens. */
  ghost predicate TurnedDown(w: World, w': World, c: Conn)
    requires IsLink(w, c)
  {
    && w'.core == w.core && w'.clients == w.clients
    && w'.links == w.links[c := w.links[c].(
         thread := Ended, outbox := w.links[c].outbox + if w.links[c].down then [] else [Refused])]
  }

  lemma {:induction false} ClaimRefused(w: World, c: Conn, cut: bool)
    requires Shape(w) && CanClaim(w, c) && HeldByOther(w, w.links[c].pid)
    ensures TurnedDown(w, DoClaim(w, c, cut), c)
  {
    assert LinkShape(w, c);
    assert w.links[c].outbox == [] && w.links[c].outbox + [] == [];
  }

  lemma {:induction false} ClaimGranted(w: World, c: Conn, cut: bool)
    requires Shape(w) && CanClaim(w, c) && !HeldByOther(w, w.links[c].pid)
    ensures Installed(w, DoClaim(w, c, cut), c, cut)
  {
    assert LinkShape(w, c);
  }

  /**
   In every reachable world: a HELLO makes its connection the owner exactly if no other
   process that is alive owns the shim, so a dead owner is displaced and a process may
   reconnect; otherwise it is refused and changes nothing else.
   */
  lemma {:induction false} ClaimExact(policy: Policy, owned: bool, es: seq<Event>, c: Conn, cut: bool)
    requires Run(policy, Start(owned), es).Some?
    requires CanClaim(Run(policy, Start(owned), es).value, c)
    ensures
      var w := Run(policy, Start(owned), es).value;
      var w' := Apply(policy, w, ClaimHello(c, cut));
      if HeldByOther(w, w.links[c].pid) then TurnedDown(w, w', c) else Installed(w, w', c, cut)
  {
    var w := Run(policy, Start(owned), es).value;
    ShapeStart(owned);
    OrderRun(policy, Start(owned), es);
    if HeldByOther(w, w.links[c].pid) {
      ClaimRefused(w, c, cut);
    } else {
      ClaimGranted(w, c, cut);
    }
  }

  /** A run that begins with `e` goes on from the world after it. */
  lemma {:induction false} ThenRun(policy: Policy, w: World, e: Event, rest: seq<Event>)
    requires Enabled(policy, w, e)
    ensures Run(policy, w, [e] + rest) == Run(policy, Apply(policy, w, e), rest)
  {
    assert ([e] + rest)[1..] == rest;
  }

  /** A process that dials while no other live process owns the shim gets it. */
  lemma {:induction false} DialsIn(policy: Policy, w: World, p: Pid, cut: bool)
    requires CanDial(w, p) && !HeldByOther(w, p)
    requires w.core.owner.Some? && w.core.owner.value.conn.Some? ==> IsLink(w, w.core.owner.value.conn.value)
    ensures
      var r := Run(policy, w, [Dial(p)] + [ClaimHello(|w.links|, cut)]);
      r.Some? && r.value.core == w.core.(owner := Some(Owner(p, Some(|w.links|))))
  {
    var c := |w.links|;
    var w1 := Apply(policy, w, Dial(p));
    assert w1.links[c] == Link(p, AwaitHello, false, [], [], false) && w1.core == w.core;
    assert !HeldByOther(w1, p);
    ThenRun(policy, w, Dial(p), [ClaimHello(c, cut)]);
    ThenRun(policy, w1, ClaimHello(c, cut), []);
    assert [ClaimHello(c, cut)] + [] == [ClaimHello(c, cut)];
  }

  /** The same for a process that has no connection yet and starts a call. */
  lemma {:induction false} StartsIn(policy: Policy, w: World, p: Pid, cut: bool)
    requires CanStartSend(policy, w, p) && w.clients[p].sock.None? && !HeldByOther(w, p)
    requires w.core.owner.Some? && w.core.owner.value.conn.Some? ==> IsLink(w, w.core.owner.value.conn.value)
    ensures
      var r := Run(policy, w, [StartSend(p)] + ([Dial(p)] + [ClaimHello(|w.links|, cut)]));
      r.Some? && r.value.core == w.core.(owner := Some(Owner(p, Some(|w.links|))))
  {
    var w1 := Apply(policy, w, StartSend(p));
    ThenRun(policy, w, StartSend(p), [Dial(p)] + [ClaimHello(|w.links|, cut)]);
    assert !HeldByOther(w1, p);
    DialsIn(policy, w1, p, cut);
  }

  /** A server that starts when the owner is dead takes the shim over with its first call. */
  lemma {:induction false} RestartTakesOver(policy: Policy, owned: bool, es: seq<Event>, cut: bool)
    requires Run(policy, Start(owned), es).Some?
    requires
      var w := Run(policy, Start(owned), es).value;
      w.core.owner.Some? && !Alive(w, w.core.owner.value.pid)
    ensures
      var w := Run(policy, Start(owned), es).value;
      var p, c := |w.clients|, |w.links|;
      var r := Run(policy, w, [Boot] + ([StartSend(p)] + ([Dial(p)] + [ClaimHello(c, cut)])));
      r.Some? && r.value.core == w.core.(owner := Some(Owner(p, Some(c))))
  {
    var w := Run(policy, Start(owned), es).value;
    var p, c := |w.clients|, |w.links|;
    ShapeStart(owned);
    OrderRun(policy, Start(owned), es);
    var w1 := Apply(policy, w, Boot);
    assert w1.clients[p] == Client(true, false, None, 0, Ready, None) && w1.links == w.links && w1.core == w.core;
    ThenRun(policy, w, Boot, [StartSend(p)] + ([Dial(p)] + [ClaimHello(c, cut)]));
    StartsIn(policy, w1, p, cut);
  }
}
