/**
 Why a process must not send again after a doubtful error: going on after any one
 of the three, with the same client or a new one, admits a run in which a later
 `send` returns although its payload was never written. With ExactlyOnce this makes
 the condition exact.

 The runs are concrete: one server process (client 0), one shim. Each lemma is a
 stretch of the run from one named world to the next.
 */
module ShimReuse {
  import opened Wrappers
  import opened ShimCore
  import opened ShimProtocol
  import opened ShimExactlyOnce

  ghost predicate Reachable(policy: Policy, w: World) {
    exists es :: Run(policy, Start(true), es) == Some(w)
  }

  lemma {:induction false} RunThen(policy: Policy, w: World, es: seq<Event>, e: Event)
    requires Run(policy, w, es).Some? && Enabled(policy, Run(policy, w, es).value, e)
    ensures Run(policy, w, es + [e]) == Some(Apply(policy, Run(policy, w, es).value, e))
    decreases |es|
  {
    if es == [] {
      assert es + [e] == [e];
      assert Run(policy, Apply(policy, w, e), []) == Some(Apply(policy, w, e));
    } else {
      assert (es + [e])[1..] == es[1..] + [e];
      RunThen(policy, Apply(policy, w, es[0]), es[1..], e);
    }
  }

  lemma {:induction false} ReachStart(policy: Policy)
    ensures Reachable(policy, Start(true))
  {
    assert Run(policy, Start(true), []) == Some(Start(true));
  }

  lemma {:induction false} Then(policy: Policy, w: World, e: Event, w': World)
    requires Reachable(policy, w) && Enabled(policy, w, e) && w' == Apply(policy, w, e)
    ensures Reachable(policy, w')
  {
    var es :| Run(policy, Start(true), es) == Some(w);
    RunThen(policy, Start(true), es, e);
  }

  // ----- a write that blocks -----------------------------------------------------

  const FIRST_CALL: World := World(Core(0, Some(Owner(0, Some(0))), false, None, [], []),
    [Link(0, Idle, true, [Frame(1, 0)], [], false)],
    [Client(true, true, Some(0), 0, Sending(0, 1, false, 0), None)], 1, [])

  const RETRYING: World := World(
    Core(0, Some(Owner(0, Some(0))), false, Some(Writer(0, Frame(1, 0), 0, false)), [], []),
    [Link(0, InLock, true, [], [], false)],
    [Client(true, true, None, 0, Dialing(0, Some(1)), None)], 1, [])

  const FIRST_CALL_A: World := Start(true).(
    clients := [Client(true, true, None, 0, Greeting(0, 0, None), None)],
    nextId := 1,
    links := [Link(0, Claimed, true, [], [], false)],
    core := Core(0, Some(Owner(0, Some(0))), false, None, [], []))

  /** The first call is on the wire. */
  lemma {:induction false} FirstCallA(policy: Policy)
    ensures Reachable(policy, FIRST_CALL_A)
  {
    ReachStart(policy);
    var w0 := Start(true);
    var w1 := w0.(clients := [Client(true, true, None, 0, Dialing(0, None), None)], nextId := 1);
    Then(policy, w0, StartSend(0), w1);
    var w2 := w1.(
      links := [Link(0, AwaitHello, false, [], [], false)],
      clients := [Client(true, true, None, 0, Greeting(0, 0, None), None)]);
    Then(policy, w1, Dial(0), w2);
    var w3 := w2.(
      core := Core(0, Some(Owner(0, Some(0))), false, None, [], []),
      links := [Link(0, Claimed, true, [], [], false)]);
    Then(policy, w2, ClaimHello(0, false), w3);
  }

  lemma {:induction false} FirstCall(policy: Policy)
    ensures Reachable(policy, FIRST_CALL)
  {
    FirstCallA(policy);
    var w3 := FIRST_CALL_A;
    var w4 := w3.(links := [Link(0, Idle, true, [], [Ok(0)], false)]);
    Then(policy, w3, SayOk(0), w4);
    var w5 := w4.(
      links := [Link(0, Idle, true, [Frame(1, 0)], [], false)],
      clients := [Client(true, true, Some(0), 0, Sending(0, 1, false, 0), None)]);
    Then(policy, w4, GreetOk(0), w5);
  }

  const RETRYING_A: World := FIRST_CALL.(
    links := [Link(0, Sampled(Frame(1, 0), Some(0)), true, [], [], false)])

  /** Its write blocks, and the client times out. */
  lemma {:induction false} FirstRetryA(policy: Policy)
    ensures Reachable(policy, RETRYING_A)
  {
    FirstCall(policy);
    var w0 := FIRST_CALL;
    var w1 := w0.(links := [Link(0, Checked(Frame(1, 0)), true, [], [], false)]);
    Then(policy, w0, Check(0), w1);
    var w2 := w1.(links := [Link(0, Sampled(Frame(1, 0), Some(0)), true, [], [], false)]);
    Then(policy, w1, Sample(0), w2);
  }

  lemma {:induction false} FirstRetry(policy: Policy)
    ensures Reachable(policy, RETRYING)
  {
    FirstRetryA(policy);
    var w2 := RETRYING_A;
    var w3 := w2.(
      core := Core(0, Some(Owner(0, Some(0))), false, Some(Writer(0, Frame(1, 0), 0, false)), [], []),
      links := [Link(0, InLock, true, [], [], false)]);
    Then(policy, w2, Decide(0), w3);
    var w4 := w3.(clients := [Client(true, true, None, 0, Dialing(0, Some(1)), None)]);
    Then(policy, w3, IoFail(0), w4);
  }

  // ----- RetryLost -------------------------------------------------------------

  const LOST_1: World := World(Core(0, Some(Owner(0, Some(1))), false, Some(Writer(0, Frame(1, 0), 0, false)), [], []),
    [Link(0, InLock, true, [], [], true), Link(0, Idle, true, [Frame(1, 0)], [], false)],
    [Client(true, true, Some(1), 0, Ready, Some(RetryLost))], 1, [])

  const LOST_2: World := World(Core(0, Some(Owner(0, Some(2))), false, Some(Writer(0, Frame(1, 0), 0, false)), [], []),
    [Link(0, InLock, true, [], [], true), Link(0, Idle, true, [Frame(1, 0)], [], true),
     Link(0, Idle, true, [Frame(1, 1)], [], false)],
    [Client(true, true, Some(2), 0, Sending(1, 1, false, 2), Some(RetryLost))], 2, [])

  const LOST_3: World := World(Core(1, Some(Owner(0, Some(2))), false, None, [Entry(0, Frame(1, 0))],
    [Entry(0, Frame(1, 0))]),
    [Link(0, Idle, true, [], [], true), Link(0, Idle, true, [Frame(1, 0)], [], true),
     Link(0, Idle, true, [], [], false)],
    [Client(true, true, Some(2), 1, Ready, Some(RetryLost))], 2, [Receipt(0, 1, 1)])

  const LOST_1_A: World := RETRYING.(
    links := [Link(0, InLock, true, [], [], true), Link(0, Idle, true, [], [Ok(0)], false)],
    clients := [Client(true, true, None, 0, Greeting(1, 0, Some(1)), None)],
    core := Core(0, Some(Owner(0, Some(1))), false, Some(Writer(0, Frame(1, 0), 0, false)), [], []))

  /** The retry fails too; `send` raises and keeps the socket. */
  lemma {:induction false} LostStretch1A(policy: Policy)
    ensures Reachable(policy, LOST_1_A)
  {
    FirstRetry(policy);
    var w0 := RETRYING;
    var w1 := w0.(
      links := [Link(0, InLock, true, [], [], false), Link(0, AwaitHello, false, [], [], false)],
      clients := [Client(true, true, None, 0, Greeting(1, 0, Some(1)), None)]);
    Then(policy, w0, Dial(0), w1);
    var w2 := w1.(
      core := Core(0, Some(Owner(0, Some(1))), false, Some(Writer(0, Frame(1, 0), 0, false)), [], []),
      links := [Link(0, InLock, true, [], [], true), Link(0, Claimed, true, [], [], false)]);
    Then(policy, w1, ClaimHello(1, true), w2);
    var w3 := w2.(links := [Link(0, InLock, true, [], [], true), Link(0, Idle, true, [], [Ok(0)], false)]);
    Then(policy, w2, SayOk(1), w3);
  }

  lemma {:induction false} LostStretch1(policy: Policy)
    ensures Reachable(policy, LOST_1)
  {
    LostStretch1A(policy);
    var w3 := LOST_1_A;
    var w4 := w3.(
      links := [Link(0, InLock, true, [], [], true), Link(0, Idle, true, [Frame(1, 0)], [], false)],
      clients := [Client(true, true, Some(1), 0, Sending(0, 1, true, 1), None)]);
    Then(policy, w3, GreetOk(0), w4);
    var w5 := w4.(clients := [Client(true, true, Some(1), 0, Ready, Some(RetryLost))]);
    Then(policy, w4, IoFail(0), w5);
  }

  const LOST_2_A: World := LOST_1.(
    clients := [Client(true, true, None, 0, Greeting(2, 1, None), Some(RetryLost))],
    nextId := 2,
    links := [Link(0, InLock, true, [], [], true), Link(0, Idle, true, [Frame(1, 0)], [], false),
      Link(0, AwaitHello, false, [], [], false)])

  /** A new client of the same process is told that nothing has landed yet. */
  lemma {:induction false} LostStretch2A(policy: Policy)
    requires RetryLost in policy.after && Reachable(policy, LOST_1)
    ensures Reachable(policy, LOST_2_A)
  {
    var w0 := LOST_1;
    var w1 := w0.(clients := [Client(true, true, None, 0, Ready, Some(RetryLost))]);
    Then(policy, w0, Renew(0), w1);
    var w2 := w1.(clients := [Client(true, true, None, 0, Dialing(1, None), Some(RetryLost))], nextId := 2);
    Then(policy, w1, StartSend(0), w2);
    var w3 := w2.(
      links := [Link(0, InLock, true, [], [], true), Link(0, Idle, true, [Frame(1, 0)], [], false),
                Link(0, AwaitHello, false, [], [], false)],
      clients := [Client(true, true, None, 0, Greeting(2, 1, None), Some(RetryLost))]);
    Then(policy, w2, Dial(0), w3);
  }

  lemma {:induction false} LostStretch2(policy: Policy)
    requires RetryLost in policy.after && Reachable(policy, LOST_1)
    ensures Reachable(policy, LOST_2)
  {
    LostStretch2A(policy);
    var w3 := LOST_2_A;
    var w4 := w3.(
      core := Core(0, Some(Owner(0, Some(2))), false, Some(Writer(0, Frame(1, 0), 0, false)), [], []),
      links := [Link(0, InLock, true, [], [], true), Link(0, Idle, true, [Frame(1, 0)], [], true),
                Link(0, Claimed, true, [], [], false)]);
    Then(policy, w3, ClaimHello(2, true), w4);
    var w5 := w4.(
      links := [Link(0, InLock, true, [], [], true), Link(0, Idle, true, [Frame(1, 0)], [], true),
                Link(0, Idle, true, [], [Ok(0)], false)]);
    Then(policy, w4, SayOk(2), w5);
    var w6 := w5.(
      links := [Link(0, InLock, true, [], [], true), Link(0, Idle, true, [Frame(1, 0)], [], true),
                Link(0, Idle, true, [Frame(1, 1)], [], false)],
      clients := [Client(true, true, Some(2), 0, Sending(1, 1, false, 2), Some(RetryLost))]);
    Then(policy, w5, GreetOk(0), w6);
  }

  const LOST_3_A: World := LOST_2.(
    core := Core(1, Some(Owner(0, Some(2))), false, None, [Entry(0, Frame(1, 0))], [Entry(0, Frame(1, 0))]),
    links := [Link(0, Idle, true, [], [], true), Link(0, Idle, true, [Frame(1, 0)], [], true),
      Link(0, Checked(Frame(1, 1)), true, [], [], false)])

  /** The old write lands first and takes the number. */
  lemma {:induction false} LostStretch3A(policy: Policy)
    requires RetryLost in policy.after && Reachable(policy, LOST_2)
    ensures Reachable(policy, LOST_3_A)
  {
    var w0 := LOST_2;
    var w1 := w0.(
      core := Core(0, Some(Owner(0, Some(2))), false, Some(Writer(0, Frame(1, 0), 0, true)),
        [Entry(0, Frame(1, 0))], []));
    Then(policy, w0, Written(0), w1);
    var w2 := w1.(
      core := Core(1, Some(Owner(0, Some(2))), false, None, [Entry(0, Frame(1, 0))], [Entry(0, Frame(1, 0))]),
      links := [Link(0, Idle, true, [], [], true), Link(0, Idle, true, [Frame(1, 0)], [], true),
                Link(0, Idle, true, [Frame(1, 1)], [], false)]);
    Then(policy, w1, Finish(0), w2);
    var w3 := w2.(
      links := [Link(0, Idle, true, [], [], true), Link(0, Idle, true, [Frame(1, 0)], [], true),
                Link(0, Checked(Frame(1, 1)), true, [], [], false)]);
    Then(policy, w2, Check(2), w3);
  }

  lemma {:induction false} LostStretch3(policy: Policy)
    requires RetryLost in policy.after && Reachable(policy, LOST_2)
    ensures Reachable(policy, LOST_3)
  {
    LostStretch3A(policy);
    var w3 := LOST_3_A;
    var w4 := w3.(
      links := [Link(0, Idle, true, [], [], true), Link(0, Idle, true, [Frame(1, 0)], [], true),
                Link(0, Sampled(Frame(1, 1), Some(0)), true, [], [], false)]);
    Then(policy, w3, Sample(2), w4);
    var w5 := w4.(
      links := [Link(0, Idle, true, [], [], true), Link(0, Idle, true, [Frame(1, 0)], [], true),
                Link(0, Idle, true, [], [Ack(1)], false)]);
    Then(policy, w4, Decide(2), w5);
    var w6 := w5.(
      links := [Link(0, Idle, true, [], [], true), Link(0, Idle, true, [Frame(1, 0)], [], true),
                Link(0, Idle, true, [], [], false)],
      clients := [Client(true, true, Some(2), 1, Ready, Some(RetryLost))],
      returned := [Receipt(0, 1, 1)]);
    Then(policy, w5, ReadReply(0), w6);
  }

  // ----- RetryUnreachable ------------------------------------------------------

  const UNREACHABLE_1: World := World(
    Core(0, Some(Owner(0, Some(0))), false, Some(Writer(0, Frame(1, 0), 0, false)), [], []),
    [Link(0, InLock, true, [], [], false)],
    [Client(true, true, None, 0, Ready, Some(RetryUnreachable))], 1, [])

  const UNREACHABLE_2: World := World(
    Core(0, Some(Owner(0, Some(1))), false, Some(Writer(0, Frame(1, 0), 0, false)), [], []),
    [Link(0, InLock, true, [], [], true), Link(0, Idle, true, [Frame(1, 1)], [], false)],
    [Client(true, true, Some(1), 0, Sending(1, 1, false, 1), Some(RetryUnreachable))], 2, [])

  const UNREACHABLE_3: World := World(Core(1, Some(Owner(0, Some(1))), false, None, [Entry(0, Frame(1, 0))],
    [Entry(0, Frame(1, 0))]),
    [Link(0, Idle, true, [], [], true), Link(0, Idle, true, [], [], false)],
    [Client(true, true, Some(1), 1, Ready, Some(RetryUnreachable))], 2, [Receipt(0, 1, 1)])

  /** The reconnect fails. */
  lemma {:induction false} UnreachableStretch1(policy: Policy)
    ensures Reachable(policy, UNREACHABLE_1)
  {
    FirstRetry(policy);
    Then(policy, RETRYING, DialFail(0), UNREACHABLE_1);
  }

  const UNREACHABLE_2_A: World := UNREACHABLE_1.(
    clients := [Client(true, true, None, 0, Greeting(1, 1, None), Some(RetryUnreachable))],
    nextId := 2,
    links := [Link(0, InLock, true, [], [], true), Link(0, Claimed, true, [], [], false)],
    core := Core(0, Some(Owner(0, Some(1))), false, Some(Writer(0, Frame(1, 0), 0, false)), [], []))

  /** The next call is told that nothing has landed yet. */
  lemma {:induction false} UnreachableStretch2A(policy: Policy)
    requires RetryUnreachable in policy.after && Reachable(policy, UNREACHABLE_1)
    ensures Reachable(policy, UNREACHABLE_2_A)
  {
    var w0 := UNREACHABLE_1;
    var w1 := w0.(clients := [Client(true, true, None, 0, Dialing(1, None), Some(RetryUnreachable))], nextId := 2);
    Then(policy, w0, StartSend(0), w1);
    var w2 := w1.(
      links := [Link(0, InLock, true, [], [], false), Link(0, AwaitHello, false, [], [], false)],
      clients := [Client(true, true, None, 0, Greeting(1, 1, None), Some(RetryUnreachable))]);
    Then(policy, w1, Dial(0), w2);
    var w3 := w2.(
      core := Core(0, Some(Owner(0, Some(1))), false, Some(Writer(0, Frame(1, 0), 0, false)), [], []),
      links := [Link(0, InLock, true, [], [], true), Link(0, Claimed, true, [], [], false)]);
    Then(policy, w2, ClaimHello(1, true), w3);
  }

  lemma {:induction false} UnreachableStretch2(policy: Policy)
    requires RetryUnreachable in policy.after && Reachable(policy, UNREACHABLE_1)
    ensures Reachable(policy, UNREACHABLE_2)
  {
    UnreachableStretch2A(policy);
    var w3 := UNREACHABLE_2_A;
    var w4 := w3.(links := [Link(0, InLock, true, [], [], true), Link(0, Idle, true, [], [Ok(0)], false)]);
    Then(policy, w3, SayOk(1), w4);
    var w5 := w4.(
      links := [Link(0, InLock, true, [], [], true), Link(0, Idle, true, [Frame(1, 1)], [], false)],
      clients := [Client(true, true, Some(1), 0, Sending(1, 1, false, 1), Some(RetryUnreachable))]);
    Then(policy, w4, GreetOk(0), w5);
  }

  const UNREACHABLE_3_A: World := UNREACHABLE_2.(
    core := Core(1, Some(Owner(0, Some(1))), false, None, [Entry(0, Frame(1, 0))], [Entry(0, Frame(1, 0))]),
    links := [Link(0, Idle, true, [], [], true), Link(0, Checked(Frame(1, 1)), true, [], [], false)])

  /** The old write lands first and takes the number. */
  lemma {:induction false} UnreachableStretch3A(policy: Policy)
    requires RetryUnreachable in policy.after && Reachable(policy, UNREACHABLE_2)
    ensures Reachable(policy, UNREACHABLE_3_A)
  {
    var w0 := UNREACHABLE_2;
    var w1 := w0.(
      core := Core(0, Some(Owner(0, Some(1))), false, Some(Writer(0, Frame(1, 0), 0, true)),
        [Entry(0, Frame(1, 0))], []));
    Then(policy, w0, Written(0), w1);
    var w2 := w1.(
      core := Core(1, Some(Owner(0, Some(1))), false, None, [Entry(0, Frame(1, 0))], [Entry(0, Frame(1, 0))]),
      links := [Link(0, Idle, true, [], [], true), Link(0, Idle, true, [Frame(1, 1)], [], false)]);
    Then(policy, w1, Finish(0), w2);
    var w3 := w2.(links := [Link(0, Idle, true, [], [], true), Link(0, Checked(Frame(1, 1)), true, [], [], false)]);
    Then(policy, w2, Check(1), w3);
  }

  lemma {:induction false} UnreachableStretch3(policy: Policy)
    requires RetryUnreachable in policy.after && Reachable(policy, UNREACHABLE_2)
    ensures Reachable(policy, UNREACHABLE_3)
  {
    UnreachableStretch3A(policy);
    var w3 := UNREACHABLE_3_A;
    var w4 := w3.(
      links := [Link(0, Idle, true, [], [], true), Link(0, Sampled(Frame(1, 1), Some(0)), true, [], [], false)]);
    Then(policy, w3, Sample(1), w4);
    var w5 := w4.(links := [Link(0, Idle, true, [], [], true), Link(0, Idle, true, [], [Ack(1)], false)]);
    Then(policy, w4, Decide(1), w5);
    var w6 := w5.(
      links := [Link(0, Idle, true, [], [], true), Link(0, Idle, true, [], [], false)],
      clients := [Client(true, true, Some(1), 1, Ready, Some(RetryUnreachable))],
      returned := [Receipt(0, 1, 1)]);
    Then(policy, w5, ReadReply(0), w6);
  }

  // ----- RetryDisplaced --------------------------------------------------------

  const DISPLACED_1: World := World(Core(0, Some(Owner(0, None)), false, None, [], []),
    [Link(0, AwaitHello, false, [], [], false), Link(0, AwaitHello, false, [], [], false)],
    [Client(true, true, None, 0, Greeting(1, 1, None), None)], 2, [])

  const DISPLACED_2: World := World(
    Core(0, Some(Owner(0, Some(1))), false, Some(Writer(1, Frame(1, 1), 0, false)), [], []),
    [Link(0, AwaitHello, false, [], [], false), Link(0, InLock, true, [], [], false)],
    [Client(true, true, Some(1), 0, Sending(1, 1, false, 1), None)], 2, [])

  const DISPLACED_3: World := World(
    Core(0, Some(Owner(0, Some(2))), false, Some(Writer(1, Frame(1, 1), 0, false)), [], []),
    [Link(0, AwaitHello, false, [], [], false), Link(0, InLock, true, [], [], true),
     Link(0, Idle, true, [Frame(1, 1)], [], false)],
    [Client(true, true, Some(2), 0, Sending(1, 1, true, 2), None)], 2, [])

  const DISPLACED_4: World := World(
    Core(0, Some(Owner(0, Some(0))), false, Some(Writer(1, Frame(1, 1), 0, false)), [], []),
    [Link(0, Claimed, true, [], [], false), Link(0, InLock, true, [], [], true), Link(0, Ended, true, [], [], false)],
    [Client(true, true, None, 0, Ready, Some(RetryDisplaced))], 2, [])

  const DISPLACED_5: World := World(
    Core(0, Some(Owner(0, Some(3))), false, Some(Writer(1, Frame(1, 1), 0, false)), [], []),
    [Link(0, Claimed, true, [], [], true), Link(0, InLock, true, [], [], true), Link(0, Ended, true, [], [], false),
     Link(0, Idle, true, [Frame(1, 2)], [], false)],
    [Client(true, true, Some(3), 0, Sending(2, 1, false, 3), Some(RetryDisplaced))], 3, [])

  const DISPLACED_6: World := World(Core(1, Some(Owner(0, Some(3))), false, None, [Entry(0, Frame(1, 1))],
    [Entry(0, Frame(1, 1))]),
    [Link(0, Claimed, true, [], [], true), Link(0, Idle, true, [], [], true), Link(0, Ended, true, [], [], false),
     Link(0, Idle, true, [], [], false)],
    [Client(true, true, Some(3), 1, Ready, Some(RetryDisplaced))], 3, [Receipt(0, 2, 1)])

  const DISPLACED_1_A: World := Start(true).(
    clients := [Client(true, true, None, 0, Ready, None)],
    nextId := 1,
    links := [Link(0, AwaitHello, false, [], [], false)])

  /** A HELLO nobody waits for is still in flight. */
  lemma {:induction false} DisplacedStretch1A(policy: Policy)
    requires RetryDisplaced in policy.after
    ensures Reachable(policy, DISPLACED_1_A)
  {
    ReachStart(policy);
    var w0 := Start(true);
    var w1 := w0.(clients := [Client(true, true, None, 0, Dialing(0, None), None)], nextId := 1);
    Then(policy, w0, StartSend(0), w1);
    var w2 := w1.(
      links := [Link(0, AwaitHello, false, [], [], false)],
      clients := [Client(true, true, None, 0, Greeting(0, 0, None), None)]);
    Then(policy, w1, Dial(0), w2);
    var w3 := w2.(clients := [Client(true, true, None, 0, Ready, None)]);
    Then(policy, w2, GreetFail(0), w3);
  }

  lemma {:induction false} DisplacedStretch1(policy: Policy)
    requires RetryDisplaced in policy.after
    ensures Reachable(policy, DISPLACED_1)
  {
    DisplacedStretch1A(policy);
    var w3 := DISPLACED_1_A;
    var w4 := w3.(clients := [Client(true, true, None, 0, Dialing(1, None), None)], nextId := 2);
    Then(policy, w3, StartSend(0), w4);
    var w5 := w4.(
      links := [Link(0, AwaitHello, false, [], [], false), Link(0, AwaitHello, false, [], [], false)],
      clients := [Client(true, true, None, 0, Greeting(1, 1, None), None)]);
    Then(policy, w4, Dial(0), w5);
  }

  const DISPLACED_2_A: World := DISPLACED_1.(
    core := Core(0, Some(Owner(0, Some(1))), false, None, [], []),
    links := [Link(0, AwaitHello, false, [], [], false), Link(0, Idle, true, [Frame(1, 1)], [], false)],
    clients := [Client(true, true, Some(1), 0, Sending(1, 1, false, 1), None)])

  /** The second call's write blocks. */
  lemma {:induction false} DisplacedStretch2A(policy: Policy)
    requires RetryDisplaced in policy.after && Reachable(policy, DISPLACED_1)
    ensures Reachable(policy, DISPLACED_2_A)
  {
    var w0 := DISPLACED_1;
    var w1 := w0.(
      core := Core(0, Some(Owner(0, Some(1))), false, None, [], []),
      links := [Link(0, AwaitHello, false, [], [], false), Link(0, Claimed, true, [], [], false)]);
    Then(policy, w0, ClaimHello(1, false), w1);
    var w2 := w1.(links := [Link(0, AwaitHello, false, [], [], false), Link(0, Idle, true, [], [Ok(0)], false)]);
    Then(policy, w1, SayOk(1), w2);
    var w3 := w2.(
      links := [Link(0, AwaitHello, false, [], [], false), Link(0, Idle, true, [Frame(1, 1)], [], false)],
      clients := [Client(true, true, Some(1), 0, Sending(1, 1, false, 1), None)]);
    Then(policy, w2, GreetOk(0), w3);
  }

  lemma {:induction false} DisplacedStretch2(policy: Policy)
    requires RetryDisplaced in policy.after && Reachable(policy, DISPLACED_1)
    ensures Reachable(policy, DISPLACED_2)
  {
    DisplacedStretch2A(policy);
    var w3 := DISPLACED_2_A;
    var w4 := w3.(
      links := [Link(0, AwaitHello, false, [], [], false), Link(0, Checked(Frame(1, 1)), true, [], [], false)]);
    Then(policy, w3, Check(1), w4);
    var w5 := w4.(
      links := [Link(0, AwaitHello, false, [], [], false),
                Link(0, Sampled(Frame(1, 1), Some(0)), true, [], [], false)]);
    Then(policy, w4, Sample(1), w5);
    var w6 := w5.(
      core := Core(0, Some(Owner(0, Some(1))), false, Some(Writer(1, Frame(1, 1), 0, false)), [], []),
      links := [Link(0, AwaitHello, false, [], [], false), Link(0, InLock, true, [], [], false)]);
    Then(policy, w5, Decide(1), w6);
  }

  const DISPLACED_3_A: World := DISPLACED_2.(
    clients := [Client(true, true, None, 0, Greeting(2, 1, Some(1)), None)],
    links := [Link(0, AwaitHello, false, [], [], false), Link(0, InLock, true, [], [], true),
      Link(0, Claimed, true, [], [], false)],
    core := Core(0, Some(Owner(0, Some(2))), false, Some(Writer(1, Frame(1, 1), 0, false)), [], []))

  /** It retries on a new connection. */
  lemma {:induction false} DisplacedStretch3A(policy: Policy)
    requires RetryDisplaced in policy.after && Reachable(policy, DISPLACED_2)
    ensures Reachable(policy, DISPLACED_3_A)
  {
    var w0 := DISPLACED_2;
    var w1 := w0.(clients := [Client(true, true, None, 0, Dialing(1, Some(1)), None)]);
    Then(policy, w0, IoFail(0), w1);
    var w2 := w1.(
      links := [Link(0, AwaitHello, false, [], [], false), Link(0, InLock, true, [], [], false),
                Link(0, AwaitHello, false, [], [], false)],
      clients := [Client(true, true, None, 0, Greeting(2, 1, Some(1)), None)]);
    Then(policy, w1, Dial(0), w2);
    var w3 := w2.(
      core := Core(0, Some(Owner(0, Some(2))), false, Some(Writer(1, Frame(1, 1), 0, false)), [], []),
      links := [Link(0, AwaitHello, false, [], [], false), Link(0, InLock, true, [], [], true),
                Link(0, Claimed, true, [], [], false)]);
    Then(policy, w2, ClaimHello(2, true), w3);
  }

  lemma {:induction false} DisplacedStretch3(policy: Policy)
    requires RetryDisplaced in policy.after && Reachable(policy, DISPLACED_2)
    ensures Reachable(policy, DISPLACED_3)
  {
    DisplacedStretch3A(policy);
    var w3 := DISPLACED_3_A;
    var w4 := w3.(
      links := [Link(0, AwaitHello, false, [], [], false), Link(0, InLock, true, [], [], true),
                Link(0, Idle, true, [], [Ok(0)], false)]);
    Then(policy, w3, SayOk(2), w4);
    var w5 := w4.(
      links := [Link(0, AwaitHello, false, [], [], false), Link(0, InLock, true, [], [], true),
                Link(0, Idle, true, [Frame(1, 1)], [], false)],
      clients := [Client(true, true, Some(2), 0, Sending(1, 1, true, 2), None)]);
    Then(policy, w4, GreetOk(0), w5);
  }

  /** The late HELLO displaces that connection. */
  lemma {:induction false} DisplacedStretch4(policy: Policy)
    requires RetryDisplaced in policy.after && Reachable(policy, DISPLACED_3)
    ensures Reachable(policy, DISPLACED_4)
  {
    var w0 := DISPLACED_3;
    var w1 := w0.(
      core := Core(0, Some(Owner(0, Some(0))), false, Some(Writer(1, Frame(1, 1), 0, false)), [], []),
      links := [Link(0, Claimed, true, [], [], false), Link(0, InLock, true, [], [], true),
                Link(0, Idle, true, [Frame(1, 1)], [], false)]);
    Then(policy, w0, ClaimHello(0, false), w1);
    var w2 := w1.(
      links := [Link(0, Claimed, true, [], [], false), Link(0, InLock, true, [], [], true),
                Link(0, Ended, true, [], [ErrNotOwner], false)]);
    Then(policy, w1, Check(2), w2);
    var w3 := w2.(
      links := [Link(0, Claimed, true, [], [], false), Link(0, InLock, true, [], [], true),
                Link(0, Ended, true, [], [], false)],
      clients := [Client(true, true, None, 0, Ready, Some(RetryDisplaced))]);
    Then(policy, w2, ReadReply(0), w3);
  }

  const DISPLACED_5_A: World := DISPLACED_4.(
    clients := [Client(true, true, None, 0, Greeting(3, 2, None), Some(RetryDisplaced))],
    nextId := 3,
    links := [Link(0, Claimed, true, [], [], true), Link(0, InLock, true, [], [], true),
      Link(0, Ended, true, [], [], false), Link(0, Claimed, true, [], [], false)],
    core := Core(0, Some(Owner(0, Some(3))), false, Some(Writer(1, Frame(1, 1), 0, false)), [], []))

  /** The next call is told that nothing has landed yet. */
  lemma {:induction false} DisplacedStretch5A(policy: Policy)
    requires RetryDisplaced in policy.after && Reachable(policy, DISPLACED_4)
    ensures Reachable(policy, DISPLACED_5_A)
  {
    var w0 := DISPLACED_4;
    var w1 := w0.(clients := [Client(true, true, None, 0, Dialing(2, None), Some(RetryDisplaced))], nextId := 3);
    Then(policy, w0, StartSend(0), w1);
    var w2 := w1.(
      links := [Link(0, Claimed, true, [], [], false), Link(0, InLock, true, [], [], true),
                Link(0, Ended, true, [], [], false), Link(0, AwaitHello, false, [], [], false)],
      clients := [Client(true, true, None, 0, Greeting(3, 2, None), Some(RetryDisplaced))]);
    Then(policy, w1, Dial(0), w2);
    var w3 := w2.(
      core := Core(0, Some(Owner(0, Some(3))), false, Some(Writer(1, Frame(1, 1), 0, false)), [], []),
      links := [Link(0, Claimed, true, [], [], true), Link(0, InLock, true, [], [], true),
                Link(0, Ended, true, [], [], false), Link(0, Claimed, true, [], [], false)]);
    Then(policy, w2, ClaimHello(3, true), w3);
  }

  lemma {:induction false} DisplacedStretch5(policy: Policy)
    requires RetryDisplaced in policy.after && Reachable(policy, DISPLACED_4)
    ensures Reachable(policy, DISPLACED_5)
  {
    DisplacedStretch5A(policy);
    var w3 := DISPLACED_5_A;
    var w4 := w3.(
      links := [Link(0, Claimed, true, [], [], true), Link(0, InLock, true, [], [], true),
                Link(0, Ended, true, [], [], false), Link(0, Idle, true, [], [Ok(0)], false)]);
    Then(policy, w3, SayOk(3), w4);
    var w5 := w4.(
      links := [Link(0, Claimed, true, [], [], true), Link(0, InLock, true, [], [], true),
                Link(0, Ended, true, [], [], false), Link(0, Idle, true, [Frame(1, 2)], [], false)],
      clients := [Client(true, true, Some(3), 0, Sending(2, 1, false, 3), Some(RetryDisplaced))]);
    Then(policy, w4, GreetOk(0), w5);
  }

  const DISPLACED_6_A: World := DISPLACED_5.(
    core := Core(1, Some(Owner(0, Some(3))), false, None, [Entry(0, Frame(1, 1))], [Entry(0, Frame(1, 1))]),
    links := [Link(0, Claimed, true, [], [], true), Link(0, Idle, true, [], [], true),
      Link(0, Ended, true, [], [], false), Link(0, Checked(Frame(1, 2)), true, [], [], false)])

  /** The old write lands first and takes the number. */
  lemma {:induction false} DisplacedStretch6A(policy: Policy)
    requires RetryDisplaced in policy.after && Reachable(policy, DISPLACED_5)
    ensures Reachable(policy, DISPLACED_6_A)
  {
    var w0 := DISPLACED_5;
    var w1 := w0.(
      core := Core(0, Some(Owner(0, Some(3))), false, Some(Writer(1, Frame(1, 1), 0, true)),
        [Entry(0, Frame(1, 1))], []));
    Then(policy, w0, Written(1), w1);
    var w2 := w1.(
      core := Core(1, Some(Owner(0, Some(3))), false, None, [Entry(0, Frame(1, 1))], [Entry(0, Frame(1, 1))]),
      links := [Link(0, Claimed, true, [], [], true), Link(0, Idle, true, [], [], true),
                Link(0, Ended, true, [], [], false), Link(0, Idle, true, [Frame(1, 2)], [], false)]);
    Then(policy, w1, Finish(1), w2);
    var w3 := w2.(
      links := [Link(0, Claimed, true, [], [], true), Link(0, Idle, true, [], [], true),
                Link(0, Ended, true, [], [], false), Link(0, Checked(Frame(1, 2)), true, [], [], false)]);
    Then(policy, w2, Check(3), w3);
  }

  lemma {:induction false} DisplacedStretch6(policy: Policy)
    requires RetryDisplaced in policy.after && Reachable(policy, DISPLACED_5)
    ensures Reachable(policy, DISPLACED_6)
  {
    DisplacedStretch6A(policy);
    var w3 := DISPLACED_6_A;
    var w4 := w3.(
      links := [Link(0, Claimed, true, [], [], true), Link(0, Idle, true, [], [], true),
                Link(0, Ended, true, [], [], false), Link(0, Sampled(Frame(1, 2), Some(0)), true, [], [], false)]);
    Then(policy, w3, Sample(3), w4);
    var w5 := w4.(
      links := [Link(0, Claimed, true, [], [], true), Link(0, Idle, true, [], [], true),
                Link(0, Ended, true, [], [], false), Link(0, Idle, true, [], [Ack(1)], false)]);
    Then(policy, w4, Decide(3), w5);
    var w6 := w5.(
      links := [Link(0, Claimed, true, [], [], true), Link(0, Idle, true, [], [], true),
                Link(0, Ended, true, [], [], false), Link(0, Idle, true, [], [], false)],
      clients := [Client(true, true, Some(3), 1, Ready, Some(RetryDisplaced))],
      returned := [Receipt(0, 2, 1)]);
    Then(policy, w5, ReadReply(0), w6);
  }

  /** Going on after any one of the doubtful errors breaks the promise, with a new client as with the old one. */
  lemma {:induction false} BrokenByReuse(policy: Policy)
    requires policy.after != {}
    ensures exists w :: Reachable(policy, w) && !AllHonoured(w)
  {
    var cause :| cause in policy.after;
    match cause
    case RetryLost =>
      LostStretch1(policy);
      LostStretch2(policy);
      LostStretch3(policy);
      assert Receipt(0, 1, 1) in LOST_3.returned && !Honoured(LOST_3, Receipt(0, 1, 1));
    case RetryUnreachable =>
      UnreachableStretch1(policy);
      UnreachableStretch2(policy);
      UnreachableStretch3(policy);
      assert Receipt(0, 1, 1) in UNREACHABLE_3.returned && !Honoured(UNREACHABLE_3, Receipt(0, 1, 1));
    case RetryDisplaced =>
      DisplacedStretch1(policy);
      DisplacedStretch2(policy);
      DisplacedStretch3(policy);
      DisplacedStretch4(policy);
      DisplacedStretch5(policy);
      DisplacedStretch6(policy);
      assert Receipt(0, 2, 1) in DISPLACED_6.returned && !Honoured(DISPLACED_6, Receipt(0, 2, 1));
  }

  predicate Honours(policy: Policy, owned: bool, es: seq<Event>) {
    Run(policy, Start(owned), es).Some? ==> AllHonoured(Run(policy, Start(owned), es).value)
  }

  lemma {:induction false} CarefulRun(policy: Policy, w: World, es: seq<Event>)
    requires policy.after == {}
    ensures Run(policy, w, es) == Run(CAREFUL, w, es)
    decreases |es|
  {
    if es != [] && Enabled(policy, w, es[0]) {
      CarefulRun(policy, Apply(policy, w, es[0]), es[1..]);
    }
  }

  /**
   The exact condition: every returned `send` is written, in every run, if and
   only if no process sends to the shim again, by this client or another, once a
   `send` of its own has raised during its retry (other than with ShimStdinClosed).
   */
  lemma {:induction false} ExactlyOnceIffCareful(policy: Policy)
    ensures (forall owned, es :: Honours(policy, owned, es)) <==> policy.after == {}
  {
    if policy.after == {} {
      forall owned, es
        ensures Honours(policy, owned, es)
      {
        CarefulRun(policy, Start(owned), es);
        if Run(policy, Start(owned), es).Some? {
          ExactlyOnce(owned, es);
        }
      }
    } else {
      BrokenByReuse(policy);
      var w :| Reachable(policy, w) && !AllHonoured(w);
      var es :| Run(policy, Start(true), es) == Some(w);
      assert !Honours(policy, true, es);
    }
  }
}
