/**
 The shim and every `ShimClient` that talks to it, as one transition system.

 A run is a sequence of events, each one atomic step of the shim's connection
 threads, of a client's `send`, or of the world (a connection goes quiet, a
 process dies). Anything may happen between two of them. Pids are indices of
 `clients`, so two processes never share one, and a dead process stays dead.
 */
module ShimProtocol {
  import opened Wrappers
  import opened ShimCore

  datatype Reply =
    | Ok(lastSeq: int)
    | Refused
    | Ack(num: int)
    | ErrNotOwner
    | ErrGap(expected: int)
    | ErrStdinClosed

  /** Where the shim's thread for one connection is. */
  datatype Thread =
    | AwaitHello
    | Claimed
    | Idle
    | Checked(frame: Frame)
    | Sampled(frame: Frame, sender: Option<Pid>)
    | InLock
    | Ended

  /** `inbox` and `outbox` are bytes in flight; a `down` connection delivers no further reply. */
  datatype Link = Link(
    pid: Pid,
    thread: Thread,
    claimed: bool,
    inbox: seq<Frame>,
    outbox: seq<Reply>,
    down: bool)

  /** Where a client is inside `send`. `want` is the number of the payload being retried. */
  datatype Phase =
    | Ready
    | Dialing(id: nat, want: Option<int>)
    | Greeting(conn: Conn, id: nat, want: Option<int>)
    | Sending(id: nat, num: int, retried: bool, conn: Conn)

  /** The three ways `send` raises while the fate of its payload is still open. */
  datatype Cause = RetryLost | RetryUnreachable | RetryDisplaced

  /**
   The client a process uses for the shim; it may make a new one between two calls.
   `joined`: some HELLO of this process was accepted. `doubt`: one of its calls raised
   with its payload's fate open, on this client or an earlier one.
   */
  datatype Client = Client(
    alive: bool,
    joined: bool,
    sock: Option<Conn>,
    last: int,
    phase: Phase,
    doubt: Option<Cause>)

  /** A `send` that returned: whose, which call, and the number it returned. */
  datatype Receipt = Receipt(pid: Pid, id: nat, num: int)

  datatype World = World(
    core: Core,
    links: seq<Link>,
    clients: seq<Client>,
    nextId: nat,
    returned: seq<Receipt>)

  datatype Event =
    | Boot
    | Die(p: Pid)
    | StartSend(p: Pid)
    | Dial(p: Pid)
    | DialFail(p: Pid)
    | GreetOk(p: Pid)
    | GreetFail(p: Pid)
    | ReadReply(p: Pid)
    | IoFail(p: Pid)
    | Renew(p: Pid)
    | ClaimHello(c: Conn, cut: bool)
    | SayOk(c: Conn)
    | Check(c: Conn)
    | Sample(c: Conn)
    | Decide(c: Conn)
    | Written(c: Conn)
    | WriteFails(c: Conn)
    | Finish(c: Conn)
    | Hangup(c: Conn)
    | CloseStdinNow

  /**
   What a process does once a `send` of its own has raised in doubt: the causes after
   which it goes on sending, and whether it makes a new client before it does.
   */
  datatype Policy = Policy(after: set<Cause>, renews: bool)

  // ----- shared pieces ---------------------------------------------------------

  function Push<T>(s: seq<T>, x: T): (r: seq<T>)
    ensures s == [] ==> r == [x]
    ensures |s| == 1 ==> r == [s[0], x]
  {
    s + [x]
  }

  function Rest<T>(s: seq<T>): (r: seq<T>)
    requires s != []
    ensures |s| == 1 ==> r == []
    ensures |s| == 2 ==> r == [s[1]]
  {
    s[1..]
  }

  predicate IsClient(w: World, p: Pid) {
    p < |w.clients|
  }

  predicate Alive(w: World, p: Pid) {
    IsClient(w, p) && w.clients[p].alive
  }

  predicate IsLink(w: World, c: Conn) {
    c < |w.links|
  }

  function SetClient(w: World, p: Pid, cl: Client): World
    requires IsClient(w, p)
  {
    w.(clients := w.clients[p := cl])
  }

  function SetLink(w: World, c: Conn, l: Link): World
    requires IsLink(w, c)
  {
    w.(links := w.links[c := l])
  }

  function Put(l: Link, r: Reply): Link {
    if l.down then l else l.(outbox := Push(l.outbox, r))
  }

  /** The thread's `finally`: an accepted connection gives up its ownership. */
  function End(w: World, c: Conn, l: Link): World
    requires IsLink(w, c)
  {
    SetLink(w, c, l.(thread := Ended)).(core := if l.claimed then Release(w.core, c) else w.core)
  }

  function Raise(cl: Client, doubt: Option<Cause>): Client {
    cl.(phase := Ready, doubt := if doubt.Some? then doubt else cl.doubt)
  }

  // ----- the clients -------------------------------------------------------------

  predicate IsNew(cl: Client) {
    cl.sock.None? && cl.last == 0
  }

  predicate GoesOn(policy: Policy, cl: Client) {
    cl.doubt.Some? ==> cl.doubt.value in policy.after && (policy.renews ==> IsNew(cl))
  }

  predicate CanStartSend(policy: Policy, w: World, p: Pid) {
    Alive(w, p) && w.clients[p].phase.Ready?
    && GoesOn(policy, w.clients[p])
    && (w.clients[p].sock.Some? ==> IsLink(w, w.clients[p].sock.value))
  }

  function Transmit(w: World, p: Pid, id: nat, num: int, retried: bool, c: Conn): World
    requires IsClient(w, p) && IsLink(w, c)
  {
    var cl := w.clients[p].(sock := Some(c), phase := Sending(id, num, retried, c));
    SetLink(SetClient(w, p, cl), c, w.links[c].(inbox := Push(w.links[c].inbox, Frame(num, id))))
  }

  function DoStartSend(w: World, p: Pid): World
    requires Alive(w, p) && (w.clients[p].sock.Some? ==> IsLink(w, w.clients[p].sock.value))
  {
    var cl := w.clients[p];
    var w' := w.(nextId := w.nextId + 1);
    if cl.sock.Some?
    then Transmit(w', p, w.nextId, cl.last + 1, false, cl.sock.value)
    else SetClient(w', p, cl.(phase := Dialing(w.nextId, None)))
  }

  predicate CanDial(w: World, p: Pid) {
    Alive(w, p) && w.clients[p].phase.Dialing?
  }

  function DoDial(w: World, p: Pid): World
    requires CanDial(w, p)
  {
    var cl := w.clients[p];
    SetClient(w.(links := Push(w.links, Link(p, AwaitHello, false, [], [], false))), p,
              cl.(phase := Greeting(|w.links|, cl.phase.id, cl.phase.want)))
  }

  function Unreached(want: Option<int>): Option<Cause> {
    if want.Some? then Some(RetryUnreachable) else None
  }

  function DoDialFail(w: World, p: Pid): World
    requires CanDial(w, p)
  {
    var cl := w.clients[p];
    SetClient(w, p, Raise(cl, Unreached(cl.phase.want)))
  }

  predicate CanGreet(w: World, p: Pid) {
    Alive(w, p) && w.clients[p].phase.Greeting? && IsLink(w, w.clients[p].phase.conn)
  }

  predicate CanGreetOk(w: World, p: Pid) {
    CanGreet(w, p)
    && var l := w.links[w.clients[p].phase.conn];
       l.outbox != [] && l.outbox[0].Ok?
  }

  /** The HELLO reply tells a retry whether its payload had landed. */
  function DoGreetOk(w: World, p: Pid): World
    requires CanGreetOk(w, p)
  {
    var cl := w.clients[p];
    var c := cl.phase.conn;
    var n := w.links[c].outbox[0].lastSeq;
    var w' := SetLink(w, c, w.links[c].(outbox := Rest(w.links[c].outbox)));
    if cl.phase.want.None? then
      Transmit(SetClient(w', p, cl.(last := n)), p, cl.phase.id, n + 1, false, c)
    else if n >= cl.phase.want.value then
      Deliver(SetClient(w', p, cl.(sock := Some(c))), p, cl.phase.id, cl.phase.want.value)
    else
      Transmit(SetClient(w', p, cl.(last := n)), p, cl.phase.id, cl.phase.want.value, true, c)
  }

  /** `send` returns the number it used. */
  function Deliver(w: World, p: Pid, id: nat, num: int): World
    requires IsClient(w, p)
  {
    SetClient(w, p, w.clients[p].(last := num, phase := Ready)).(returned := Push(w.returned, Receipt(p, id, num)))
  }

  function DoGreetFail(w: World, p: Pid): World
    requires CanGreet(w, p)
  {
    var cl := w.clients[p];
    SetClient(w, p, Raise(cl, Unreached(cl.phase.want)))
  }

  predicate CanReadReply(w: World, p: Pid) {
    Alive(w, p) && w.clients[p].phase.Sending? && IsLink(w, w.clients[p].phase.conn)
    && w.links[w.clients[p].phase.conn].outbox != []
  }

  /** The client looks only at the kind of reply: an ACK ends the call whatever number it names. */
  function DoReadReply(w: World, p: Pid): World
    requires CanReadReply(w, p)
  {
    var cl := w.clients[p];
    var c := cl.phase.conn;
    var w' := SetLink(w, c, w.links[c].(outbox := Rest(w.links[c].outbox)));
    match w.links[c].outbox[0]
    case Ack(_) => Deliver(w', p, cl.phase.id, cl.phase.num)
    case ErrNotOwner =>
      SetClient(w', p, Raise(cl.(sock := None), if cl.phase.retried then Some(RetryDisplaced) else None))
    case ErrGap(n) => SetClient(w', p, Raise(cl.(last := n - 1), None))
    case _ => SetClient(w', p, Raise(cl, None))
  }

  predicate CanIoFail(w: World, p: Pid) {
    Alive(w, p) && w.clients[p].phase.Sending?
  }

  /** The first failure reconnects; the second raises and keeps the socket. */
  function DoIoFail(w: World, p: Pid): World
    requires CanIoFail(w, p)
  {
    var cl := w.clients[p];
    SetClient(w, p,
              if cl.phase.retried then Raise(cl, Some(RetryLost))
              else cl.(sock := None, phase := Dialing(cl.phase.id, Some(cl.phase.num))))
  }

  predicate CanRenew(w: World, p: Pid) {
    Alive(w, p) && w.clients[p].phase.Ready?
  }

  /** The process drops its client and makes a new one; what it does not know stays unknown. */
  function DoRenew(w: World, p: Pid): World
    requires CanRenew(w, p)
  {
    SetClient(w, p, w.clients[p].(sock := None, last := 0))
  }

  // ----- the shim's connection threads ---------------------------------------------

  predicate CanClaim(w: World, c: Conn) {
    IsLink(w, c) && w.links[c].thread.AwaitHello? && IsClient(w, w.links[c].pid)
    && (w.core.owner.Some? && w.core.owner.value.conn.Some? ==> IsLink(w, w.core.owner.value.conn.value))
  }

  /** An accepted HELLO shuts the previous owner connection down, if that call succeeds (`cut`). */
  function DoClaim(w: World, c: Conn, cut: bool): World
    requires CanClaim(w, c)
  {
    var l := w.links[c];
    var k := w.core;
    if Blocker(k, k.owner.Some? && Alive(w, k.owner.value.pid), l.pid).Some? then
      SetLink(w, c, Put(l, Refused).(thread := Ended))
    else
      var w1 := if cut && k.owner.Some? && k.owner.value.conn.Some? && k.owner.value.conn != Some(c)
                then SetLink(w, k.owner.value.conn.value, w.links[k.owner.value.conn.value].(down := true))
                else w;
      var w2 := SetLink(w1, c, l.(thread := Claimed, claimed := true));
      SetClient(w2, l.pid, w.clients[l.pid].(joined := true)).(core := Claim(k, l.pid, c))
  }

  function DoSayOk(w: World, c: Conn): World
    requires IsLink(w, c)
  {
    SetLink(w, c, Put(w.links[c], Ok(w.core.lastSeq)).(thread := Idle))
  }

  predicate CanCheck(w: World, c: Conn) {
    IsLink(w, c) && w.links[c].thread.Idle? && w.links[c].inbox != []
  }

  function DoCheck(w: World, c: Conn): World
    requires CanCheck(w, c)
  {
    var l := w.links[c];
    var l' := l.(inbox := Rest(l.inbox));
    if IsOwner(w.core, c) then SetLink(w, c, l'.(thread := Checked(l.inbox[0])))
    else End(w, c, Put(l', ErrNotOwner))
  }

  predicate CanSample(w: World, c: Conn) {
    IsLink(w, c) && w.links[c].thread.Checked?
  }

  function DoSample(w: World, c: Conn): World
    requires CanSample(w, c)
  {
    var l := w.links[c];
    SetLink(w, c, l.(thread := Sampled(l.thread.frame, SenderOf(w.core, c))))
  }

  predicate CanDecide(w: World, c: Conn) {
    IsLink(w, c) && w.links[c].thread.Sampled? && w.core.writer.None?
  }

  function DoDecide(w: World, c: Conn): World
    requires CanDecide(w, c)
  {
    var l := w.links[c];
    var f := l.thread.frame;
    match Judge(w.core, c, l.thread.sender, f)
    case NotOwner => End(w, c, Put(l, ErrNotOwner))
    case Duplicate => SetLink(w, c, Put(l, Ack(f.num)).(thread := Idle))
    case Gap(n) => SetLink(w, c, Put(l, ErrGap(n)).(thread := Idle))
    case StdinClosed => SetLink(w, c, Put(l, ErrStdinClosed).(thread := Idle))
    case Write => SetLink(w, c, l.(thread := InLock)).(core := BeginWrite(w.core, c, l.thread.sender.value, f))
  }

  predicate Holds(w: World, c: Conn, flushed: bool) {
    IsLink(w, c) && w.core.writer.Some? && w.core.writer.value.conn == c && w.core.writer.value.flushed == flushed
  }

  function DoWritten(w: World, c: Conn): World
    requires Holds(w, c, false)
  {
    w.(core := Flush(w.core))
  }

  function DoWriteFails(w: World, c: Conn): World
    requires Holds(w, c, false)
  {
    SetLink(w, c, Put(w.links[c], ErrStdinClosed).(thread := Idle)).(core := BreakPipe(w.core))
  }

  predicate CanFinish(w: World, c: Conn) {
    Holds(w, c, true) && w.core.writer.value.frame.num >= 0
  }

  function DoFinish(w: World, c: Conn): World
    requires CanFinish(w, c)
  {
    var l := w.links[c];
    var w' := w.(core := Advance(w.core));
    if StillOurs(w.core) then SetLink(w', c, Put(l, Ack(w.core.writer.value.frame.num)).(thread := Idle))
    else End(w', c, Put(l, ErrNotOwner))
  }

  /** Any thread that is not blocked in its write may see its connection close. */
  predicate CanHangup(w: World, c: Conn) {
    IsLink(w, c) && !w.links[c].thread.InLock? && !w.links[c].thread.Ended?
  }

  // ----- runs ------------------------------------------------------------------------

  predicate Enabled(policy: Policy, w: World, e: Event) {
    match e
    case Boot => true
    case Die(p) => Alive(w, p)
    case StartSend(p) => CanStartSend(policy, w, p)
    case Dial(p) => CanDial(w, p)
    case DialFail(p) => CanDial(w, p)
    case GreetOk(p) => CanGreetOk(w, p)
    case GreetFail(p) => CanGreet(w, p)
    case ReadReply(p) => CanReadReply(w, p)
    case IoFail(p) => CanIoFail(w, p)
    case Renew(p) => CanRenew(w, p)
    case ClaimHello(c, _) => CanClaim(w, c)
    case SayOk(c) => IsLink(w, c) && w.links[c].thread.Claimed?
    case Check(c) => CanCheck(w, c)
    case Sample(c) => CanSample(w, c)
    case Decide(c) => CanDecide(w, c)
    case Written(c) => Holds(w, c, false)
    case WriteFails(c) => Holds(w, c, false)
    case Finish(c) => CanFinish(w, c)
    case Hangup(c) => CanHangup(w, c)
    case CloseStdinNow => w.core.writer.None?
  }

  function Apply(policy: Policy, w: World, e: Event): World
    requires Enabled(policy, w, e)
  {
    match e
    case Boot => w.(clients := w.clients + [Client(true, false, None, 0, Ready, None)])
    case Die(p) => SetClient(w, p, w.clients[p].(alive := false))
    case StartSend(p) => DoStartSend(w, p)
    case Dial(p) => DoDial(w, p)
    case DialFail(p) => DoDialFail(w, p)
    case GreetOk(p) => DoGreetOk(w, p)
    case GreetFail(p) => DoGreetFail(w, p)
    case ReadReply(p) => DoReadReply(w, p)
    case IoFail(p) => DoIoFail(w, p)
    case Renew(p) => DoRenew(w, p)
    case ClaimHello(c, cut) => DoClaim(w, c, cut)
    case SayOk(c) => DoSayOk(w, c)
    case Check(c) => DoCheck(w, c)
    case Sample(c) => DoSample(w, c)
    case Decide(c) => DoDecide(w, c)
    case Written(c) => DoWritten(w, c)
    case WriteFails(c) => DoWriteFails(w, c)
    case Finish(c) => DoFinish(w, c)
    case Hangup(c) => End(w, c, w.links[c])
    case CloseStdinNow => w.(core := CloseStdin(w.core))
  }

  /** A fresh shim; `owned` says whether its spec names the process that launched it (client 0). */
  function Start(owned: bool): World {
    World(Core(0, if owned then Some(Owner(0, None)) else None, false, None, [], []),
          [], [Client(true, owned, None, 0, Ready, None)], 0, [])
  }

  /** The world after the events `es`, or None when one of them could not have happened. */
  function Run(policy: Policy, w: World, es: seq<Event>): Option<World>
    decreases |es|
  {
    if es == [] then Some(w)
    else if Enabled(policy, w, es[0]) then Run(policy, Apply(policy, w, es[0]), es[1..])
    else None
  }

  // ----- what the protocol promises ----------------------------------------------------

  /** Everything written to the CLI by one process is written once, in the order of its calls. */
  predicate WrittenOnceInOrder(w: World) {
    forall i, j :: 0 <= i < j < |w.core.log| && w.core.log[i].pid == w.core.log[j].pid
      ==> w.core.log[i].frame.id < w.core.log[j].frame.id
  }

  /** The receipt's own payload reached the CLI, under the number the call returned. */
  predicate Honoured(w: World, r: Receipt) {
    Entry(r.pid, Frame(r.num, r.id)) in w.core.log
  }

  /** At one place in the CLI's input, and nowhere else, stands a payload of the receipt's call. */
  ghost predicate WrittenExactlyOnce(w: World, r: Receipt) {
    exists i :: 0 <= i < |w.core.log|
      && w.core.log[i] == Entry(r.pid, Frame(r.num, r.id))
      && forall j :: 0 <= j < |w.core.log| && j != i ==> !(w.core.log[j].pid == r.pid && w.core.log[j].frame.id == r.id)
  }

  predicate AllHonoured(w: World) {
    forall r :: r in w.returned ==> Honoured(w, r)
  }
}
