/**
 The supervisor shim's own state (mc/agent_shim.py): who owns it, how far the
 numbering of payloads has come, and who is writing to the CLI's stdin.

 Each function below is one critical section of the `Shim` class. The class at
 the end of the file performs the same sections on fields; its contracts tie it
 to the functions, and the protocol proofs are about the functions.
 */
module ShimCore {
  import opened Wrappers

  type Pid = nat
  type Conn = nat

  /** One payload on the wire. `id` stands for the bytes: it names the `send` call they belong to. */
  datatype Frame = Frame(num: int, id: nat)

  /** `conn` is None for an owner known only by its process (spec.json, or a closed connection). */
  datatype Owner = Owner(pid: Pid, conn: Option<Conn>)

  /** The holder of the send lock, from the moment its write starts until the lock is released. */
  datatype Writer = Writer(conn: Conn, frame: Frame, sender: Pid, flushed: bool)

  /** A payload the CLI has received, and the process that sent it. */
  datatype Entry = Entry(pid: Pid, frame: Frame)

  /** `log` is everything the CLI has received, in order; `numbered` the part that consumed a number. */
  datatype Core = Core(
    lastSeq: nat,
    owner: Option<Owner>,
    stdinClosed: bool,
    writer: Option<Writer>,
    log: seq<Entry>,
    numbered: seq<Entry>)

  datatype Verdict = NotOwner | Duplicate | Gap(expected: int) | StdinClosed | Write

  predicate IsOwner(k: Core, c: Conn) {
    k.owner.Some? && k.owner.value.conn == Some(c)
  }

  predicate HasLock(k: Core, c: Conn) {
    k.writer.Some? && k.writer.value.conn == c
  }

  predicate OwnedBy(k: Core, pid: Pid) {
    k.owner.Some? && k.owner.value.pid == pid
  }

  /** A live owner with a different pid blocks the claim; a dead one is displaced. */
  function Blocker(k: Core, ownerAlive: bool, pid: Pid): Option<Pid> {
    if k.owner.Some? && k.owner.value.pid != pid && ownerAlive then Some(k.owner.value.pid) else None
  }

  function Claim(k: Core, pid: Pid, c: Conn): Core {
    k.(owner := Some(Owner(pid, Some(c))))
  }

  /** The owner stays recorded by pid when its connection goes away. */
  function Release(k: Core, c: Conn): Core {
    if IsOwner(k, c) then k.(owner := Some(k.owner.value.(conn := None))) else k
  }

  /** The process a SEND is accounted to, sampled before its payload is read. */
  function SenderOf(k: Core, c: Conn): Option<Pid> {
    if IsOwner(k, c) then Some(k.owner.value.pid) else None
  }

  /** The decision taken under the send lock. */
  function Judge(k: Core, c: Conn, sender: Option<Pid>, f: Frame): Verdict {
    if sender.None? || !IsOwner(k, c) then NotOwner
    else if f.num <= k.lastSeq then Duplicate
    else if f.num != k.lastSeq + 1 then Gap(k.lastSeq + 1)
    else if k.stdinClosed then StdinClosed
    else Write
  }

  function BeginWrite(k: Core, c: Conn, sender: Pid, f: Frame): Core {
    k.(writer := Some(Writer(c, f, sender, false)))
  }

  /** The bytes have reached the CLI; the send lock is still held. */
  function Flush(k: Core): Core
    requires k.writer.Some?
  {
    var w := k.writer.value;
    k.(writer := Some(w.(flushed := true)), log := k.log + [Entry(w.sender, w.frame)])
  }

  function BreakPipe(k: Core): Core {
    k.(writer := None, stdinClosed := true)
  }

  /** Ownership is compared by pid: a reconnect of the same server keeps the number. */
  predicate StillOurs(k: Core)
    requires k.writer.Some?
  {
    OwnedBy(k, k.writer.value.sender)
  }

  function Advance(k: Core): Core
    requires k.writer.Some? && k.writer.value.frame.num >= 0
  {
    var w := k.writer.value;
    if StillOurs(k)
    then k.(writer := None, lastSeq := w.frame.num, numbered := k.numbered + [Entry(w.sender, w.frame)])
    else k.(writer := None)
  }

  function CloseStdin(k: Core): Core {
    k.(stdinClosed := true)
  }

  /** A writer's frame carries the next number: that is what let its write start. */
  predicate WriterNext(k: Core) {
    k.writer.Some? ==> k.writer.value.frame.num == k.lastSeq + 1
  }

  /**
   The shim as the source has it: fields updated in place under its locks. A
   method is one critical section, so `DoSend` appears as the sampling, the
   decision under the send lock, the write and the bookkeeping after it; other
   threads run between them.
   */
  class Shim {
    var lastSeq: nat
    var owner: Option<Owner>
    var stdinClosed: bool
    var writer: Option<Writer>
    /** The CLI has exited, and an owner has let go since: it saw the run out. */
    var exited: bool
    var collected: bool
    ghost var log: seq<Entry>
    ghost var numbered: seq<Entry>

    ghost function State(): Core
      reads this
    {
      Core(lastSeq, owner, stdinClosed, writer, log, numbered)
    }

    ghost predicate Valid()
      reads this
    {
      WriterNext(State())
    }

    constructor (specOwner: Option<Pid>)
      ensures Valid()
      ensures State() == Core(0, if specOwner.Some? then Some(Owner(specOwner.value, None)) else None,
                              false, None, [], [])
      ensures !exited && !collected
    {
      lastSeq := 0;
      owner := if specOwner.Some? then Some(Owner(specOwner.value, None)) else None;
      stdinClosed := false;
      writer := None;
      exited, collected := false, false;
      log, numbered := [], [];
    }

    method ClaimOwner(pid: Pid, c: Conn, ownerAlive: bool) returns (blocker: Option<Pid>)
      requires Valid()
      modifies this`owner
      ensures Valid()
      ensures blocker == Blocker(old(State()), ownerAlive, pid)
      ensures !ownerAlive || old(owner).None? || old(owner).value.pid == pid ==> owner == Some(Owner(pid, Some(c)))
      ensures ownerAlive && old(owner).Some? && old(owner).value.pid != pid ==>
        blocker == Some(old(owner).value.pid) && owner == old(owner)
      ensures State() == if blocker.Some? then old(State()) else Claim(old(State()), pid, c)
    {
      if owner.Some? && owner.value.pid != pid && ownerAlive {
        return Some(owner.value.pid);
      }
      owner := Some(Owner(pid, Some(c)));
      return None;
    }

    method ReleaseOwner(c: Conn)
      requires Valid()
      modifies this`owner, this`collected
      ensures Valid()
      ensures State() == Release(old(State()), c)
      ensures collected == (old(collected) || (IsOwner(old(State()), c) && exited))
    {
      if owner.Some? && owner.value.conn == Some(c) {
        owner := Some(Owner(owner.value.pid, None));
        if exited {
          collected := true;
        }
      }
    }

    /** The waiting thread has seen the CLI end and recorded it: who lets go from now on collects the run. */
    method CliExits()
      modifies this`exited
      ensures exited
    {
      exited := true;
    }

    method SampleSender(c: Conn) returns (sender: Option<Pid>)
      ensures sender == SenderOf(State(), c)
    {
      sender := if owner.Some? && owner.value.conn == Some(c) then Some(owner.value.pid) else None;
    }

    /** Runs with the send lock just taken; the lock stays held exactly when the verdict is Write. */
    method DecideSend(c: Conn, sender: Option<Pid>, f: Frame) returns (v: Verdict)
      requires Valid() && writer.None?
      modifies this`writer
      ensures Valid()
      ensures v == Judge(old(State()), c, sender, f)
      ensures v.Write? ==> sender.Some?
      ensures State() == if v.Write? then BeginWrite(old(State()), c, sender.value, f) else old(State())
    {
      if sender.None? || !(owner.Some? && owner.value.conn == Some(c)) {
        return NotOwner;
      }
      if f.num <= lastSeq {
        return Duplicate;
      }
      if f.num != lastSeq + 1 {
        return Gap(lastSeq + 1);
      }
      if stdinClosed {
        return StdinClosed;
      }
      writer := Some(Writer(c, f, sender.value, false));
      return Write;
    }

    /** The blocking write, when it returns. */
    method WriteReturns(ok: bool)
      requires Valid() && writer.Some? && !writer.value.flushed
      modifies this`log, this`writer, this`stdinClosed
      ensures Valid()
      ensures State() == if ok then Flush(old(State())) else BreakPipe(old(State()))
    {
      if ok {
        log := log + [Entry(writer.value.sender, writer.value.frame)];
        writer := Some(writer.value.(flushed := true));
      } else {
        stdinClosed := true;
        writer := None;
      }
    }

    /** After the write: keep the number only for the process that still owns the shim. */
    method FinishSend() returns (stillOurs: bool)
      requires Valid() && writer.Some? && writer.value.flushed
      modifies this`lastSeq, this`numbered, this`writer
      ensures Valid()
      ensures stillOurs == StillOurs(old(State()))
      ensures State() == Advance(old(State()))
    {
      stillOurs := owner.Some? && owner.value.pid == writer.value.sender;
      if stillOurs {
        lastSeq := writer.value.frame.num;
        numbered := numbered + [Entry(writer.value.sender, writer.value.frame)];
      }
      writer := None;
    }

    /** Takes the send lock, so it waits for a write in progress. */
    method CloseCliStdin()
      requires Valid() && writer.None?
      modifies this`stdinClosed
      ensures Valid()
      ensures State() == CloseStdin(old(State()))
    {
      if !stdinClosed {
        stdinClosed := true;
      }
    }
  }
}
