/**
 Checkpoints of a shim-run session (mc/agent_shim_adopt.py) and what a restart
 makes of them.

 A reader thread takes lines off a `LogTail` and applies them to the session,
 any number of other threads write checkpoints meanwhile, a replay writes the
 checkpoint of a completion that is owed back as it read it, without the stamp,
 the server may die at any step and a later one may adopt the session from the
 file on disk. The session is any type, `apply` is what handling one whole line
 does to it, and until a line is done its handling may leave the session in any
 state.
 */
module Checkpoint {
  import opened Wrappers
  import opened LogTail

  /** checkpoint.json: the consumed offset, the session, and whether the line in flight is behind the offset. */
  datatype Saved<S> = Saved(offset: nat, session: S, inflight: bool, owed: bool)

  /** `_LAST_OFFSET` of this process and launch, and the file on disk. */
  datatype Store<S> = Store(last: Option<nat>, disk: Option<Saved<S>>)

  predicate Stale<S>(st: Store<S>, ck: Saved<S>) {
    st.last.Some? && ck.offset < st.last.value
  }

  /** `build_checkpoint`: a forced checkpoint takes the offset past the line in flight. */
  function Snapshot<S>(offset: nat, committed: nat, session: S, owed: bool, inflight: bool): Saved<S> {
    Saved(if inflight then offset else committed, session, inflight, owed)
  }

  /** What one whole `write_checkpoint` does, given whether the boundary came in time and the write worked. */
  function Written<S>(st: Store<S>, ck: Saved<S>, boundary: bool, works: bool): (Store<S>, bool) {
    if boundary && !Stale(st, ck) && works then (Store(Some(ck.offset), Some(ck)), true) else (st, false)
  }

  class Checkpoints<S> {
    var last: Option<nat>
    var disk: Option<Saved<S>>

    ghost function State(): Store<S>
      reads this
    {
      Store(last, disk)
    }

    constructor (found: Option<Saved<S>>)
      ensures State() == Store(None, found)
    {
      last, disk := None, found;
    }

    method WriteCheckpoint(offset: nat, committed: nat, session: S, owed: bool, inflight: bool,
                           boundary: bool, works: bool) returns (wrote: bool)
      modifies this
      ensures (State(), wrote) ==
        Written(old(State()), Snapshot(offset, committed, session, owed, inflight), boundary, works)
      ensures
        var at := if inflight then offset else committed;
        && wrote == (boundary && works && (old(last).None? || old(last).value <= at))
        && (wrote ==> disk == Some(Saved(at, session, inflight, owed)) && last == Some(at))
        && (!wrote ==> disk == old(disk) && last == old(last))
    {
      if !boundary {
        return false;
      }
      var at := if inflight then offset else committed;
      if last.Some? && at < last.value {
        return false;
      }
      if !works {
        return false;
      }
      disk := Some(Saved(at, session, inflight, owed));
      last := Some(at);
      return true;
    }
  }

  // ----- the run of a session ---------------------------------------------------------

  /** What the session is made of: its log, its first state, the handling of a line, and whether it is in flight. */
  datatype Job<!S> = Job(file: Bytes, first: S, apply: (S, Bytes) -> S, busy: S -> bool)

  datatype Holder = Free | Reader | Writer

  /** The reader: asking for a line, having cut one, applying it, having asked again. */
  datatype Phase<S> = Asking | Waiting(line: Bytes) | Applying(line: Bytes, before: S) | Asked | Ended

  /** The checkpoint being written by whoever holds the boundary. */
  datatype Stage<S> = Idle | Started(inflight: bool) | Built(ck: Saved<S>) | Replaced(ck: Saved<S>)

  /**
   `read` is the checkpoint as a replay that is under way has read it. `wound`: after its
   last line some reader has begun to wind the session up, which it does without the boundary.
   */
  datatype World<S> = World(
    up: bool,
    offset: nat,
    committed: nat,
    phase: Phase<S>,
    session: S,
    owed: bool,
    holder: Holder,
    stage: Stage<S>,
    store: Store<S>,
    read: Option<Saved<S>>,
    wound: bool)

  datatype Event<S> =
    | Cut
    | HandOut
    | Handle(to: S, owed: bool)
    | Ask
    | Release
    | End
    | Wind(to: S, owed: bool)
    | Start(inflight: bool)
    | Force
    | Build
    | Drop
    | Replace
    | Fail
    | Record
    | Crash
    | Adopt
    | ReplayRead
    | ReplayFails
    | ReplayClear

  function Fresh<S>(at: nat, session: S, disk: Option<Saved<S>>): World<S> {
    World(true, at, at, Asking, session, false, Free, Idle, Store(None, disk), None, false)
  }

  function Init<S>(j: Job<S>): World<S> {
    Fresh(0, j.first, None)
  }

  function NextLines(file: Bytes, at: nat): seq<Bytes> {
    if at <= |file| then Split(file[at..]) else []
  }

  /**
   What a caller may or may not see to. `inflights`: a checkpoint with the line in
   flight behind its offset may be adopted. `lateAcks`, `lateBegins`: a forced
   checkpoint without a stamp (an `ack`), or with one (a `begin`), is only taken once
   the line's handling is complete. `overlaps`: a checkpoint may land while a replay
   is under way. The source adopts, does not wait, and lets them land.
   */
  datatype Policy = Policy(inflights: bool, lateAcks: bool, lateBegins: bool, overlaps: bool)

  const SOURCE := Policy(true, false, false, true)

  /** What `assess` asks of the checkpoint on disk. */
  predicate Adoptable<S>(j: Job<S>, disk: Option<Saved<S>>, policy: Policy) {
    && disk.Some? && !disk.value.owed && disk.value.offset <= |j.file| && j.busy(disk.value.session)
    && (disk.value.inflight ==> policy.inflights)
  }

  ghost predicate Enabled<S>(j: Job<S>, policy: Policy, w: World<S>, e: Event<S>) {
    match e
    case Crash => true
    case Adopt => !w.up && Adoptable(j, w.store.disk, policy)
    case Cut => w.up && w.phase == Asking && NextLines(j.file, w.offset) != []
    case HandOut => w.up && w.phase.Waiting? && w.holder == Free
    case Handle(_, _) => w.up && w.phase.Applying? && w.stage == Idle
    case Ask => w.up && w.phase.Applying? && w.stage == Idle && w.session == j.apply(w.phase.before, w.phase.line)
    case Release => w.up && w.phase == Asked
    case End => w.up && w.phase == Asking && w.offset == |j.file|
    case Wind(_, _) => w.up && w.phase == Ended
    case Start(_) => w.up && w.holder == Free
    case Force => w.up && w.phase.Applying? && w.stage == Idle
    case Build =>
      && w.up && w.stage.Started?
      && (w.phase.Applying? && (if w.owed then policy.lateBegins else policy.lateAcks) ==>
            w.session == j.apply(w.phase.before, w.phase.line))
    case Drop => w.up && w.stage.Built? && Stale(w.store, w.stage.ck)
    case Replace =>
      w.up && w.stage.Built? && !Stale(w.store, w.stage.ck) && (w.read.Some? ==> policy.overlaps)
    case Fail => w.up && (w.stage.Started? || w.stage.Built?)
    case Record => w.up && w.stage.Replaced?
    case ReplayRead => w.read.None? && w.store.disk.Some? && w.store.disk.value.owed
    case ReplayFails => w.read.Some?
    case ReplayClear => w.read.Some?
  }

  /** A writer gives the boundary back; the reader's own forced checkpoint only leaves the inner level of it. */
  function Leave<S>(w: World<S>): World<S> {
    w.(stage := Idle, holder := if w.holder == Writer then Free else w.holder)
  }

  ghost function Apply<S>(j: Job<S>, policy: Policy, w: World<S>, e: Event<S>): World<S>
    requires Enabled(j, policy, w, e)
  {
    match e
    case Crash => w.(up := false, read := None)
    case Adopt =>
      Fresh(w.store.disk.value.offset, w.store.disk.value.session, w.store.disk).(read := w.read, wound := w.wound)
    case Cut => w.(phase := Waiting(NextLines(j.file, w.offset)[0]))
    case HandOut =>
      w.(holder := Reader, offset := w.offset + |w.phase.line|, phase := Applying(w.phase.line, w.session))
    case Handle(to, owed) => w.(session := to, owed := owed)
    case Ask => w.(committed := w.offset, phase := Asked)
    case Release => w.(holder := Free, phase := Asking)
    case End => w.(phase := Ended)
    case Wind(to, owed) => w.(session := to, owed := owed, wound := true)
    case Start(inflight) => w.(holder := Writer, stage := Started(inflight))
    case Force => w.(stage := Started(true))
    case Build => w.(stage := Built(Snapshot(w.offset, w.committed, w.session, w.owed, w.stage.inflight)))
    case Drop => Leave(w)
    case Replace => w.(store := w.store.(disk := Some(w.stage.ck)), stage := Replaced(w.stage.ck))
    case Fail => Leave(w)
    case Record => Leave(w.(store := w.store.(last := Some(w.stage.ck.offset))))
    case ReplayRead => w.(read := w.store.disk)
    case ReplayFails => w.(read := None)
    case ReplayClear => w.(store := w.store.(disk := Some(w.read.value.(owed := false))), read := None)
  }

  /** The state after `es`, if every step of it can be taken. */
  ghost function Run<S>(j: Job<S>, policy: Policy, es: seq<Event<S>>): Option<World<S>> {
    if es == [] then Some(Init(j))
    else
      var w := Run(j, policy, es[..|es| - 1]);
      if w.Some? && Enabled(j, policy, w.value, es[|es| - 1])
      then Some(Apply(j, policy, w.value, es[|es| - 1]))
      else None
  }

  /**
   While the reader holds the boundary, or another writer does, no such call can start; it
   leaves disk and registry as they were.
   */
  lemma {:induction false} BusyBoundaryRefuses<S>(j: Job<S>, policy: Policy, w: World<S>, inflight: bool, works: bool)
    requires w.holder != Free
    ensures !Enabled(j, policy, w, Start(inflight))
    ensures
      var ck := Snapshot(w.offset, w.committed, w.session, w.owed, inflight);
      Written(w.store, ck, false, works) == (w.store, false)
  {
  }

  /** A call of `write_checkpoint` by another thread is these steps of the run, whether it works or fails. */
  lemma {:induction false} WriteIsItsSteps<S>(j: Job<S>, policy: Policy, w: World<S>, inflight: bool)
    requires w.up && w.holder == Free && w.stage == Idle && !w.phase.Applying?
    requires w.read.Some? ==> policy.overlaps
    ensures
      var ck := Snapshot(w.offset, w.committed, w.session, w.owed, inflight);
      && Enabled(j, policy, w, Start(inflight))
      && var w1 := Apply(j, policy, w, Start(inflight));
      && Enabled(j, policy, w1, Build)
      && var w2 := Apply(j, policy, w1, Build);
      && (Enabled(j, policy, w2, Drop) <==> !Written(w.store, ck, true, true).1)
      && (Enabled(j, policy, w2, Drop) ==> Apply(j, policy, w2, Drop) == w)
      && (!Enabled(j, policy, w2, Drop) ==>
            && Enabled(j, policy, w2, Replace)
            && var w3 := Apply(j, policy, w2, Replace);
            && Enabled(j, policy, w3, Record)
            && Apply(j, policy, w3, Record) == w.(store := Written(w.store, ck, true, true).0))
      && Enabled(j, policy, w1, Fail) && Apply(j, policy, w1, Fail) == w
      && Enabled(j, policy, w2, Fail) && Apply(j, policy, w2, Fail) == w.(store := Written(w.store, ck, true, false).0)
  {
  }
}
