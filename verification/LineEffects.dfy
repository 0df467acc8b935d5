/**
 One effect per log line (mc/agent_shim_completion.py with the checkpoints and the
 adoption of mc/agent_shim_adopt.py): a reader that crashes and is adopted reads lines
 again, and gives each reading a new stamp. When is the completion of a line still
 carried out exactly once?

 Lines are numbered, and every one of them has a completion. A forced checkpoint is
 behind the line being handled; the others are taken between lines. One launch, and
 replays at any time, in steps: a replay reads the checkpoint, runs the completion, and
 writes the checkpoint back as it was read, without the stamp, while the reader goes on.
 (Module Completion is about the records of later launches.)
 */
module LineEffects {
  import opened Wrappers

  datatype Stamp = Stamp(id: nat, line: nat)

  /** checkpoint.json: the lines before `offset` are done with, but for the one that is stamped. */
  datatype Disk = Disk(offset: nat, stamp: Option<Stamp>)

  /**
   `next` is the line being handled, or the next one; `landed`: its stamp has reached
   the disk. `read` is the checkpoint as a replay has read it, and `ran` tells that its
   runner has reported success. `rows`: the durable effects. Ids from `unused` on are fresh.
   */
  datatype World = World(
    up: bool,
    next: nat,
    handling: bool,
    landed: bool,
    stamp: Option<Stamp>,
    disk: Disk,
    read: Option<Disk>,
    ran: bool,
    rows: seq<Stamp>,
    unused: nat)

  datatype Event =
    | Begin(lands: bool)
    | Effect
    | Ack(lands: bool)
    | Owe
    | Checkpoint
    | Crash
    | Adopt
    | ReplayRead
    | ReplayRun(durable: bool, done: bool)
    | ReplayClear(lands: bool)

  /**
   What a caller can tell beforehand and the source does not test: an effect is carried
   out although the stamp for it has not reached the disk (`begin` only logs that); a
   session that carries a stamp is given another one; a checkpoint is written while a
   replay is under way.
   */
  datatype Lapse = EffectUnlanded | BeginOverStamp | WriteDuringReplay

  type Policy = set<Lapse>

  const CAREFUL: Policy := {}

  const INIT := World(true, 0, false, false, None, Disk(0, None), None, false, [], 0)

  predicate Ran(rows: seq<Stamp>, id: nat) {
    exists r :: r in rows && r.id == id
  }

  /** Runners are idempotent per stamp, not per line. */
  function RunOnce(rows: seq<Stamp>, s: Stamp): seq<Stamp> {
    if Ran(rows, s.id) then rows else rows + [s]
  }

  predicate Writes(e: Event) {
    e.Checkpoint? || (e.Begin? && e.lands) || (e.Ack? && e.lands)
  }

  predicate Enabled(policy: Policy, w: World, e: Event) {
    (Writes(e) && w.read.Some? ==> WriteDuringReplay in policy) &&
    match e
    case Begin(_) => w.up && !w.handling && (w.stamp.Some? ==> BeginOverStamp in policy)
    case Effect => w.up && w.handling && w.stamp.Some? && (!w.landed ==> EffectUnlanded in policy)
    case Ack(_) => w.up && w.handling && w.stamp.Some? && Ran(w.rows, w.stamp.value.id)
    case Owe => w.up && w.handling
    case Checkpoint => w.up && !w.handling
    case Crash => true
    case Adopt => !w.up && w.disk.stamp.None?
    case ReplayRead => w.read.None? && w.disk.stamp.Some?
    case ReplayRun(durable, done) => w.read.Some? && w.read.value.stamp.Some? && !w.ran && (done ==> durable)
    case ReplayClear(_) => w.read.Some? && w.ran
  }

  function Apply(policy: Policy, w: World, e: Event): World
    requires Enabled(policy, w, e)
  {
    match e
    case Begin(lands) =>
      var s := Stamp(w.unused, w.next);
      w.(stamp := Some(s), unused := w.unused + 1, handling := true, landed := lands,
         disk := if lands then Disk(w.next + 1, Some(s)) else w.disk)
    case Effect => w.(rows := RunOnce(w.rows, w.stamp.value))
    case Ack(lands) =>
      w.(stamp := None, handling := false, next := w.next + 1,
         disk := if lands then Disk(w.next + 1, None) else w.disk)
    case Owe => w.(handling := false, next := w.next + 1)
    case Checkpoint => w.(disk := Disk(w.next, w.stamp))
    case Crash => w.(up := false, stamp := None, handling := false, read := None, ran := false)
    case Adopt => w.(up := true, next := w.disk.offset)
    case ReplayRead => w.(read := Some(w.disk), ran := false)
    case ReplayRun(durable, done) =>
      w.(rows := if durable then RunOnce(w.rows, w.read.value.stamp.value) else w.rows,
         read := if done then w.read else None,
         ran := done)
    case ReplayClear(lands) =>
      w.(disk := if lands then w.read.value.(stamp := None) else w.disk, read := None, ran := false)
  }

  function Run(policy: Policy, es: seq<Event>): Option<World> {
    if es == [] then Some(INIT)
    else
      var w := Run(policy, es[..|es| - 1]);
      if w.Some? && Enabled(policy, w.value, es[|es| - 1]) then Some(Apply(policy, w.value, es[|es| - 1])) else None
  }

  // ----- exactly once ---------------------------------------------------------------------------

  predicate HasRow(rows: seq<Stamp>, line: nat) {
    exists i :: 0 <= i < |rows| && rows[i].line == line
  }

  predicate AtMostOnce(rows: seq<Stamp>) {
    forall i, j :: 0 <= i < j < |rows| ==> rows[i].line != rows[j].line
  }

  predicate IsFor(s: Option<Stamp>, line: nat) {
    s.Some? && s.value.line == line
  }

  /** No line has two effects, and each line that a restart would not read again has one, or its stamp is on disk. */
  predicate ExactlyOnce(w: World) {
    AtMostOnce(w.rows) && forall line :: 0 <= line < w.disk.offset ==> HasRow(w.rows, line) || IsFor(w.disk.stamp, line)
  }

  /** A row for the stamp's line is the stamp's own. */
  predicate OwnRow(rows: seq<Stamp>, s: Option<Stamp>) {
    s.Some? ==> forall i :: 0 <= i < |rows| ==> (rows[i].line == s.value.line <==> rows[i].id == s.value.id)
  }

  predicate Settled(rows: seq<Stamp>, s: Option<Stamp>) {
    s.Some? ==> HasRow(rows, s.value.line)
  }

  predicate ReaderShape(w: World) {
    && (w.handling ==> w.stamp.Some? && w.stamp.value.line == w.next)
    && (w.handling && w.landed ==> w.disk.offset == w.next + 1 && (w.disk.stamp == w.stamp || HasRow(w.rows, w.next)))
    && (w.handling && !w.landed ==> w.disk.offset <= w.next)
    && (!w.handling ==> w.disk.offset <= w.next)
    && (!w.handling && w.stamp.Some? ==> w.stamp.value.line < w.next)
    && (w.disk.stamp == w.stamp || Settled(w.rows, w.disk.stamp))
    && (forall line :: 0 <= line < w.next ==> HasRow(w.rows, line) || IsFor(w.stamp, line))
  }

  predicate Sound(w: World) {
    && ExactlyOnce(w)
    && (forall i :: 0 <= i < |w.rows| ==> w.rows[i].line < w.disk.offset && w.rows[i].id < w.unused)
    && (w.disk.stamp.Some? ==> w.disk.stamp.value.line < w.disk.offset && w.disk.stamp.value.id < w.unused)
    && (w.stamp.Some? ==> w.stamp.value.id < w.unused)
    && OwnRow(w.rows, w.disk.stamp) && OwnRow(w.rows, w.stamp)
    && (w.up ==> ReaderShape(w))
    && (!w.up ==> w.stamp.None? && !w.handling)
    && (w.read.Some? ==> w.read == Some(w.disk) && w.disk.stamp.Some?)
    && (w.ran ==> w.read.Some? && Settled(w.rows, w.disk.stamp))
  }

  /** The effect of a stamp whose line has no row but its own: afterwards it has exactly that. */
  lemma {:induction false} RunsOnce(rows: seq<Stamp>, s: Stamp)
    requires AtMostOnce(rows) && OwnRow(rows, Some(s))
    ensures
      var rows' := RunOnce(rows, s);
      && AtMostOnce(rows') && OwnRow(rows', Some(s)) && HasRow(rows', s.line)
      && (forall line: nat :: HasRow(rows, line) ==> HasRow(rows', line))
      && (forall i :: 0 <= i < |rows'| ==> rows'[i] in rows || rows'[i] == s)
  {
    var rows' := RunOnce(rows, s);
    forall line: nat | HasRow(rows, line)
      ensures HasRow(rows', line)
    {
      var i :| 0 <= i < |rows| && rows[i].line == line;
      assert rows'[i] == rows[i];
    }
    if Ran(rows, s.id) {
      var r :| r in rows && r.id == s.id;
      var i :| 0 <= i < |rows| && rows[i] == r;
    } else {
      forall i | 0 <= i < |rows|
        ensures rows[i].line != s.line
      {
        assert rows[i] in rows;
      }
      assert rows'[|rows|] == s;
    }
  }

  lemma {:induction false} SoundBegin(w: World, lands: bool)
    requires Sound(w) && Enabled(CAREFUL, w, Begin(lands))
    ensures Sound(Apply(CAREFUL, w, Begin(lands)))
  {
  }

  lemma {:induction false} SoundEffect(w: World)
    requires Sound(w) && Enabled(CAREFUL, w, Effect)
    ensures Sound(Apply(CAREFUL, w, Effect))
  {
    RunsOnce(w.rows, w.stamp.value);
  }

  lemma {:induction false} SoundReplayRun(w: World, durable: bool, done: bool)
    requires Sound(w) && Enabled(CAREFUL, w, ReplayRun(durable, done))
    ensures Sound(Apply(CAREFUL, w, ReplayRun(durable, done)))
  {
    RunsOnce(w.rows, w.disk.stamp.value);
  }

  lemma {:induction false} SoundReplayClear(w: World, lands: bool)
    requires Sound(w) && Enabled(CAREFUL, w, ReplayClear(lands))
    ensures Sound(Apply(CAREFUL, w, ReplayClear(lands)))
  {
  }

  lemma {:induction false} SoundAck(w: World, lands: bool)
    requires Sound(w) && Enabled(CAREFUL, w, Ack(lands))
    ensures Sound(Apply(CAREFUL, w, Ack(lands)))
  {
    var r :| r in w.rows && r.id == w.stamp.value.id;
    var i :| 0 <= i < |w.rows| && w.rows[i] == r;
    assert HasRow(w.rows, w.next);
  }

  lemma {:induction false} SoundStep(w: World, e: Event)
    requires Sound(w) && Enabled(CAREFUL, w, e)
    ensures Sound(Apply(CAREFUL, w, e))
  {
    match e
    case Begin(lands) => SoundBegin(w, lands);
    case Effect => SoundEffect(w);
    case Ack(lands) => SoundAck(w, lands);
    case ReplayRun(durable, done) => SoundReplayRun(w, durable, done);
    case ReplayClear(lands) => SoundReplayClear(w, lands);
    case _ =>
  }

  lemma {:induction false} SoundRun(es: seq<Event>)
    requires Run(CAREFUL, es).Some?
    ensures Sound(Run(CAREFUL, es).value)
  {
    if es != [] {
      SoundRun(es[..|es| - 1]);
      SoundStep(Run(CAREFUL, es[..|es| - 1]).value, es[|es| - 1]);
    }
  }

  // ----- what gets done --------------------------------------------------------------------------

  lemma {:induction false} Then(policy: Policy, es: seq<Event>, e: Event)
    requires Run(policy, es).Some? && Enabled(policy, Run(policy, es).value, e)
    ensures Run(policy, es + [e]) == Some(Apply(policy, Run(policy, es).value, e))
  {
    assert (es + [e])[..|es|] == es;
  }

  /** A line that nothing disturbs has its effect, and the next checkpoint is behind it. */
  lemma {:induction false} LineIsDone(es: seq<Event>)
    requires Run(CAREFUL, es).Some?
    requires var w := Run(CAREFUL, es).value; w.up && !w.handling && w.stamp.None? && w.read.None?
    ensures
      var w, r := Run(CAREFUL, es).value, Run(CAREFUL, es + [Begin(true)] + [Effect] + [Ack(true)]);
      && r.Some? && r.value.up && !r.value.handling && r.value.stamp.None? && r.value.read.None?
      && r.value.next == w.next + 1 && r.value.disk == Disk(w.next + 1, None) && HasRow(r.value.rows, w.next)
  {
    var one, two := es + [Begin(true)], es + [Begin(true)] + [Effect];
    Then(CAREFUL, es, Begin(true));
    SoundRun(one);
    var w1 := Run(CAREFUL, one).value;
    Then(CAREFUL, one, Effect);
    RunsOnce(w1.rows, w1.stamp.value);
    RanOnce(w1.rows, w1.stamp.value);
    Then(CAREFUL, two, Ack(true));
  }

  lemma {:induction false} RanOnce(rows: seq<Stamp>, s: Stamp)
    ensures Ran(RunOnce(rows, s), s.id)
  {
    assert !Ran(rows, s.id) ==> (rows + [s])[|rows|] == s;
  }

  /** So has the line in flight at a crash, once its stamp is replayed; and the reader goes on behind it. */
  lemma {:induction false} RestartFinishes(es: seq<Event>)
    requires Run(CAREFUL, es).Some?
    requires var w := Run(CAREFUL, es).value; !w.up && w.read.None? && w.disk.stamp.Some?
    ensures
      var w := Run(CAREFUL, es).value;
      var r := Run(CAREFUL, es + [ReplayRead] + [ReplayRun(true, true)] + [ReplayClear(true)] + [Adopt]);
      && r.Some? && r.value.up && r.value.next == w.disk.offset
      && r.value.disk == Disk(w.disk.offset, None) && HasRow(r.value.rows, w.disk.stamp.value.line)
  {
    var one, two := es + [ReplayRead], es + [ReplayRead] + [ReplayRun(true, true)];
    SoundRun(es);
    var w := Run(CAREFUL, es).value;
    Then(CAREFUL, es, ReplayRead);
    Then(CAREFUL, one, ReplayRun(true, true));
    RunsOnce(w.rows, w.disk.stamp.value);
    Then(CAREFUL, two, ReplayClear(true));
    Then(CAREFUL, two + [ReplayClear(true)], Adopt);
  }

  /** A replay whose runner does not succeed, or whose write does not land, leaves the checkpoint as it was. */
  lemma {:induction false} FailedReplayLeaves(policy: Policy, es: seq<Event>, durable: bool)
    requires Run(policy, es).Some?
    requires var w := Run(policy, es).value; w.read.None? && w.disk.stamp.Some?
    ensures
      var w := Run(policy, es).value;
      var failed := Run(policy, es + [ReplayRead] + [ReplayRun(durable, false)]);
      var unlanded := Run(policy, es + [ReplayRead] + [ReplayRun(true, true)] + [ReplayClear(false)]);
      && failed.Some? && failed.value.disk == w.disk && failed.value.read.None?
      && (!durable ==> failed.value.rows == w.rows)
      && unlanded.Some? && unlanded.value.disk == w.disk && unlanded.value.read.None?
  {
    Then(policy, es, ReplayRead);
    Then(policy, es + [ReplayRead], ReplayRun(durable, false));
    Then(policy, es + [ReplayRead], ReplayRun(true, true));
    Then(policy, es + [ReplayRead] + [ReplayRun(true, true)], ReplayClear(false));
  }

  /** Between lines a checkpoint saves the place, and the stamp if one is still owed. */
  lemma {:induction false} CheckpointSaves(policy: Policy, es: seq<Event>)
    requires Run(policy, es).Some?
    requires var w := Run(policy, es).value; w.up && !w.handling && w.read.None?
    ensures
      var w, r := Run(policy, es).value, Run(policy, es + [Checkpoint]);
      r.Some? && r.value == w.(disk := Disk(w.next, w.stamp))
  {
    Then(policy, es, Checkpoint);
  }

  // ----- exactly when ---------------------------------------------------------------------------

  ghost predicate AllOnce(policy: Policy) {
    forall es :: Run(policy, es).Some? ==> ExactlyOnce(Run(policy, es).value)
  }

  const FIRST := Stamp(0, 0)
  const SECOND := Stamp(1, 1)

  /** A reader that comes to a line which has had its effect gives it a new stamp and repeats it. */
  lemma {:induction false} RepeatsFrom(policy: Policy, es: seq<Event>, i: nat)
    requires Run(policy, es).Some?
    requires
      var w := Run(policy, es).value;
      && w.up && !w.handling && w.stamp.None? && w.read.None?
      && i < |w.rows| && w.rows[i].line == w.next && forall r :: r in w.rows ==> r.id < w.unused
    ensures !AllOnce(policy)
  {
    var w := Run(policy, es).value;
    Then(policy, es, Begin(true));
    var es' := es + [Begin(true)];
    Then(policy, es', Effect);
    es' := es' + [Effect];
    var rows := Run(policy, es').value.rows;
    assert rows == w.rows + [Stamp(w.unused, w.next)];
    assert rows[i].line == rows[|w.rows|].line;
  }

  /** The stamp does not land, the effect does, the server dies: the line is read again and its effect repeated. */
  lemma {:induction false} UnlandedEffectRepeats(policy: Policy)
    requires EffectUnlanded in policy
    ensures !AllOnce(policy)
  {
    var es := [];
    Then(policy, es, Begin(false)); es := es + [Begin(false)];
    Then(policy, es, Effect); es := es + [Effect];
    assert INIT.rows + [FIRST] == [FIRST];
    Then(policy, es, Crash); es := es + [Crash];
    Then(policy, es, Adopt); es := es + [Adopt];
    assert Run(policy, es) == Some(World(true, 0, false, false, None, Disk(0, None), None, false, [FIRST], 1));
    RepeatsFrom(policy, es, 0);
  }

  lemma {:induction false} ReplayedFirst(policy: Policy) returns (es: seq<Event>)
    ensures
      var disk := Disk(1, Some(FIRST));
      Run(policy, es) == Some(World(true, 1, false, true, None, disk, Some(disk), true, [FIRST], 1))
  {
    es := [];
    Then(policy, es, Begin(true)); es := es + [Begin(true)];
    Then(policy, es, ReplayRead); es := es + [ReplayRead];
    Then(policy, es, ReplayRun(true, true)); es := es + [ReplayRun(true, true)];
    assert INIT.rows + [FIRST] == [FIRST];
    Then(policy, es, Ack(false)); es := es + [Ack(false)];
  }

  /** The replay of one line's completion puts the checkpoint back to before the next line, which has had its effect. */
  lemma {:induction false} WriteDuringReplayRepeats(policy: Policy)
    requires WriteDuringReplay in policy
    ensures !AllOnce(policy)
  {
    var es := ReplayedFirst(policy);
    var disk := Disk(1, Some(FIRST));
    Then(policy, es, Begin(true)); es := es + [Begin(true)];
    Then(policy, es, Effect); es := es + [Effect];
    assert [FIRST] + [SECOND] == [FIRST, SECOND];
    assert Run(policy, es) == Some(
      World(true, 1, true, true, Some(SECOND), Disk(2, Some(SECOND)), Some(disk), true, [FIRST, SECOND], 2));
    ReplayedOver(policy, es);
  }

  lemma {:induction false} ReplayedOver(policy: Policy, es: seq<Event>)
    requires
      Run(policy, es) == Some(World(true, 1, true, true, Some(SECOND), Disk(2, Some(SECOND)),
                                    Some(Disk(1, Some(FIRST))), true, [FIRST, SECOND], 2))
    ensures !AllOnce(policy)
  {
    Then(policy, es, ReplayClear(true));
    var es' := es + [ReplayClear(true)];
    Then(policy, es', Crash); es' := es' + [Crash];
    Then(policy, es', Adopt); es' := es' + [Adopt];
    assert Run(policy, es').value.rows == [FIRST, SECOND];
    RepeatsFrom(policy, es', 1);
  }

  /** A wake that stays owed, and the next line's `begin`: the first line's stamp is on no record any more. */
  lemma {:induction false} SecondStampLoses(policy: Policy)
    requires BeginOverStamp in policy
    ensures !AllOnce(policy)
  {
    var es := [];
    Then(policy, es, Begin(true)); es := es + [Begin(true)];
    Then(policy, es, Owe); es := es + [Owe];
    Then(policy, es, Begin(true)); es := es + [Begin(true)];
    var w := Run(policy, es).value;
    assert w.disk == Disk(2, Some(Stamp(1, 1))) && w.rows == [];
    assert !HasRow(w.rows, 0) && !IsFor(w.disk.stamp, 0);
  }

  /**
   In every run, over any crashes, adoptions and replays, each line has at most one
   effect, and has one or is still stamped on disk once no restart would read it again,
   exactly if effects wait for their stamp to land, nothing stamps over a stamp, and
   nothing is written while a replay is under way.
   */
  lemma {:induction false} ExactlyOncePerLineIff(policy: Policy)
    ensures AllOnce(policy) <==> policy == CAREFUL
  {
    if policy == CAREFUL {
      forall es | Run(policy, es).Some?
        ensures ExactlyOnce(Run(policy, es).value)
      {
        SoundRun(es);
      }
    } else {
      var lapse :| lapse in policy;
      match lapse
      case EffectUnlanded => UnlandedEffectRepeats(policy);
      case BeginOverStamp => SecondStampLoses(policy);
      case WriteDuringReplay => WriteDuringReplayRepeats(policy);
    }
  }
}
