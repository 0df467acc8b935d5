/**
 The write-ahead record of a completion that is still owed
 (mc/agent_shim_completion.py): a stamp is put on the session and on disk before
 the completion's effect, and taken off once the effect is durable; a boot
 replays whatever stamp it finds on disk.
 */
module Completion {
  import opened Wrappers

  /** `Other` is any kind the replay has no runner for. */
  datatype Kind = Exit | Turn | Other

  datatype Stamp = Stamp(id: nat, kind: Kind)

  /** The session's own stamp, and the one in checkpoint.json. */
  datatype Record = Record(stamp: Option<Stamp>, disk: Option<Stamp>)

  function Stamped(r: Record, s: Stamp, lands: bool): Record {
    Record(Some(s), if lands then Some(s) else r.disk)
  }

  function Acked(r: Record, owed: bool, lands: bool): Record {
    if r.stamp.None? || owed then r else Record(None, if lands then None else r.disk)
  }

  /** What running one completion came to. */
  datatype Outcome = Raised | Said(done: bool)

  predicate Clears(disk: Option<Stamp>, run: Outcome, lands: bool) {
    disk.Some? && disk.value.kind != Other && run == Said(true) && lands
  }

  class Completions {
    var stamp: Option<Stamp>
    var disk: Option<Stamp>

    ghost function State(): Record
      reads this
    {
      Record(stamp, disk)
    }

    constructor (found: Option<Stamp>)
      ensures State() == Record(None, found)
    {
      stamp, disk := None, found;
    }

    /** `begin`: `on` when the session runs under a shim and the flag is on, `id` a fresh one. */
    method Begin(id: nat, kind: Kind, on: bool, lands: bool) returns (r: Option<nat>)
      modifies this
      ensures State() == if on then Stamped(old(State()), Stamp(id, kind), lands) else old(State())
      ensures r == if on then Some(id) else None
      ensures stamp == if on then Some(Stamp(id, kind)) else old(stamp)
      ensures disk == if on && lands then stamp else old(disk)
    {
      if !on {
        return None;
      }
      stamp := Some(Stamp(id, kind));
      if lands {
        disk := stamp;
      }
      return Some(id);
    }

    method Ack(owed: bool, lands: bool) returns (wrote: bool)
      modifies this
      ensures State() == Acked(old(State()), owed, lands)
      ensures wrote == (old(stamp).Some? && !owed && lands)
      ensures disk == (if wrote then None else old(disk)) && stamp == if owed then old(stamp) else None
    {
      if stamp.None? {
        return false;
      }
      if owed {
        return false;
      }
      stamp := None;
      if lands {
        disk := None;
      }
      return lands;
    }
  }

  /**
   `replay_pending`: one pass over the session directories. `disks[k]` is the stamp
   found in directory `k`; its completion is run and, if that reports success, the
   stamp is cleared. Nothing else is touched.
   */
  method ReplayPending(disks: array<Option<Stamp>>, only: Option<set<nat>>, runs: seq<Outcome>, lands: seq<bool>)
    returns (replayed: set<nat>, retained: set<nat>)
    requires |runs| == |lands| == disks.Length
    modifies disks
    ensures forall k :: 0 <= k < disks.Length ==>
      disks[k] ==
      if (only.None? || k in only.value)
         && old(disks[k]).Some? && old(disks[k]).value.kind != Other && runs[k] == Said(true) && lands[k]
      then None else old(disks[k])
    ensures replayed == set k: nat | k < disks.Length && old(disks[k]).Some? && disks[k].None?
    ensures retained == set k: nat | k < disks.Length && (only.None? || k in only.value) && disks[k].Some?
  {
    replayed, retained := {}, {};
    var d := 0;
    while d < disks.Length
      invariant 0 <= d <= disks.Length
      invariant forall k :: d <= k < disks.Length ==> disks[k] == old(disks[k])
      invariant forall k :: 0 <= k < d ==>
        disks[k] ==
        if (only.None? || k in only.value)
           && old(disks[k]).Some? && old(disks[k]).value.kind != Other && runs[k] == Said(true) && lands[k]
        then None else old(disks[k])
      invariant replayed == set k: nat | k < d && old(disks[k]).Some? && disks[k].None?
      invariant retained == set k: nat | k < d && (only.None? || k in only.value) && disks[k].Some?
    {
      if (only.None? || d in only.value) && disks[d].Some? {
        if disks[d].value.kind == Other {
          retained := retained + {d};
        } else if runs[d] != Said(true) {
          retained := retained + {d};
        } else if !lands[d] {
          retained := retained + {d};
        } else {
          disks[d] := None;
          replayed := replayed + {d};
        }
      }
      d := d + 1;
    }
  }

  // ----- runs -----------------------------------------------------------------------------

  /** A runner is idempotent per stamp: a row that is there is not written twice. */
  function RunOnce(rows: seq<nat>, id: nat): seq<nat> {
    if id in rows then rows else rows + [id]
  }

  /**
   `live`: a server is running. `replaying`: the stamp a replay has read, and
   `ran` once its runner has reported success. `rows`: the durable effects.
   `begun`: the stamps that have been on disk. Ids from `unused` on are fresh.
   */
  datatype World = World(
    live: bool,
    rec: Record,
    replaying: Option<Stamp>,
    ran: bool,
    rows: seq<nat>,
    begun: set<nat>,
    unused: nat)

  datatype Event =
    | BeginWith(kind: Kind, lands: bool)
    | Checkpoint
    | Effect
    | Acknowledge(owed: bool, lands: bool)
    | Crash
    | Boot
    | ReplayRead
    | ReplayRun(durable: bool, outcome: Outcome)
    | ReplayClear(lands: bool)

  /**
   Three ways to lose a record that is still owed: stamping a session that carries a
   stamp; writing a session's checkpoint over a stamp on disk that is not its own,
   which a replay may be at work on; replaying a record whose session carries a stamp.
   All can be told beforehand, from the session and by `is_owed`. The source tests
   neither of the first two, and the last some time before it reads the record.
   */
  datatype Lapse = BeginOverStamp | WriteOverOwed | ReplayOverStamp

  type Policy = set<Lapse>

  const CAREFUL: Policy := {}

  const INIT := World(true, Record(None, None), None, false, [], {}, 0)

  predicate Done(w: World, s: Option<Stamp>) {
    s.Some? ==> s.value.id in w.rows
  }

  predicate Writes(w: World, e: Event) {
    e.Checkpoint? || (e.BeginWith? && e.lands) || (e.Acknowledge? && w.rec.stamp.Some? && !e.owed && e.lands)
  }

  predicate Allowed(policy: Policy, w: World, e: Event) {
    && (e.BeginWith? && w.rec.stamp.Some? ==> BeginOverStamp in policy)
    && (Writes(w, e) && w.rec.disk.Some? && w.rec.disk != w.rec.stamp ==> WriteOverOwed in policy)
    && (e.ReplayRead? && w.rec.stamp.Some? ==> ReplayOverStamp in policy)
  }

  predicate Enabled(policy: Policy, w: World, e: Event) {
    && Allowed(policy, w, e)
    && match e
       case BeginWith(_, _) => w.live
       case Checkpoint => w.live
       case Effect => w.live && w.rec.stamp.Some?
       case Acknowledge(owed, _) => w.live && (owed || Done(w, w.rec.stamp))
       case Crash => w.live
       case Boot => !w.live
       case ReplayRead => w.live && w.rec.disk.Some? && w.replaying.None?
       case ReplayRun(durable, outcome) =>
         w.live && w.replaying.Some? && !w.ran && w.replaying.value.kind != Other && (outcome == Said(true) ==> durable)
       case ReplayClear(_) => w.live && w.replaying.Some? && w.ran
  }

  /** A stamp that reached the disk is owed from then on. */
  function Landed(w: World): World {
    if w.rec.disk.Some? then w.(begun := w.begun + {w.rec.disk.value.id}) else w
  }

  function Ran(w: World, s: Option<Stamp>): World {
    if s.Some? then w.(rows := RunOnce(w.rows, s.value.id)) else w
  }

  function Apply(w: World, e: Event): World {
    match e
    case BeginWith(kind, lands) =>
      Landed(w.(rec := Stamped(w.rec, Stamp(w.unused, kind), lands), unused := w.unused + 1))
    case Checkpoint => Landed(w.(rec := Record(w.rec.stamp, w.rec.stamp)))
    case Effect => Ran(w, w.rec.stamp)
    case Acknowledge(owed, lands) => w.(rec := Acked(w.rec, owed, lands))
    case Crash => w.(live := false, rec := Record(None, w.rec.disk), replaying := None, ran := false)
    case Boot => w.(live := true)
    case ReplayRead => w.(replaying := w.rec.disk, ran := false)
    case ReplayRun(durable, outcome) =>
      var w' := if durable then Ran(w, w.replaying) else w;
      if outcome == Said(true) then w'.(ran := true) else w'.(replaying := None)
    case ReplayClear(lands) =>
      w.(rec := Record(w.rec.stamp, if Clears(w.replaying, Said(true), lands) then None else w.rec.disk),
         replaying := None, ran := false)
  }

  function Run(policy: Policy, es: seq<Event>): Option<World> {
    if es == [] then Some(INIT)
    else
      var w := Run(policy, es[..|es| - 1]);
      if w.Some? && Enabled(policy, w.value, es[|es| - 1]) then Some(Apply(w.value, es[|es| - 1])) else None
  }

  // ----- obligations ------------------------------------------------------------------------

  /** Every completion whose stamp was ever on disk is on disk still, or its effect is durable. */
  predicate Kept(w: World) {
    forall id :: id in w.begun ==> id in w.rows || (w.rec.disk.Some? && w.rec.disk.value.id == id)
  }

  predicate OnceEach(rows: seq<nat>) {
    forall i, j :: 0 <= i < j < |rows| ==> rows[i] != rows[j]
  }

  /** A replay is at work on what is on disk, which is not the session's own; new ids are new. */
  predicate Sound(w: World) {
    && Kept(w)
    && (w.rec.stamp.Some? ==> w.rec.stamp.value.id < w.unused)
    && (w.rec.disk.Some? ==> w.rec.disk.value.id < w.unused)
    && (w.replaying.Some? ==> w.rec.disk == w.replaying && w.rec.stamp != w.rec.disk)
    && (w.ran ==> w.replaying.Some? && Done(w, w.replaying) && w.replaying.value.kind != Other)
  }

  lemma {:induction false} SoundStep(w: World, e: Event)
    requires Sound(w) && Enabled(CAREFUL, w, e)
    ensures Sound(Apply(w, e))
  {
  }

  /**
   Without those lapses, in every reachable state, over any number of crashes and
   failed replays, an obligation that was ever on disk is on disk or met: the stamp
   goes only after the effect.
   */
  lemma {:induction false} ObligationsKept(es: seq<Event>)
    requires Run(CAREFUL, es).Some?
    ensures Sound(Run(CAREFUL, es).value)
  {
    if es != [] {
      ObligationsKept(es[..|es| - 1]);
      SoundStep(Run(CAREFUL, es[..|es| - 1]).value, es[|es| - 1]);
    }
  }

  /** Whatever the lapses, no effect is made durable twice. */
  lemma {:induction false} EffectsHappenOnce(policy: Policy, es: seq<Event>)
    requires Run(policy, es).Some?
    ensures OnceEach(Run(policy, es).value.rows)
  {
    if es != [] {
      EffectsHappenOnce(policy, es[..|es| - 1]);
    }
  }

  /** A server that is down has no stamp of its own and replays nothing. */
  lemma {:induction false} DownHasNothing(policy: Policy, es: seq<Event>)
    requires Run(policy, es).Some? && !Run(policy, es).value.live
    ensures
      var w := Run(policy, es).value;
      w.rec.stamp.None? && w.replaying.None? && !w.ran
  {
    if es != [] {
      var init := Run(policy, es[..|es| - 1]).value;
      if !init.live {
        DownHasNothing(policy, es[..|es| - 1]);
      }
    }
  }

  ghost predicate AllKept(policy: Policy) {
    forall es :: Run(policy, es).Some? ==> Kept(Run(policy, es).value)
  }

  lemma {:induction false} Then(policy: Policy, es: seq<Event>, e: Event)
    requires Run(policy, es).Some? && Enabled(policy, Run(policy, es).value, e)
    ensures Run(policy, es + [e]) == Some(Apply(Run(policy, es).value, e))
  {
    assert (es + [e])[..|es|] == es;
  }

  // ----- what is owed is met ------------------------------------------------------------------

  /** A replay of what is on disk whose runner is durable and whose write lands: its steps. */
  function Replay(): seq<Event> {
    [ReplayRead, ReplayRun(true, Said(true)), ReplayClear(true)]
  }

  lemma {:induction false} ReplayDischarges(policy: Policy, es: seq<Event>)
    requires Run(policy, es).Some?
    requires
      var w := Run(policy, es).value;
      && w.live && w.rec.stamp.None? && w.replaying.None?
      && w.rec.disk.Some? && w.rec.disk.value.kind != Other
    ensures
      var w, r := Run(policy, es).value, Run(policy, es + Replay());
      && r.Some? && r.value.live && r.value.rec == Record(None, None) && r.value.replaying.None?
      && w.rec.disk.value.id in r.value.rows
  {
    var one, two := es + [ReplayRead], es + [ReplayRead] + [ReplayRun(true, Said(true))];
    Then(policy, es, ReplayRead);
    Then(policy, one, ReplayRun(true, Said(true)));
    Then(policy, two, ReplayClear(true));
    assert es + Replay() == two + [ReplayClear(true)];
  }

  /** One whose runner does not succeed, or whose write does not land, leaves the record as it was. */
  lemma {:induction false} FailedReplayRetains(policy: Policy, es: seq<Event>, durable: bool, outcome: Outcome)
    requires Run(policy, es).Some? && outcome != Said(true)
    requires
      var w := Run(policy, es).value;
      && w.live && w.rec.stamp.None? && w.replaying.None?
      && w.rec.disk.Some? && w.rec.disk.value.kind != Other
    ensures
      var w := Run(policy, es).value;
      var failed := Run(policy, es + [ReplayRead] + [ReplayRun(durable, outcome)]);
      var unlanded := Run(policy, es + [ReplayRead] + [ReplayRun(true, Said(true))] + [ReplayClear(false)]);
      && failed.Some? && failed.value.rec == w.rec && failed.value.replaying.None?
      && (!durable ==> failed.value.rows == w.rows)
      && unlanded.Some? && unlanded.value.rec == w.rec && unlanded.value.replaying.None?
  {
    Then(policy, es, ReplayRead);
    Then(policy, es + [ReplayRead], ReplayRun(durable, outcome));
    Then(policy, es + [ReplayRead], ReplayRun(true, Said(true)));
    Then(policy, es + [ReplayRead] + [ReplayRun(true, Said(true))], ReplayClear(false));
  }

  /**
   What is owed at a crash is met by the next boot: a replay whose runner succeeds and whose
   write lands makes the effect durable and takes the stamp off.
   */
  lemma {:induction false} BootDischarges(policy: Policy, es: seq<Event>)
    requires Run(policy, es).Some?
    requires
      var w := Run(policy, es).value;
      !w.live && w.rec.disk.Some? && w.rec.disk.value.kind != Other
    ensures
      var w, r := Run(policy, es).value, Run(policy, es + [Boot] + Replay());
      && r.Some? && r.value.live && r.value.rec == Record(None, None) && r.value.replaying.None?
      && w.rec.disk.value.id in r.value.rows
  {
    DownHasNothing(policy, es);
    Then(policy, es, Boot);
    ReplayDischarges(policy, es + [Boot]);
  }

  /** With no crash the same is done by the server itself: begin, effect, ack. */
  lemma {:induction false} TurnDischarges(policy: Policy, es: seq<Event>, kind: Kind)
    requires Run(policy, es).Some?
    requires var w := Run(policy, es).value; w.live && w.rec == Record(None, None)
    ensures
      var w := Run(policy, es).value;
      var r := Run(policy, es + [BeginWith(kind, true)] + [Effect] + [Acknowledge(false, true)]);
      && r.Some? && r.value.live && r.value.rec == Record(None, None)
      && w.unused in r.value.rows && w.unused in r.value.begun
  {
    var one, two := es + [BeginWith(kind, true)], es + [BeginWith(kind, true)] + [Effect];
    Then(policy, es, BeginWith(kind, true));
    Then(policy, one, Effect);
    Then(policy, two, Acknowledge(false, true));
  }

  // ----- what the lapses lose -----------------------------------------------------------------

  /** The next turn's `begin` after a wake that did not commit: the first wake is on no record. */
  lemma {:induction false} BeginOverStampLoses(policy: Policy)
    requires BeginOverStamp in policy
    ensures !AllKept(policy)
  {
    var es := [];
    Then(policy, es, BeginWith(Turn, true)); es := es + [BeginWith(Turn, true)];
    Then(policy, es, Acknowledge(true, true)); es := es + [Acknowledge(true, true)];
    Then(policy, es, Checkpoint); es := es + [Checkpoint];
    Then(policy, es, BeginWith(Turn, true)); es := es + [BeginWith(Turn, true)];
    assert 0 in Run(policy, es).value.begun;
  }

  /** A later launch of the session checkpoints over a record that no replay could complete yet. */
  lemma {:induction false} WriteOverOwedLoses(policy: Policy)
    requires WriteOverOwed in policy
    ensures !AllKept(policy)
  {
    var es := [];
    Then(policy, es, BeginWith(Exit, true)); es := es + [BeginWith(Exit, true)];
    Then(policy, es, Crash); es := es + [Crash];
    Then(policy, es, Boot); es := es + [Boot];
    Then(policy, es, Checkpoint); es := es + [Checkpoint];
    assert 0 in Run(policy, es).value.begun;
  }

  /** A completion begun while an earlier, already effective one is replayed: clearing that one clears this. */
  lemma {:induction false} WriteDuringReplayLoses(policy: Policy)
    requires WriteOverOwed in policy
    ensures !AllKept(policy)
  {
    var es := ReplayUnderWay(policy);
    var first, second := Some(Stamp(0, Exit)), Some(Stamp(1, Exit));
    Then(policy, es, BeginWith(Exit, true)); es := es + [BeginWith(Exit, true)];
    assert Run(policy, es) == Some(World(true, Record(second, second), first, true, [0], {0} + {1}, 2));
    Then(policy, es, ReplayClear(true)); es := es + [ReplayClear(true)];
    assert 1 in Run(policy, es).value.begun;
  }

  lemma {:induction false} ReplayUnderWay(policy: Policy) returns (es: seq<Event>)
    ensures var first := Some(Stamp(0, Exit));
      Run(policy, es) == Some(World(true, Record(None, first), first, true, [0], {0}, 1))
  {
    es := [];
    Then(policy, es, BeginWith(Exit, true)); es := es + [BeginWith(Exit, true)];
    Then(policy, es, Effect); es := es + [Effect];
    Then(policy, es, Crash); es := es + [Crash];
    Then(policy, es, Boot); es := es + [Boot];
    Then(policy, es, ReplayRead); es := es + [ReplayRead];
    Then(policy, es, ReplayRun(true, Said(true))); es := es + [ReplayRun(true, Said(true))];
    assert INIT.rows + [0] == [0] && INIT.begun + {0} == {0};
  }

  /** A replay picks up a completion under way; by the time it clears the record, another one has been begun. */
  lemma {:induction false} ReplayOverStampLoses(policy: Policy)
    requires ReplayOverStamp in policy
    ensures !AllKept(policy)
  {
    var es := ReplayOfLive(policy);
    var first, second := Some(Stamp(0, Exit)), Some(Stamp(1, Exit));
    Then(policy, es, Acknowledge(false, true)); es := es + [Acknowledge(false, true)];
    assert Run(policy, es) == Some(World(true, Record(None, None), first, true, [0], {0}, 1));
    Then(policy, es, BeginWith(Exit, true)); es := es + [BeginWith(Exit, true)];
    assert Run(policy, es) == Some(World(true, Record(second, second), first, true, [0], {0} + {1}, 2));
    Then(policy, es, ReplayClear(true)); es := es + [ReplayClear(true)];
    assert 1 in Run(policy, es).value.begun;
  }

  lemma {:induction false} ReplayOfLive(policy: Policy) returns (es: seq<Event>)
    requires ReplayOverStamp in policy
    ensures var first := Some(Stamp(0, Exit));
      Run(policy, es) == Some(World(true, Record(first, first), first, true, [0], {0}, 1))
  {
    es := [];
    Then(policy, es, BeginWith(Exit, true)); es := es + [BeginWith(Exit, true)];
    Then(policy, es, ReplayRead); es := es + [ReplayRead];
    Then(policy, es, ReplayRun(true, Said(true))); es := es + [ReplayRun(true, Said(true))];
    assert INIT.rows + [0] == [0] && INIT.begun + {0} == {0};
  }

  /** Obligations are kept over all runs exactly when none of these lapses can happen. */
  lemma {:induction false} KeptIffCareful(policy: Policy)
    ensures AllKept(policy) <==> policy == CAREFUL
  {
    if policy == CAREFUL {
      forall es | Run(policy, es).Some?
        ensures Kept(Run(policy, es).value)
      {
        ObligationsKept(es);
      }
    } else {
      var lapse :| lapse in policy;
      match lapse
      case BeginOverStamp => BeginOverStampLoses(policy);
      case WriteOverOwed => WriteOverOwedLoses(policy);
      case ReplayOverStamp => ReplayOverStampLoses(policy);
    }
  }
}
