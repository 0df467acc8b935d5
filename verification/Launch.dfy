/**
 When a session's directory may be reused and when a spawn must be refused
 (mc/agent_spawn.py, mc/agent_spawn_interactive.py, mc/agent_uncertain_launch.py,
 `launch` in mc/agent_shim_client.py).

 One session; its spawns follow each other, its shims and CLIs live and die as
 they please in between. A process found `gone` is gone for good.
 */
module Launch {
  import opened Wrappers

  // ----- what the polling loops conclude ---------------------------------------------------

  datatype Life = Ours | Gone | Unknown

  /** One look at the recorded processes. */
  datatype Look = Look(shim: Life, cli: Life, exited: bool)

  /** `_prior_gone` and the wait of `_teardown_started`: what is not positively gone counts as running. */
  method PriorGone(looks: seq<Look>) returns (gone: bool)
    requires looks != []
    ensures gone <==> exists i :: 0 <= i < |looks| && looks[i].shim == Gone && looks[i].cli == Gone
  {
    var i := 0;
    while true
      invariant 0 <= i < |looks|
      invariant forall k :: 0 <= k < i ==> !(looks[k].shim == Gone && looks[k].cli == Gone)
      decreases |looks| - i
    {
      if looks[i].shim == Gone && looks[i].cli == Gone {
        return true;
      }
      if i + 1 == |looks| {
        return false;
      }
      i := i + 1;
    }
  }

  /** `_await_prior`: no manifest, or both gone; a finished CLI's lingering shim is collected once. */
  method AwaitPrior(looks: seq<Option<Look>>) returns (free: bool, collected: bool)
    requires looks != []
    ensures free <==>
      exists i :: 0 <= i < |looks| && (looks[i].None? || (looks[i].value.shim == Gone && looks[i].value.cli == Gone))
    ensures collected <==>
      exists i :: 0 <= i < |looks| && looks[i].Some? && looks[i].value.exited && looks[i].value.shim != Gone
        && forall k :: 0 <= k < i ==> looks[k].Some? && !(looks[k].value.shim == Gone && looks[k].value.cli == Gone)
  {
    var i := 0;
    collected := false;
    while true
      invariant 0 <= i < |looks|
      invariant forall k :: 0 <= k < i ==>
        looks[k].Some? && !(looks[k].value.shim == Gone && looks[k].value.cli == Gone)
      invariant collected <==> exists k :: 0 <= k < i && looks[k].value.exited && looks[k].value.shim != Gone
      decreases |looks| - i
    {
      if looks[i].None? {
        return true, collected;
      }
      var st := looks[i].value;
      if st.shim == Gone && st.cli == Gone {
        return true, collected;
      }
      if st.exited && st.shim != Gone && !collected {
        collected := true;
      }
      if i + 1 == |looks| {
        return false, collected;
      }
      i := i + 1;
    }
  }

  /** One pass of `_attempt`: is this launch's manifest there, did its teardown confirm, is its exit record there? */
  datatype Sight = Sight(manifest: bool, torn: bool, exit: bool)

  /** `_attempt`: the first pass that sees anything of the launch decides, the manifest before the record. */
  method ConfirmGone(sights: seq<Sight>) returns (gone: bool)
    requires sights != []
    ensures gone <==>
      exists i :: 0 <= i < |sights|
        && (forall k :: 0 <= k < i ==> !sights[k].manifest && !sights[k].exit)
        && if sights[i].manifest then sights[i].torn else sights[i].exit
  {
    var i := 0;
    while true
      invariant 0 <= i < |sights|
      invariant forall k :: 0 <= k < i ==> !sights[k].manifest && !sights[k].exit
      decreases |sights| - i
    {
      if sights[i].manifest {
        return sights[i].torn;
      }
      if sights[i].exit {
        return true;
      }
      if i + 1 == |sights| {
        return false;
      }
      i := i + 1;
    }
  }

  // ----- the runs of a session -----------------------------------------------------------------

  /** `Ending`: the shim has reported that it could not start the CLI, and does nothing more. */
  datatype Shim = Running | Ending | ShimDead

  datatype Cli = NotStarted | Alive | CliDead

  /** What the server has made of a launch: not yet anything, attached to it, or made sure of its end. */
  datatype Known = Open | Owned | Settled

  datatype Attempt = Attempt(shim: Shim, cli: Cli, known: Known)

  datatype Phase = Idle | Prepared | Waiting | Uncertain

  /**
   `manifest`, `exit` and `marker` are shim.json, exit.json and uncertain.json, by
   the number of the launch they name. `looked`: the server has looked at shim.json,
   found nothing of its launch there, and goes on to exit.json. `beside`: a CLI was
   started while a launch was open; `reused`: the directory was cleared while a shim
   could still use it.
   */
  datatype World = World(
    launches: seq<Attempt>,
    manifest: Option<nat>,
    exit: Option<nat>,
    marker: Option<nat>,
    phase: Phase,
    looked: bool,
    beside: bool,
    reused: bool)

  datatype Event =
    // the processes
    | CliStarts(i: nat)
    | CliFails(i: nat)
    | CliDies(i: nat)
    | WritesManifest(i: nat)
    | WritesExit(i: nat)
    | ShimDies(i: nat)
    // the server
    | PlainSpawn
    | Reuse
    | DetachFails
    | Detaches
    | DetachTimesOut
    | Attaches
    | Looks
    | Reported
    | TornDown
    | GivesUp
    | Resolves
    | Marks
    | MarkFails
    | Clears
    | Crash

  /**
   What the rule does not cover. The server dies, or leaves by an exception, between
   starting a launch and writing its marker; a detached start is reported as failed
   although it succeeds; a manifest that is there is not read (another schema, or a
   failed read); so is a marker; a marker cannot be written; an exit record is believed
   although the manifest has come between the two reads; a manifest cannot be written,
   and the exit record of the CLI that ran then stands alone.
   */
  datatype Lapse =
    | CrashInLaunch
    | DetachGivenUp
    | ManifestMissed
    | MarkerMissed
    | MarkerUnwritten
    | ExitAlone
    | ManifestUnwritten

  type Policy = set<Lapse>

  const CAREFUL: Policy := {}

  const INIT := World([], None, None, None, Idle, false, false, false)

  /** The CLI of this launch is not running and never will be. */
  predicate Quiet(a: Attempt) {
    a.cli == CliDead || (a.cli == NotStarted && a.shim != Running)
  }

  /** Its shim writes nothing any more either. */
  predicate Finished(a: Attempt) {
    Quiet(a) && a.shim != Running
  }

  predicate BothDead(w: World, i: nat) {
    i < |w.launches| && w.launches[i].shim == ShimDead && w.launches[i].cli == CliDead
  }

  /** The exit record is read after a look that found no manifest; a second look would have to find none either. */
  predicate ReportedOver(policy: Policy, w: World, i: nat) {
    w.looked && w.exit == Some(i) && (w.manifest == Some(i) ==> ExitAlone in policy || ManifestMissed in policy)
  }

  /** `_attempt`: torn down by its manifest, or reported as never started. */
  predicate Confirmed(policy: Policy, w: World, i: nat) {
    (w.manifest == Some(i) && BothDead(w, i)) || ReportedOver(policy, w, i)
  }

  /** The launch the server is asking about. */
  function Asked(w: World): Option<nat> {
    if w.phase == Idle then w.marker else if w.launches != [] then Some(|w.launches| - 1) else None
  }

  predicate Unmarked(policy: Policy, w: World) {
    w.marker.None? || MarkerMissed in policy
  }

  function Last(w: World): nat {
    if w.launches == [] then 0 else |w.launches| - 1
  }

  predicate AnyOpen(w: World) {
    exists a :: a in w.launches && a.known == Open
  }

  predicate AnyUnfinished(w: World) {
    exists a :: a in w.launches && !Finished(a)
  }

  predicate OfProcess(e: Event) {
    e.CliStarts? || e.CliFails? || e.CliDies? || e.WritesManifest? || e.WritesExit? || e.ShimDies?
  }

  predicate EnabledProcess(policy: Policy, w: World, e: Event)
    requires OfProcess(e)
  {
    e.i < |w.launches| &&
    var a := w.launches[e.i];
    match e
    case CliStarts(_) => a.shim == Running && a.cli == NotStarted
    case CliFails(_) => a.shim == Running && a.cli == NotStarted
    case CliDies(_) => a.cli == Alive
    case WritesManifest(_) => a.shim == Running && a.cli != NotStarted
    case WritesExit(i) =>
      a.shim == Running && a.cli == CliDead && (w.manifest == Some(i) || ManifestUnwritten in policy)
    case ShimDies(_) => a.shim != ShimDead
  }

  predicate Enabled(policy: Policy, w: World, e: Event) {
    if OfProcess(e) then EnabledProcess(policy, w, e)
    else match e
    case PlainSpawn => w.phase == Idle && Unmarked(policy, w)
    case Reuse =>
      && w.phase == Idle && Unmarked(policy, w)
      && (w.manifest.None? || BothDead(w, w.manifest.value) || ManifestMissed in policy)
    case DetachFails => w.phase == Prepared
    case Detaches => w.phase == Prepared
    case DetachTimesOut => w.phase == Prepared && DetachGivenUp in policy
    case Attaches => w.phase == Waiting && w.launches != [] && w.manifest == Some(Last(w))
    case Looks => Asked(w).Some? && (w.manifest != Asked(w) || ManifestMissed in policy)
    case Reported => w.phase == Waiting && w.launches != [] && ReportedOver(policy, w, Last(w))
    case TornDown => w.phase == Waiting && w.manifest == Some(Last(w)) && BothDead(w, Last(w))
    case GivesUp => w.phase == Waiting
    case Resolves => w.phase == Uncertain && w.launches != [] && Confirmed(policy, w, Last(w))
    case Marks => w.phase == Uncertain && w.launches != []
    case MarkFails => w.phase == Uncertain && MarkerUnwritten in policy
    case Clears =>
      w.phase == Idle && w.marker.Some? && w.marker.value < |w.launches| && Confirmed(policy, w, w.marker.value)
    case Crash => w.phase == Idle || w.phase == Prepared || CrashInLaunch in policy
  }

  function Change(w: World, i: nat, a: Attempt): World
    requires i < |w.launches|
  {
    w.(launches := w.launches[i := a])
  }

  function ApplyProcess(policy: Policy, w: World, e: Event): World
    requires OfProcess(e) && EnabledProcess(policy, w, e)
  {
    var a := w.launches[e.i];
    match e
    case CliStarts(i) => Change(w, i, a.(cli := Alive))
    case CliFails(i) => Change(w, i, a.(shim := Ending)).(exit := Some(i))
    case CliDies(i) => Change(w, i, a.(cli := CliDead))
    case WritesManifest(i) => w.(manifest := Some(i))
    case WritesExit(i) => w.(exit := Some(i))
    case ShimDies(i) => Change(w, i, a.(shim := ShimDead))
  }

  function Know(w: World, i: nat, k: Known): World
    requires i < |w.launches|
  {
    Change(w, i, w.launches[i].(known := k))
  }

  /** A CLI is started without a shim. */
  function Started(w: World): World {
    w.(phase := Idle, looked := false, beside := w.beside || AnyOpen(w))
  }

  function Detached(w: World): World {
    w.(launches := w.launches + [Attempt(Running, NotStarted, Open)], phase := Waiting, looked := false,
       beside := w.beside || AnyOpen(w))
  }

  function Apply(policy: Policy, w: World, e: Event): World
    requires Enabled(policy, w, e)
  {
    if OfProcess(e) then ApplyProcess(policy, w, e)
    else match e
    case PlainSpawn => Started(w)
    case Reuse =>
      w.(manifest := None, exit := None, phase := Prepared, looked := false, reused := w.reused || AnyUnfinished(w))
    case DetachFails => Started(w)
    case Detaches => Detached(w)
    case DetachTimesOut => Started(Detached(w))
    case Attaches => Know(w, Last(w), Owned).(phase := Idle, looked := false)
    case Looks => w.(looked := true)
    case Reported => Started(Know(w, Last(w), Settled))
    case TornDown => Started(Know(w, Last(w), Settled))
    case GivesUp => w.(phase := Uncertain, looked := false)
    case Resolves => Know(w, Last(w), Settled).(phase := Idle, looked := false)
    case Marks => w.(marker := Some(Last(w)), phase := Idle, looked := false)
    case MarkFails => w.(phase := Idle, looked := false)
    case Clears => Know(w, w.marker.value, Settled).(marker := None, looked := false)
    case Crash => w.(phase := Idle, looked := false)
  }

  function Run(policy: Policy, es: seq<Event>): Option<World> {
    if es == [] then Some(INIT)
    else
      var w := Run(policy, es[..|es| - 1]);
      if w.Some? && Enabled(policy, w.value, es[|es| - 1]) then Some(Apply(policy, w.value, es[|es| - 1])) else None
  }

  // ----- safety ------------------------------------------------------------------------------

  /** No CLI was started beside an open launch, no directory cleared under a live shim, and what is settled is over. */
  predicate Safe(w: World) {
    !w.beside && !w.reused && forall a :: a in w.launches && a.known == Settled ==> Finished(a)
  }

  /** The files are about the last launch, and only it may still be open or unfinished. */
  predicate Orderly(w: World) {
    var n := |w.launches|;
    && (forall i :: 0 <= i < n - 1 ==> Finished(w.launches[i]) && w.launches[i].known != Open)
    && (w.manifest.Some? ==> w.manifest.value == n - 1)
    && (w.exit.Some? ==> w.exit.value == n - 1)
    && (w.marker.Some? ==> w.marker.value == n - 1 && w.phase == Idle)
    && (w.phase == Prepared ==> n == 0 || Finished(w.launches[n - 1]))
    && (w.phase == Prepared ==> w.manifest.None? && w.exit.None?)
    && (w.phase == Waiting || w.phase == Uncertain ==> n > 0)
    && (n > 0 ==>
          var a := w.launches[n - 1];
          && (a.known == Open <==> w.phase == Waiting || w.phase == Uncertain || w.marker.Some?)
          && (a.known == Settled ==> Finished(a))
          && (w.exit.Some? && w.manifest.None? ==> Finished(a))
          && (a.known == Owned && w.manifest.None? ==> Finished(a)))
  }

  lemma {:induction false} ProcessStep(w: World, e: Event)
    requires Orderly(w) && OfProcess(e) && EnabledProcess(CAREFUL, w, e)
    ensures Orderly(ApplyProcess(CAREFUL, w, e))
    ensures Safe(w) ==> Safe(ApplyProcess(CAREFUL, w, e))
  {
    var w' := ApplyProcess(CAREFUL, w, e);
    assert |w'.launches| == |w.launches| && w'.phase == w.phase;
    var n := |w.launches|;
    assert e.i < n - 1 ==> Finished(w.launches[e.i]);
    assert forall k :: 0 <= k < n && k != e.i ==> w'.launches[k] == w.launches[k];
    assert Finished(w.launches[e.i]) ==> Finished(w'.launches[e.i]);
    assert w'.launches[e.i].known == w.launches[e.i].known;
  }

  lemma {:induction false} NoneOpen(w: World)
    requires Orderly(w) && w.phase != Waiting && w.phase != Uncertain && w.marker.None?
    ensures !AnyOpen(w)
  {
    forall k | 0 <= k < |w.launches|
      ensures w.launches[k].known != Open
    {
    }
  }

  lemma {:induction false} NoneUnfinished(w: World)
    requires Orderly(w) && (w.launches != [] ==> Finished(w.launches[|w.launches| - 1]))
    ensures !AnyUnfinished(w)
  {
    forall k | 0 <= k < |w.launches|
      ensures Finished(w.launches[k])
    {
    }
  }

  lemma {:induction false} SettledIsFinished(w: World, w': World)
    requires Safe(w) && Orderly(w') && w'.beside == w.beside && w'.reused == w.reused
    ensures Safe(w')
  {
    forall k | 0 <= k < |w'.launches| && w'.launches[k].known == Settled
      ensures Finished(w'.launches[k])
    {
    }
  }

  /** An answer that the last launch is over is right. */
  lemma {:induction false} ConfirmedIsFinished(w: World)
    requires Orderly(w) && w.launches != [] && Confirmed(CAREFUL, w, |w.launches| - 1)
    ensures Finished(w.launches[|w.launches| - 1])
  {
  }

  lemma {:induction false} KnowsLast(w: World, w': World, k: Known)
    requires Orderly(w) && w.launches != [] && k != Open
    requires k == Settled ==> Finished(w.launches[|w.launches| - 1])
    requires k == Owned ==> w.manifest.Some?
    requires w' == Know(w, |w.launches| - 1, k).(phase := Idle, marker := None, looked := false)
    ensures Orderly(w') && !AnyOpen(w')
  {
    NoneOpen(w');
  }

  lemma {:induction false} StartStep(w: World, e: Event)
    requires Orderly(w) && Safe(w) && !OfProcess(e) && Enabled(CAREFUL, w, e)
    requires e.PlainSpawn? || e.Reuse? || e.DetachFails? || e.Detaches?
    ensures Orderly(Apply(CAREFUL, w, e)) && Safe(Apply(CAREFUL, w, e))
  {
    NoneOpen(w);
    if e.Reuse? {
      NoneUnfinished(w);
    }
    SettledIsFinished(w, Apply(CAREFUL, w, e));
  }

  lemma {:induction false} EndStep(w: World, e: Event)
    requires Orderly(w) && Safe(w) && !OfProcess(e) && Enabled(CAREFUL, w, e)
    requires e.Attaches? || e.Reported? || e.TornDown? || e.Resolves? || e.Clears?
    ensures Orderly(Apply(CAREFUL, w, e)) && Safe(Apply(CAREFUL, w, e))
  {
    if !e.Attaches? {
      ConfirmedIsFinished(w);
    }
    var k := if e.Attaches? then Owned else Settled;
    KnowsLast(w, Know(w, |w.launches| - 1, k).(phase := Idle, marker := None, looked := false), k);
    SettledIsFinished(w, Apply(CAREFUL, w, e));
  }

  lemma {:induction false} ServerStep(w: World, e: Event)
    requires Orderly(w) && Safe(w) && !OfProcess(e) && Enabled(CAREFUL, w, e)
    ensures Orderly(Apply(CAREFUL, w, e)) && Safe(Apply(CAREFUL, w, e))
  {
    if e.PlainSpawn? || e.Reuse? || e.DetachFails? || e.Detaches? {
      StartStep(w, e);
    } else if e.Attaches? || e.Reported? || e.TornDown? || e.Resolves? || e.Clears? {
      EndStep(w, e);
    } else {
      SettledIsFinished(w, Apply(CAREFUL, w, e));
    }
  }

  lemma {:induction false} SafeRun(es: seq<Event>)
    requires Run(CAREFUL, es).Some?
    ensures Orderly(Run(CAREFUL, es).value) && Safe(Run(CAREFUL, es).value)
  {
    if es != [] {
      var w, e := Run(CAREFUL, es[..|es| - 1]).value, es[|es| - 1];
      SafeRun(es[..|es| - 1]);
      if OfProcess(e) {
        ProcessStep(w, e);
      } else {
        ServerStep(w, e);
      }
    }
  }

  // ----- exactly when -------------------------------------------------------------------------

  ghost predicate AllSafe(policy: Policy) {
    forall es :: Run(policy, es).Some? ==> Safe(Run(policy, es).value)
  }

  lemma {:induction false} Then(policy: Policy, es: seq<Event>, e: Event)
    requires Run(policy, es).Some? && Enabled(policy, Run(policy, es).value, e)
    ensures Run(policy, es + [e]) == Some(Apply(policy, Run(policy, es).value, e))
  {
    assert (es + [e])[..|es|] == es;
  }

  const STARTING := Attempt(Running, NotStarted, Open)

  lemma {:induction false} FirstLaunch(policy: Policy) returns (es: seq<Event>)
    ensures Run(policy, es) == Some(World([STARTING], None, None, None, Waiting, false, false, false))
  {
    es := [];
    assert !AnyOpen(INIT) && !AnyUnfinished(INIT);
    Then(policy, es, Reuse);
    es := es + [Reuse];
    Then(policy, es, Detaches);
    es := es + [Detaches];
    assert INIT.launches + [STARTING] == [STARTING];
  }

  /** The server dies while the shim is still starting: nothing stops the next spawn. */
  lemma {:induction false} CrashDoubles(policy: Policy)
    requires CrashInLaunch in policy
    ensures !AllSafe(policy)
  {
    var es := FirstLaunch(policy);
    Then(policy, es, Crash);
    es := es + [Crash];
    Then(policy, es, PlainSpawn);
    es := es + [PlainSpawn];
    assert STARTING in [STARTING];
  }

  /** A trampoline that outlives its wait has its shim running beside the fallback. */
  lemma {:induction false} TimeoutDoubles(policy: Policy)
    requires DetachGivenUp in policy
    ensures !AllSafe(policy)
  {
    var es := [];
    assert !AnyOpen(INIT) && !AnyUnfinished(INIT);
    Then(policy, es, Reuse);
    es := es + [Reuse];
    Then(policy, es, DetachTimesOut);
    es := es + [DetachTimesOut];
    assert INIT.launches + [STARTING] == [STARTING];
    assert STARTING in [STARTING];
  }

  const RUNNING := Attempt(Running, Alive, Owned)

  const WRITTEN := Attempt(Running, Alive, Open)

  lemma {:induction false} WritesItsManifest(policy: Policy, es: seq<Event>, looked: bool) returns (es': seq<Event>)
    requires Run(policy, es) == Some(World([STARTING], None, None, None, Waiting, looked, false, false))
    ensures Run(policy, es') == Some(World([WRITTEN], Some(0), None, None, Waiting, looked, false, false))
  {
    Then(policy, es, CliStarts(0));
    es' := es + [CliStarts(0)];
    assert [STARTING][0 := WRITTEN] == [WRITTEN];
    Then(policy, es', WritesManifest(0));
    es' := es' + [WritesManifest(0)];
  }

  /** A manifest that is not read is discarded with its shim still running. */
  lemma {:induction false} MissedManifestReuses(policy: Policy)
    requires ManifestMissed in policy
    ensures !AllSafe(policy)
  {
    var es := FirstLaunch(policy);
    es := WritesItsManifest(policy, es, false);
    Then(policy, es, Attaches);
    es := es + [Attaches];
    assert [WRITTEN][0 := RUNNING] == [RUNNING];
    Then(policy, es, Reuse);
    es := es + [Reuse];
    assert RUNNING in [RUNNING];
  }

  lemma {:induction false} FirstUncertain(policy: Policy) returns (es: seq<Event>)
    ensures Run(policy, es) == Some(World([STARTING], None, None, None, Uncertain, false, false, false))
  {
    es := FirstLaunch(policy);
    Then(policy, es, GivesUp);
    es := es + [GivesUp];
  }

  /** The marker is there, and the next spawn does not see it. */
  lemma {:induction false} MissedMarkerDoubles(policy: Policy)
    requires MarkerMissed in policy
    ensures !AllSafe(policy)
  {
    var es := FirstUncertain(policy);
    Then(policy, es, Marks);
    es := es + [Marks];
    Then(policy, es, PlainSpawn);
    es := es + [PlainSpawn];
    assert STARTING in [STARTING];
  }

  /** The marker cannot be written: the server says that the launch failed, and nothing stops the next spawn. */
  lemma {:induction false} UnwrittenMarkerDoubles(policy: Policy)
    requires MarkerUnwritten in policy
    ensures !AllSafe(policy)
  {
    var es := FirstUncertain(policy);
    Then(policy, es, MarkFails);
    es := es + [MarkFails];
    Then(policy, es, PlainSpawn);
    es := es + [PlainSpawn];
    assert STARTING in [STARTING];
  }

  const ENDED := Attempt(Running, CliDead, Open)

  /** The exit record of a CLI that ran and ended is taken for that of one that never started: its shim still runs. */
  lemma {:induction false} ExitAloneSettlesEarly(policy: Policy)
    requires ExitAlone in policy
    ensures !AllSafe(policy)
  {
    var es := FirstLaunch(policy);
    Then(policy, es, Looks);
    es := WritesItsManifest(policy, es + [Looks], true);
    Then(policy, es, CliDies(0));
    es := es + [CliDies(0)];
    assert [WRITTEN][0 := ENDED] == [ENDED];
    Then(policy, es, WritesExit(0));
    ReportedEarly(policy, es + [WritesExit(0)], Some(0));
  }

  lemma {:induction false} ReportedEarly(policy: Policy, es: seq<Event>, manifest: Option<nat>)
    requires manifest.None? || ExitAlone in policy
    requires Run(policy, es) == Some(World([ENDED], manifest, Some(0), None, Waiting, true, false, false))
    ensures !AllSafe(policy)
  {
    var w := Run(policy, es).value;
    Then(policy, es, Reported);
    assert Apply(policy, w, Reported).launches[0] == ENDED.(known := Settled);
    assert ENDED.(known := Settled) in Apply(policy, w, Reported).launches;
  }

  /**
   The CLI runs and ends, and its manifest cannot be written: its exit record is taken for
   that of one that never started, and the prompt goes to a second CLI.
   */
  lemma {:induction false} UnwrittenManifestSettlesEarly(policy: Policy)
    requires ManifestUnwritten in policy
    ensures !AllSafe(policy)
  {
    var es := FirstLaunch(policy);
    Then(policy, es, CliStarts(0));
    es := es + [CliStarts(0)];
    assert [STARTING][0 := WRITTEN] == [WRITTEN];
    Then(policy, es, CliDies(0));
    es := es + [CliDies(0)];
    assert [WRITTEN][0 := ENDED] == [ENDED];
    Then(policy, es, WritesExit(0));
    es := es + [WritesExit(0)];
    Then(policy, es, Looks);
    ReportedEarly(policy, es + [Looks], None);
  }

  /**
   Over all runs: no CLI is started beside a launch whose fate is open, no
   directory is cleared under a live shim, and a launch declared over is over,
   exactly when none of these lapses can happen.
   */
  lemma {:induction false} SafeIffCareful(policy: Policy)
    ensures AllSafe(policy) <==> policy == CAREFUL
  {
    if policy == CAREFUL {
      forall es | Run(policy, es).Some?
        ensures Safe(Run(policy, es).value)
      {
        SafeRun(es);
      }
    } else {
      var lapse :| lapse in policy;
      match lapse
      case CrashInLaunch => CrashDoubles(policy);
      case DetachGivenUp => TimeoutDoubles(policy);
      case ManifestMissed => MissedManifestReuses(policy);
      case MarkerMissed => MissedMarkerDoubles(policy);
      case MarkerUnwritten => UnwrittenMarkerDoubles(policy);
      case ExitAlone => ExitAloneSettlesEarly(policy);
      case ManifestUnwritten => UnwrittenManifestSettlesEarly(policy);
    }
  }
}
