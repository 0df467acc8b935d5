/**
 What launches come to when nothing goes wrong, from any state a run can reach: a start is
 attached to or reported, an ended run makes room for the next, and an uncertain launch
 stops all others until it is confirmed over.
 */
module LaunchProgress {
  import opened Wrappers
  import opened Launch

  /** No launch is open, and what is in the directory may be cleared. */
  predicate Ready(w: World) {
    w.phase == Idle && w.marker.None? && (w.manifest.None? || BothDead(w, w.manifest.value))
  }

  /** The last launch is `a`, and nothing has been written about it but its manifest, if `manifest`. */
  predicate Under(w: World, before: World, a: Attempt, manifest: bool) {
    && w.launches == before.launches + [a]
    && w.manifest == (if manifest then Some(|before.launches|) else None)
    && w.exit.None? && w.beside == (before.beside || AnyOpen(before))
  }

  lemma {:induction false} ChangeLast(w: World, before: World, a: Attempt, b: Attempt)
    requires w.launches == before.launches + [a]
    ensures w.launches[|before.launches| := b] == before.launches + [b]
  {
  }

  /** A spawn clears the directory and starts a shim. */
  lemma {:induction false} Launches(policy: Policy, es: seq<Event>)
    requires Run(policy, es).Some? && Ready(Run(policy, es).value)
    ensures
      var r := Run(policy, es + [Reuse] + [Detaches]);
      && r.Some? && Under(r.value, Run(policy, es).value, STARTING, false)
      && r.value.phase == Waiting && r.value.marker.None?
  {
    Then(policy, es, Reuse);
    Then(policy, es + [Reuse], Detaches);
  }

  /** The launch `es` has started, and the server waits for it. */
  ghost predicate Starting(policy: Policy, es: seq<Event>, before: World) {
    var r := Run(policy, es);
    && r.Some? && Under(r.value, before, STARTING, false)
    && (r.value.phase == Waiting || r.value.phase == Uncertain || r.value.marker == Some(|before.launches|))
  }

  /** Its CLI starts and its manifest is written. */
  function Comes(n: nat): seq<Event> {
    [CliStarts(n)] + [WritesManifest(n)]
  }

  lemma {:induction false} ItComes(policy: Policy, es: seq<Event>, before: World)
    requires Starting(policy, es, before)
    ensures
      var w, r := Run(policy, es).value, Run(policy, es + Comes(|before.launches|));
      && r.Some? && Under(r.value, before, WRITTEN, true)
      && r.value.phase == w.phase && r.value.marker == w.marker
  {
    var n, w := |before.launches|, Run(policy, es).value;
    Then(policy, es, CliStarts(n));
    ChangeLast(w, before, STARTING, WRITTEN);
    Then(policy, es + [CliStarts(n)], WritesManifest(n));
    assert es + Comes(n) == es + [CliStarts(n)] + [WritesManifest(n)];
  }

  /** A launch whose manifest comes is attached to. */
  lemma {:induction false} AttachedWhenItComes(policy: Policy, es: seq<Event>, before: World)
    requires Starting(policy, es, before) && Run(policy, es).value.phase == Waiting
    ensures
      var w, r := Run(policy, es).value, Run(policy, es + Comes(|before.launches|) + [Attaches]);
      && r.Some? && Under(r.value, before, RUNNING, true)
      && r.value.phase == Idle && r.value.marker == w.marker
  {
    var n := |before.launches|;
    ItComes(policy, es, before);
    Then(policy, es + Comes(n), Attaches);
    ChangeLast(Run(policy, es + Comes(n)).value, before, WRITTEN, RUNNING);
  }

  /** And once its CLI and its shim have ended the directory may be cleared for the next. */
  lemma {:induction false} EndedMakesRoom(policy: Policy, es: seq<Event>, before: World)
    requires Run(policy, es).Some? && Under(Run(policy, es).value, before, RUNNING, true)
    requires Run(policy, es).value.phase == Idle && Run(policy, es).value.marker.None?
    ensures
      var n := |before.launches|;
      var r := Run(policy, es + [CliDies(n)] + [WritesExit(n)] + [ShimDies(n)]);
      r.Some? && Ready(r.value) && r.value.exit == Some(n) && Enabled(policy, r.value, Reuse)
  {
    var n := |before.launches|;
    var one, two := es + [CliDies(n)], es + [CliDies(n)] + [WritesExit(n)];
    Then(policy, es, CliDies(n));
    ChangeLast(Run(policy, es).value, before, RUNNING, RUNNING.(cli := CliDead));
    Then(policy, one, WritesExit(n));
    Then(policy, two, ShimDies(n));
    ChangeLast(Run(policy, two).value, before, RUNNING.(cli := CliDead), Attempt(ShimDead, CliDead, Owned));
  }

  /** A shim that cannot start its CLI reports it, and the server starts one without a shim. */
  lemma {:induction false} FailedStartFallsBack(policy: Policy, es: seq<Event>, before: World)
    requires Starting(policy, es, before) && Run(policy, es).value.phase == Waiting
    ensures
      var n := |before.launches|;
      var r := Run(policy, es + [CliFails(n)] + [Looks] + [Reported]);
      && r.Some? && r.value.launches == before.launches + [Attempt(Ending, NotStarted, Settled)]
      && r.value.phase == Idle && r.value.exit == Some(n) && r.value.manifest.None?
  {
    var n, failed := |before.launches|, Attempt(Ending, NotStarted, Open);
    var one, two := es + [CliFails(n)], es + [CliFails(n)] + [Looks];
    Then(policy, es, CliFails(n));
    ChangeLast(Run(policy, es).value, before, STARTING, failed);
    Then(policy, one, Looks);
    Then(policy, two, Reported);
    ChangeLast(Run(policy, two).value, before, failed, failed.(known := Settled));
  }

  /** A launch that has come ends, and the server has made nothing of that yet. */
  lemma {:induction false} ItEnds(policy: Policy, es: seq<Event>, before: World)
    requires Run(policy, es).Some? && Under(Run(policy, es).value, before, WRITTEN, true)
    ensures
      var n, w := |before.launches|, Run(policy, es).value;
      var r := Run(policy, es + [CliDies(n)] + [ShimDies(n)]);
      && r.Some? && Under(r.value, before, Attempt(ShimDead, CliDead, Open), true)
      && r.value.phase == w.phase && r.value.marker == w.marker
  {
    var n := |before.launches|;
    Then(policy, es, CliDies(n));
    ChangeLast(Run(policy, es).value, before, WRITTEN, ENDED);
    Then(policy, es + [CliDies(n)], ShimDies(n));
    ChangeLast(Run(policy, es + [CliDies(n)]).value, before, ENDED, Attempt(ShimDead, CliDead, Open));
  }

  /** It is found torn down, by its manifest alone. */
  lemma {:induction false} TornDownFallsBack(policy: Policy, es: seq<Event>, before: World)
    requires Run(policy, es).Some? && Under(Run(policy, es).value, before, WRITTEN, true)
    requires Run(policy, es).value.phase == Waiting
    ensures
      var n := |before.launches|;
      var r := Run(policy, es + [CliDies(n)] + [ShimDies(n)] + [TornDown]);
      && r.Some? && r.value.launches == before.launches + [Attempt(ShimDead, CliDead, Settled)]
      && r.value.phase == Idle
  {
    var n, dead := |before.launches|, Attempt(ShimDead, CliDead, Open);
    var ended := es + [CliDies(n)] + [ShimDies(n)];
    ItEnds(policy, es, before);
    Then(policy, ended, TornDown);
    ChangeLast(Run(policy, ended).value, before, dead, dead.(known := Settled));
  }

  /**
   A launch that the server gives up on is marked, and then every spawn is refused, with a
   shim or without, unless a marker that is there can be missed.
   */
  lemma {:induction false} UncertainStopsAll(policy: Policy, es: seq<Event>, before: World)
    requires Starting(policy, es, before) && Run(policy, es).value.phase == Waiting
    ensures
      var n := |before.launches|;
      var r := Run(policy, es + [GivesUp] + [Marks]);
      && r.Some? && Starting(policy, es + [GivesUp] + [Marks], before)
      && r.value.marker == Some(n) && r.value.phase == Idle
      && (MarkerMissed !in policy ==> !Enabled(policy, r.value, PlainSpawn) && !Enabled(policy, r.value, Reuse))
  {
    Then(policy, es, GivesUp);
    Then(policy, es + [GivesUp], Marks);
  }

  /** Until it has come and ended: then it is confirmed over, and the next spawn may go. */
  lemma {:induction false} ConfirmedMakesRoom(policy: Policy, es: seq<Event>, before: World)
    requires Run(policy, es).Some? && Under(Run(policy, es).value, before, WRITTEN, true)
    requires Run(policy, es).value.phase == Idle && Run(policy, es).value.marker == Some(|before.launches|)
    ensures
      var n := |before.launches|;
      var r := Run(policy, es + [CliDies(n)] + [ShimDies(n)] + [Clears]);
      && r.Some? && r.value.launches == before.launches + [Attempt(ShimDead, CliDead, Settled)]
      && Ready(r.value) && Enabled(policy, r.value, PlainSpawn) && Enabled(policy, r.value, Reuse)
  {
    var n, dead := |before.launches|, Attempt(ShimDead, CliDead, Open);
    var ended := es + [CliDies(n)] + [ShimDies(n)];
    ItEnds(policy, es, before);
    Then(policy, ended, Clears);
    ChangeLast(Run(policy, ended).value, before, dead, dead.(known := Settled));
  }
}
