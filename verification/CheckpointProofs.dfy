/**
 Consistency of checkpoints under every interleaving, and equivalence of a
 crashed and resumed session with one that never stopped.
 */
module CheckpointProofs {
  import opened Wrappers
  import opened LogTail
  import opened LogTailProofs
  import opened Checkpoint

  /** The session after the given lines: the uninterrupted run. */
  function Fold<S>(apply: (S, Bytes) -> S, first: S, lines: seq<Bytes>): S {
    if lines == [] then first else apply(Fold(apply, first, lines[..|lines| - 1]), lines[|lines| - 1])
  }

  /** `session` is what the first `k` lines make of it, and `at` is where they end. */
  predicate AfterLines<S(==)>(j: Job<S>, k: nat, at: nat, session: S) {
    var lines := Split(j.file);
    k <= |lines| && at == LengthOf(lines, k) && session == Fold(j.apply, j.first, lines[..k])
  }

  ghost predicate Reached<S>(j: Job<S>, at: nat, session: S) {
    exists k: nat :: AfterLines(j, k, at, session)
  }

  lemma {:induction false} LengthOfNext(lines: seq<Bytes>, k: nat)
    requires k < |lines|
    ensures LengthOf(lines, k + 1) == LengthOf(lines, k) + |lines[k]|
  {
    if k > 0 {
      LengthOfNext(lines[1..], k - 1);
    }
  }

  lemma {:induction false} LengthOfGrows(lines: seq<Bytes>, i: nat, k: nat)
    requires i < k <= |lines| && forall n :: 0 <= n < |lines| ==> lines[n] != []
    ensures LengthOf(lines, i) < LengthOf(lines, k)
    decreases k
  {
    LengthOfNext(lines, k - 1);
    if i < k - 1 {
      LengthOfGrows(lines, i, k - 1);
    }
  }

  /** At one place in the log there is one uninterrupted state. */
  lemma {:induction false} ReachedOnce<S>(j: Job<S>, at: nat, a: S, b: S)
    requires Reached(j, at, a) && Reached(j, at, b)
    ensures a == b
  {
    var m: nat :| AfterLines(j, m, at, a);
    var n: nat :| AfterLines(j, n, at, b);
    forall i: nat | i < |Split(j.file)|
      ensures Split(j.file)[i] != []
    {
      LinesAreNotEmpty(j.file, i);
    }
    if m < n {
      LengthOfGrows(Split(j.file), m, n);
    } else if n < m {
      LengthOfGrows(Split(j.file), n, m);
    }
  }

  lemma {:induction false} ReachedFirst<S>(j: Job<S>)
    ensures Reached(j, 0, j.first)
  {
    assert AfterLines(j, 0, 0, j.first);
  }

  lemma {:induction false} FoldNext<S>(apply: (S, Bytes) -> S, first: S, lines: seq<Bytes>, k: nat)
    requires k < |lines|
    ensures Fold(apply, first, lines[..k + 1]) == apply(Fold(apply, first, lines[..k]), lines[k])
  {
    assert lines[..k + 1][..k] == lines[..k];
  }

  lemma {:induction false} ReachedNext<S>(j: Job<S>, at: nat, session: S, line: Bytes)
    requires Reached(j, at, session)
    requires NextLines(j.file, at) != [] && line == NextLines(j.file, at)[0]
    ensures Reached(j, at + |line|, j.apply(session, line))
  {
    var k: nat :| AfterLines(j, k, at, session);
    SplitComposes(j.file, k);
    assert NextLines(j.file, at) == Split(j.file)[k..];
    AfterNext(j, k, at, session);
    assert line == Split(j.file)[k];
    assert AfterLines(j, k + 1, at + |line|, j.apply(session, line));
  }

  lemma {:induction false} AfterNext<S>(j: Job<S>, k: nat, at: nat, session: S)
    requires AfterLines(j, k, at, session) && k < |Split(j.file)|
    ensures AfterLines(j, k + 1, at + |Split(j.file)[k]|, j.apply(session, Split(j.file)[k]))
  {
    var lines := Split(j.file);
    LengthOfNext(lines, k);
    FoldNext(j.apply, j.first, lines, k);
  }

  lemma {:induction false} ReachedEnd<S>(j: Job<S>, session: S)
    requires Reached(j, |j.file|, session)
    ensures session == Fold(j.apply, j.first, Split(j.file))
  {
    var k: nat :| AfterLines(j, k, |j.file|, session);
    SplitComposes(j.file, k);
    assert j.file[|j.file|..] == [];
    assert Split(j.file)[k..] == [];
    assert Split(j.file)[..k] == Split(j.file);
  }

  // ----- the invariant ------------------------------------------------------------------

  /** At the end of the log the session is no longer that of the lines alone once it is wound up. */
  predicate Plain<S>(j: Job<S>, w: World<S>, at: nat) {
    w.wound ==> at < |j.file|
  }

  /** The reader is on the uninterrupted run, and a line it holds is the next one. */
  ghost predicate ReaderShape<S>(j: Job<S>, w: World<S>) {
    match w.phase
    case Applying(line, before) =>
      && w.holder == Reader && w.offset == w.committed + |line| && Reached(j, w.committed, before)
      && NextLines(j.file, w.committed) != [] && line == NextLines(j.file, w.committed)[0]
    case Waiting(line) =>
      && w.holder != Reader && w.offset == w.committed && Reached(j, w.offset, w.session)
      && NextLines(j.file, w.offset) != [] && line == NextLines(j.file, w.offset)[0]
    case Asked => w.holder == Reader && w.stage == Idle && w.offset == w.committed && Reached(j, w.offset, w.session)
    case Asking =>
      && w.holder != Reader && w.offset == w.committed
      && (Plain(j, w, w.offset) ==> Reached(j, w.offset, w.session))
    case Ended =>
      && w.holder != Reader && w.offset == w.committed && w.offset == |j.file|
      && (!w.wound ==> Reached(j, w.offset, w.session))
  }

  /** A checkpoint being written is of this very moment, but for a session that is being wound up. */
  predicate IsNow<S(==)>(w: World<S>, ck: Saved<S>) {
    var now := Snapshot(w.offset, w.committed, w.session, w.owed, ck.inflight);
    ck.offset == now.offset && ((w.phase.Ended? && w.wound) || ck == now) && (w.holder == Reader ==> ck.inflight)
  }

  /** Nothing else moves while the boundary is held. */
  predicate StageShape<S(==)>(w: World<S>) {
    && (w.holder == Writer ==> w.stage != Idle)
    && (w.holder == Free ==> w.stage == Idle)
    && (w.holder == Reader && w.stage.Started? ==> w.stage.inflight)
    && (w.stage.Built? || w.stage.Replaced? ==> IsNow(w, w.stage.ck))
  }

  /** No forced checkpoint is taken before the line's handling is complete. */
  predicate Late(policy: Policy) {
    policy.lateAcks && policy.lateBegins
  }

  /** What is adopted is between two lines. */
  predicate Careful(policy: Policy) {
    policy.inflights ==> Late(policy)
  }

  /** A checkpoint that a later process would resume the uninterrupted run from. */
  ghost predicate SavedSound<S>(j: Job<S>, policy: Policy, w: World<S>, ck: Saved<S>) {
    (!ck.inflight || Late(policy)) && Plain(j, w, ck.offset) ==> Reached(j, ck.offset, ck.session)
  }

  ghost predicate Sound<S>(j: Job<S>, policy: Policy, w: World<S>) {
    && (w.up ==> ReaderShape(j, w) && StageShape(w))
    && (w.store.disk.Some? ==> SavedSound(j, policy, w, w.store.disk.value))
    && (w.up && w.stage.Built? ==> SavedSound(j, policy, w, w.stage.ck))
    && (w.read.Some? ==> SavedSound(j, policy, w, w.read.value))
  }

  /** The steps of the reader's own loop; the rest are those of the writers, of a crash and of a boot. */
  predicate OfReader<S>(e: Event<S>) {
    e.Cut? || e.HandOut? || e.Handle? || e.Ask? || e.Release? || e.End? || e.Wind?
  }

  lemma {:induction false} SoundReaderStep<S>(j: Job<S>, policy: Policy, w: World<S>, e: Event<S>)
    requires Sound(j, policy, w) && Enabled(j, policy, w, e) && OfReader(e)
    ensures Sound(j, policy, Apply(j, policy, w, e))
  {
    if e.Ask? {
      ReachedNext(j, w.committed, w.phase.before, w.phase.line);
    }
  }

  lemma {:induction false} SoundBuild<S>(j: Job<S>, policy: Policy, w: World<S>)
    requires Sound(j, policy, w) && Enabled(j, policy, w, Build)
    ensures Sound(j, policy, Apply(j, policy, w, Build))
  {
    if w.phase.Applying? {
      ReachedNext(j, w.committed, w.phase.before, w.phase.line);
    }
  }

  lemma {:induction false} SoundWriterStep<S>(j: Job<S>, policy: Policy, w: World<S>, e: Event<S>)
    requires Sound(j, policy, w) && Enabled(j, policy, w, e)
    requires e.Start? || e.Force? || e.Drop? || e.Replace? || e.Fail? || e.Record?
    ensures Sound(j, policy, Apply(j, policy, w, e))
  {
  }

  lemma {:induction false} SoundReplayStep<S>(j: Job<S>, policy: Policy, w: World<S>, e: Event<S>)
    requires Sound(j, policy, w) && Enabled(j, policy, w, e)
    requires e.ReplayRead? || e.ReplayFails? || e.ReplayClear? || e.Crash?
    ensures Sound(j, policy, Apply(j, policy, w, e))
  {
  }

  lemma {:induction false} SoundAdopt<S>(j: Job<S>, policy: Policy, w: World<S>)
    requires Careful(policy)
    requires Sound(j, policy, w) && Enabled(j, policy, w, Adopt)
    ensures Sound(j, policy, Apply(j, policy, w, Adopt))
  {
  }

  lemma {:induction false} SoundStep<S>(j: Job<S>, policy: Policy, w: World<S>, e: Event<S>)
    requires Careful(policy)
    requires Sound(j, policy, w) && Enabled(j, policy, w, e)
    ensures Sound(j, policy, Apply(j, policy, w, e))
  {
    if OfReader(e) {
      SoundReaderStep(j, policy, w, e);
    } else if e.Build? {
      SoundBuild(j, policy, w);
    } else if e.Adopt? {
      SoundAdopt(j, policy, w);
    } else if e.ReplayRead? || e.ReplayFails? || e.ReplayClear? || e.Crash? {
      SoundReplayStep(j, policy, w, e);
    } else {
      SoundWriterStep(j, policy, w, e);
    }
  }

  lemma {:induction false} SoundRun<S>(j: Job<S>, policy: Policy, es: seq<Event<S>>)
    requires Careful(policy)
    requires Run(j, policy, es).Some?
    ensures Sound(j, policy, Run(j, policy, es).value)
  {
    if es == [] {
      ReachedFirst(j);
    } else {
      SoundRun(j, policy, es[..|es| - 1]);
      SoundStep(j, policy, Run(j, policy, es[..|es| - 1]).value, es[|es| - 1]);
    }
  }

  // ----- what holds of every run -------------------------------------------------------------

  /**
   Between lines the session is where the uninterrupted run would be, and at the end it is
   as that ends, until it is wound up.
   */
  ghost predicate OnTrack<S>(j: Job<S>, w: World<S>) {
    && (w.up && (w.phase.Asking? || w.phase.Waiting?) && Plain(j, w, w.offset) ==> Reached(j, w.offset, w.session))
    && (w.up && w.phase.Ended? && !w.wound ==> w.session == Fold(j.apply, j.first, Split(j.file)))
  }

  lemma {:induction false} SoundIsOnTrack<S>(j: Job<S>, policy: Policy, w: World<S>)
    requires Sound(j, policy, w)
    ensures OnTrack(j, w)
  {
    if w.up && w.phase.Ended? && !w.wound {
      ReachedEnd(j, w.session);
    }
  }

  /**
   A session that crashed and was adopted any number of times is, at every line
   boundary, where one that never stopped would be, and ends as that one ends.
   */
  lemma {:induction false} ResumeEquivalent<S>(j: Job<S>, policy: Policy, es: seq<Event<S>>)
    requires Careful(policy)
    requires Run(j, policy, es).Some?
    ensures OnTrack(j, Run(j, policy, es).value)
  {
    SoundRun(j, policy, es);
    SoundIsOnTrack(j, policy, Run(j, policy, es).value);
  }

  function Append(lines: seq<Bytes>, line: Bytes): seq<Bytes> {
    lines + [line]
  }

  lemma {:induction false} FoldAppend(lines: seq<Bytes>)
    ensures Fold(Append, [], lines) == lines
  {
    if lines != [] {
      FoldAppend(lines[..|lines| - 1]);
    }
  }

  /** In particular no line is skipped and none counts twice: a session that collects lines ends with the file's. */
  lemma {:induction false} NoLineLostOrRepeated(
      file: Bytes, busy: seq<Bytes> -> bool, policy: Policy, es: seq<Event<seq<Bytes>>>)
    requires Careful(policy)
    requires
      var j := Job(file, [], Append, busy);
      && Run(j, policy, es).Some? && Run(j, policy, es).value.up
      && Run(j, policy, es).value.phase.Ended? && !Run(j, policy, es).value.wound
    ensures Run(Job(file, [], Append, busy), policy, es).value.session == Split(file)
  {
    ResumeEquivalent(Job(file, [], Append, busy), policy, es);
    FoldAppend(Split(file));
  }

  // ----- offsets never go back ----------------------------------------------------------------

  /** What every process keeps, whatever is on disk. */
  predicate TailShape<S(==)>(w: World<S>) {
    w.up ==>
      && StageShape(w)
      && w.committed <= w.offset
      && (w.holder != Reader ==> w.committed == w.offset)
      && (w.phase.Applying? || w.phase.Asked? <==> w.holder == Reader)
      && (w.phase.Asked? ==> w.stage == Idle && w.committed == w.offset)
      && (w.store.last.Some? ==> w.store.last.value <= if w.holder == Reader then w.offset else w.committed)
  }

  lemma {:induction false} TailReaderStep<S>(j: Job<S>, policy: Policy, w: World<S>, e: Event<S>)
    requires TailShape(w) && Enabled(j, policy, w, e) && OfReader(e)
    ensures TailShape(Apply(j, policy, w, e))
  {
  }

  lemma {:induction false} TailWriterStep<S>(j: Job<S>, policy: Policy, w: World<S>, e: Event<S>)
    requires TailShape(w) && Enabled(j, policy, w, e)
    requires e.Start? || e.Force? || e.Build? || e.Drop? || e.Replace? || e.Fail? || e.Record?
    ensures TailShape(Apply(j, policy, w, e)) && e != Drop
  {
  }

  lemma {:induction false} TailStep<S>(j: Job<S>, policy: Policy, w: World<S>, e: Event<S>)
    requires TailShape(w) && Enabled(j, policy, w, e)
    ensures TailShape(Apply(j, policy, w, e)) && e != Drop
  {
    if OfReader(e) {
      TailReaderStep(j, policy, w, e);
    } else if !e.Crash? && !e.Adopt? && !e.ReplayRead? && !e.ReplayFails? && !e.ReplayClear? {
      TailWriterStep(j, policy, w, e);
    }
  }

  lemma {:induction false} TailRun<S>(j: Job<S>, policy: Policy, es: seq<Event<S>>)
    requires Run(j, policy, es).Some?
    ensures TailShape(Run(j, policy, es).value)
  {
    if es != [] {
      TailRun(j, policy, es[..|es| - 1]);
      TailStep(j, policy, Run(j, policy, es[..|es| - 1]).value, es[|es| - 1]);
    }
  }

  /** With one tail per launch the boundary alone sees to it: the guard against stale snapshots is never needed. */
  lemma {:induction false} NeverStale<S>(j: Job<S>, policy: Policy, es: seq<Event<S>>)
    requires Run(j, policy, es).Some?
    ensures Drop !in es
    decreases |es|
  {
    if es != [] {
      var init := es[..|es| - 1];
      TailRun(j, policy, init);
      TailStep(j, policy, Run(j, policy, init).value, es[|es| - 1]);
      NeverStale(j, policy, init);
      assert es == init + [es[|es| - 1]];
    }
  }

  /**
   When a checkpoint that was not forced lands, whatever is adopted, no line is being
   applied: it covers every line handed out so far.
   */
  lemma {:induction false} CheckpointCoversHandedOut<S>(j: Job<S>, policy: Policy, es: seq<Event<S>>)
    requires Run(j, policy, es + [Replace]).Some?
    ensures
      var w := Run(j, policy, es + [Replace]).value;
      && w.store.disk.Some?
      && (!w.store.disk.value.inflight ==> !w.phase.Applying? && w.store.disk.value.offset == w.offset)
  {
    assert (es + [Replace])[..|es|] == es;
    TailRun(j, policy, es);
  }

  // ----- does the disk go back? ---------------------------------------------------------------

  function DiskOffset<S>(w: World<S>): int {
    if w.store.disk.Some? then w.store.disk.value.offset else -1
  }

  /** The disk is not ahead of the reader, and a replay has read what is there. */
  predicate DiskShape<S(==)>(w: World<S>) {
    && TailShape(w)
    && (w.up ==> DiskOffset(w) <= if w.holder == Reader then w.offset else w.committed)
    && (w.read.Some? ==> w.read == w.store.disk)
  }

  lemma {:induction false} DiskReaderStep<S>(j: Job<S>, policy: Policy, w: World<S>, e: Event<S>)
    requires DiskShape(w) && Enabled(j, policy, w, e) && OfReader(e)
    ensures DiskShape(Apply(j, policy, w, e))
    ensures DiskOffset(w) == DiskOffset(Apply(j, policy, w, e))
  {
    TailReaderStep(j, policy, w, e);
  }

  lemma {:induction false} DiskStep<S>(j: Job<S>, policy: Policy, w: World<S>, e: Event<S>)
    requires !policy.overlaps && DiskShape(w) && Enabled(j, policy, w, e)
    ensures DiskShape(Apply(j, policy, w, e))
    ensures DiskOffset(w) <= DiskOffset(Apply(j, policy, w, e))
  {
    if OfReader(e) {
      DiskReaderStep(j, policy, w, e);
    } else {
      TailStep(j, policy, w, e);
    }
  }

  lemma {:induction false} DiskRun<S>(j: Job<S>, policy: Policy, es: seq<Event<S>>)
    requires !policy.overlaps && Run(j, policy, es).Some?
    ensures DiskShape(Run(j, policy, es).value)
  {
    if es != [] {
      DiskRun(j, policy, es[..|es| - 1]);
      DiskStep(j, policy, Run(j, policy, es[..|es| - 1]).value, es[|es| - 1]);
    }
  }

  /** Between its first `k` steps and its end the offset on disk has not decreased. */
  ghost predicate Advances<S>(j: Job<S>, policy: Policy, es: seq<Event<S>>, k: nat) {
    k <= |es| && Run(j, policy, es).Some? ==>
      && Run(j, policy, es[..k]).Some?
      && DiskOffset(Run(j, policy, es[..k]).value) <= DiskOffset(Run(j, policy, es).value)
  }

  /**
   Along any run in which nothing lands while a replay is under way, over any number of
   processes and whatever is adopted, the offset on disk never decreases.
   */
  lemma {:induction false} DiskNeverGoesBack<S>(j: Job<S>, policy: Policy, es: seq<Event<S>>, k: nat)
    requires !policy.overlaps
    ensures Advances(j, policy, es, k)
    decreases |es|
  {
    if k == |es| {
      assert es[..k] == es;
    } else if k < |es| && Run(j, policy, es).Some? {
      var init := es[..|es| - 1];
      DiskRun(j, policy, init);
      DiskStep(j, policy, Run(j, policy, init).value, es[|es| - 1]);
      DiskNeverGoesBack(j, policy, init, k);
      assert init[..k] == es[..k];
    }
  }

  // ----- the tail's part ----------------------------------------------------------------------

  /** The offsets are those of the tail. */
  predicate OffsetsOf<S>(w: World<S>, t: Tail) {
    w.offset == t.offset && w.committed == t.committed
  }

  lemma {:induction false} NextCuts<S>(j: Job<S>, w: World<S>, t: Tail, polls: seq<Poll>)
    requires Buffered(t, j.file) && Settled(j.file, polls) && Readable(polls) && Next(t, j.file, polls).1.Line?
    ensures NextLines(j.file, t.offset) != [] && NextLines(j.file, t.offset)[0] == Next(t, j.file, polls).1.raw
    ensures Next(t, j.file, polls).0.committed == t.offset
    ensures Next(t, j.file, polls).0.offset == t.offset + |Next(t, j.file, polls).1.raw|
  {
    var at := t.(committed := t.offset);
    LoopRefines(at, j.file, polls);
    LoopMoves(at, j.file, polls);
  }

  /** Asking for the first line of a tail is these steps of the run. */
  lemma {:induction false} FirstNextIsItsSteps<S>(j: Job<S>, policy: Policy, w: World<S>, t: Tail, polls: seq<Poll>)
    requires Buffered(t, j.file) && Settled(j.file, polls) && Readable(polls) && Next(t, j.file, polls).1.Line?
    requires w.up && w.phase == Asking && w.holder == Free && OffsetsOf(w, t) && t.committed == t.offset
    ensures
      && Enabled(j, policy, w, Cut)
      && var w1 := Apply(j, policy, w, Cut);
      && Enabled(j, policy, w1, HandOut)
      && var w2 := Apply(j, policy, w1, HandOut);
      && w2.phase == Applying(Next(t, j.file, polls).1.raw, w.session) && OffsetsOf(w2, Next(t, j.file, polls).0)
  {
    NextCuts(j, w, t, polls);
  }

  /** Asking for the line after one that has been handled is to commit it, let the boundary go, and the same. */
  lemma {:induction false} NextIsItsSteps<S>(j: Job<S>, policy: Policy, w: World<S>, t: Tail, polls: seq<Poll>)
    requires Buffered(t, j.file) && Settled(j.file, polls) && Readable(polls) && Next(t, j.file, polls).1.Line?
    requires Enabled(j, policy, w, Ask) && OffsetsOf(w, t)
    ensures
      && var w1 := Apply(j, policy, w, Ask);
      && Enabled(j, policy, w1, Release)
      && var w2 := Apply(j, policy, w1, Release);
      && Enabled(j, policy, w2, Cut)
      && var w3 := Apply(j, policy, w2, Cut);
      && Enabled(j, policy, w3, HandOut)
      && var w4 := Apply(j, policy, w3, HandOut);
      && w4.phase == Applying(Next(t, j.file, polls).1.raw, w.session) && OffsetsOf(w4, Next(t, j.file, polls).0)
  {
    NextCuts(j, w, t, polls);
  }

  /** A session comes back from a checkpoint that owes nothing, as it was saved and at its offset. */
  lemma {:induction false} AdoptedAsSaved<S>(j: Job<S>, policy: Policy, es: seq<Event<S>>)
    requires Run(j, policy, es + [Adopt]).Some?
    ensures Run(j, policy, es).Some? && Run(j, policy, es).value.store.disk.Some?
    ensures
      var ck := Run(j, policy, es).value.store.disk.value;
      var w := Run(j, policy, es + [Adopt]).value;
      && !ck.owed && j.busy(ck.session) && ck.offset <= |j.file| && (ck.inflight ==> policy.inflights)
      && w.up && w.phase == Asking && w.holder == Free && w.session == ck.session
      && w.offset == w.committed == ck.offset && w.store.last.None?
  {
    assert (es + [Adopt])[..|es|] == es;
  }

  // ----- adopting with a line in flight ----------------------------------------------------------

  ghost predicate AllOnTrack<S(!new)>(j: Job<S>, policy: Policy) {
    forall es :: Run(j, policy, es).Some? ==> OnTrack(j, Run(j, policy, es).value)
  }

  /** No checkpoint with a line in flight was adopted along `es`. */
  ghost predicate AdoptsWhole<S>(j: Job<S>, es: seq<Event<S>>) {
    forall k :: 0 <= k < |es| && es[k].Adopt? ==>
      && Run(j, SOURCE, es[..k]).Some?
      && var disk := Run(j, SOURCE, es[..k]).value.store.disk;
      disk.Some? && !disk.value.inflight
  }

  /** As the source, but that only whole checkpoints are adopted. */
  const WHOLE := SOURCE.(inflights := false)

  lemma {:induction false} WholeStep<S>(j: Job<S>, w: World<S>, e: Event<S>)
    requires Enabled(j, SOURCE, w, e)
    requires e.Adopt? ==> w.store.disk.Some? && !w.store.disk.value.inflight
    ensures Enabled(j, WHOLE, w, e) && Apply(j, WHOLE, w, e) == Apply(j, SOURCE, w, e)
  {
  }

  lemma {:induction false} WholeRunIsGuarded<S>(j: Job<S>, es: seq<Event<S>>)
    requires Run(j, SOURCE, es).Some? && AdoptsWhole(j, es)
    ensures Run(j, WHOLE, es) == Run(j, SOURCE, es)
  {
    if es != [] {
      var init := es[..|es| - 1];
      forall k | 0 <= k < |init|
        ensures init[k] == es[k] && init[..k] == es[..k]
      {
      }
      WholeRunIsGuarded(j, init);
      WholeStep(j, Run(j, SOURCE, init).value, es[|es| - 1]);
    }
  }

  /** A checkpoint on disk that was not forced pairs its offset with the session that the lines before it make. */
  ghost predicate Consistent<S>(j: Job<S>, w: World<S>) {
    w.store.disk.Some? && !w.store.disk.value.inflight && Plain(j, w, w.store.disk.value.offset) ==>
      Reached(j, w.store.disk.value.offset, w.store.disk.value.session)
  }

  /**
   In every run of the source in which only whole checkpoints are adopted, whole
   checkpoints are consistent, however the reader and the writers interleave and
   however often the server dies.
   */
  lemma {:induction false} SnapshotsConsistent<S>(j: Job<S>, es: seq<Event<S>>)
    requires Run(j, SOURCE, es).Some? && AdoptsWhole(j, es)
    ensures Consistent(j, Run(j, SOURCE, es).value)
  {
    WholeRunIsGuarded(j, es);
    SoundRun(j, WHOLE, es);
  }

  /** So is the session: such a run resumes exactly. */
  lemma {:induction false} WholeAdoptionsAreExact<S>(j: Job<S>, es: seq<Event<S>>)
    requires Run(j, SOURCE, es).Some? && AdoptsWhole(j, es)
    ensures OnTrack(j, Run(j, SOURCE, es).value)
  {
    WholeRunIsGuarded(j, es);
    ResumeEquivalent(j, WHOLE, es);
  }

  lemma {:induction false} Then<S>(j: Job<S>, policy: Policy, es: seq<Event<S>>, e: Event<S>)
    requires Run(j, policy, es).Some? && Enabled(j, policy, Run(j, policy, es).value, e)
    ensures Run(j, policy, es + [e]) == Some(Apply(j, policy, Run(j, policy, es).value, e))
  {
    assert (es + [e])[..|es|] == es;
  }

  /** A forced checkpoint of this session is allowed, in the middle of the first line. */
  predicate MayForce<S(==)>(j: Job<S>, policy: Policy, line: Bytes, session: S, owed: bool) {
    (if owed then policy.lateBegins else policy.lateAcks) ==> session == j.apply(j.first, line)
  }

  /** The world after it. */
  function Forced<S>(j: Job<S>, line: Bytes, session: S, owed: bool): World<S> {
    var ck := Saved(|line|, session, true, owed);
    World(true, |line|, 0, Applying(line, j.first), session, owed, Reader, Replaced(ck),
          Store(None, Some(ck)), None, false)
  }

  lemma {:induction false} InTheFirstLine<S>(j: Job<S>, policy: Policy, line: Bytes, session: S, owed: bool)
    requires NextLines(j.file, 0) != [] && line == NextLines(j.file, 0)[0]
    ensures Run(j, policy, [Cut, HandOut, Handle(session, owed)]) == Some(
      World(true, |line|, 0, Applying(line, j.first), session, owed, Reader, Idle, Store(None, None), None, false))
  {
    var none: seq<Event<S>>, one, two := [], [Cut], [Cut, HandOut];
    assert Run(j, policy, none) == Some(Init(j));
    Then(j, policy, none, Cut);
    assert none + [Cut] == one;
    Then(j, policy, one, HandOut);
    assert one + [HandOut] == two;
    Then(j, policy, two, Handle(session, owed));
    assert two + [Handle(session, owed)] == [Cut, HandOut, Handle(session, owed)];
  }

  lemma {:induction false} ForceLands<S>(
      j: Job<S>, policy: Policy, line: Bytes, session: S, owed: bool) returns (es: seq<Event<S>>)
    requires NextLines(j.file, 0) != [] && line == NextLines(j.file, 0)[0] && MayForce(j, policy, line, session, owed)
    ensures Run(j, policy, es) == Some(Forced(j, line, session, owed))
  {
    InTheFirstLine(j, policy, line, session, owed);
    es := [Cut, HandOut, Handle(session, owed)];
    Then(j, policy, es, Force);
    es := es + [Force];
    Then(j, policy, es, Build);
    es := es + [Build];
    Then(j, policy, es, Replace);
    es := es + [Replace];
  }

  /** What is adopted in the end: the offset after the line, and the session before its handling was done. */
  function HalfAdopted<S>(j: Job<S>, half: S): World<S>
    requires j.file != []
  {
    var at := |Split(j.file)[0]|;
    Fresh(at, half, Some(Saved(at, half, true, false)))
  }

  /** An `ack` before the line is done, a crash, an adoption: the rest of the line's handling is lost. */
  lemma {:induction false} EarlyAckLosesTheRest<S>(j: Job<S>, policy: Policy, half: S) returns (es: seq<Event<S>>)
    requires j.file != [] && half != j.apply(j.first, Split(j.file)[0]) && j.busy(half)
    requires policy.inflights && !policy.lateAcks
    ensures Run(j, policy, es) == Some(HalfAdopted(j, half)) && !OnTrack(j, HalfAdopted(j, half))
  {
    assert j.file[0..] == j.file;
    es := ForceLands(j, policy, NextLines(j.file, 0)[0], half, false);
    Then(j, policy, es, Crash);
    es := es + [Crash];
    Then(j, policy, es, Adopt);
    es := es + [Adopt];
    HalfIsOffTrack(j, half);
  }

  /** So does a `begin`, once a replay has run the completion and cleared the stamp. */
  lemma {:induction false} ReplayedBeginLosesTheRest<S>(j: Job<S>, policy: Policy, half: S) returns (es: seq<Event<S>>)
    requires j.file != [] && half != j.apply(j.first, Split(j.file)[0]) && j.busy(half)
    requires policy.inflights && !policy.lateBegins
    ensures Run(j, policy, es) == Some(HalfAdopted(j, half)) && !OnTrack(j, HalfAdopted(j, half))
  {
    assert j.file[0..] == j.file;
    es := ForceLands(j, policy, NextLines(j.file, 0)[0], half, true);
    Then(j, policy, es, Crash);
    es := es + [Crash];
    Then(j, policy, es, ReplayRead);
    es := es + [ReplayRead];
    Then(j, policy, es, ReplayClear);
    es := es + [ReplayClear];
    Then(j, policy, es, Adopt);
    es := es + [Adopt];
    HalfIsOffTrack(j, half);
  }

  lemma {:induction false} HalfIsOffTrack<S>(j: Job<S>, half: S)
    requires j.file != [] && half != j.apply(j.first, Split(j.file)[0])
    ensures !Reached(j, |Split(j.file)[0]|, half)
  {
    assert j.file[0..] == j.file;
    var line := Split(j.file)[0];
    ReachedFirst(j);
    ReachedNext(j, 0, j.first, line);
    if Reached(j, |line|, half) {
      ReachedOnce(j, |line|, half, j.apply(j.first, line));
    }
  }

  lemma {:induction false} HalfIsAdopted<S>(j: Job<S>, policy: Policy, half: S) returns (es: seq<Event<S>>)
    requires j.file != [] && half != j.apply(j.first, Split(j.file)[0]) && j.busy(half)
    requires !Careful(policy)
    ensures Run(j, policy, es) == Some(HalfAdopted(j, half)) && !OnTrack(j, HalfAdopted(j, half))
  {
    if policy.lateAcks {
      es := ReplayedBeginLosesTheRest(j, policy, half);
    } else {
      es := EarlyAckLosesTheRest(j, policy, half);
    }
  }

  /** The next whole checkpoint pairs the two. */
  lemma {:induction false} HalfSpoilsTheNext<S>(j: Job<S>, policy: Policy, half: S) returns (es: seq<Event<S>>)
    requires j.file != [] && half != j.apply(j.first, Split(j.file)[0]) && j.busy(half)
    requires !Careful(policy)
    ensures Run(j, policy, es).Some? && !Consistent(j, Run(j, policy, es).value)
  {
    es := HalfIsAdopted(j, policy, half);
    Then(j, policy, es, Start(false));
    es := es + [Start(false)];
    Then(j, policy, es, Build);
    es := es + [Build];
    Then(j, policy, es, Replace);
    es := es + [Replace];
    HalfIsOffTrack(j, half);
  }

  /**
   Every run resumes exactly if and only if checkpoints with a line in flight are not
   adopted, or are only taken once the line is done, with a stamp or without. (A log with a
   line in it and a session in flight that can be in the wrong state are all it takes.)
   */
  lemma {:induction false} ResumeExactIff<S(!new)>(j: Job<S>, policy: Policy, half: S)
    requires j.file != [] && half != j.apply(j.first, Split(j.file)[0]) && j.busy(half)
    ensures AllOnTrack(j, policy) <==> !policy.inflights || (policy.lateAcks && policy.lateBegins)
  {
    if Careful(policy) {
      forall es | Run(j, policy, es).Some?
        ensures OnTrack(j, Run(j, policy, es).value)
      {
        ResumeEquivalent(j, policy, es);
      }
    } else {
      var es := HalfIsAdopted(j, policy, half);
    }
  }

  ghost predicate AllConsistent<S(!new)>(j: Job<S>, policy: Policy) {
    forall es :: Run(j, policy, es).Some? ==> Consistent(j, Run(j, policy, es).value)
  }

  /** Whole checkpoints are consistent in every run under the same condition. */
  lemma {:induction false} SnapshotsConsistentIff<S(!new)>(j: Job<S>, policy: Policy, half: S)
    requires j.file != [] && half != j.apply(j.first, Split(j.file)[0]) && j.busy(half)
    ensures AllConsistent(j, policy) <==> !policy.inflights || (policy.lateAcks && policy.lateBegins)
  {
    if Careful(policy) {
      forall es | Run(j, policy, es).Some?
        ensures Consistent(j, Run(j, policy, es).value)
      {
        SoundRun(j, policy, es);
      }
    } else {
      var es := HalfSpoilsTheNext(j, policy, half);
    }
  }

  /** At the very end it is different: what winds the session up does not wait for the boundary. */
  lemma {:induction false} WindUpSpoils<S>(j: Job<S>, policy: Policy, to: S) returns (es: seq<Event<S>>)
    requires j.file == [] && to != j.first
    ensures Run(j, policy, es).Some?
    ensures
      var disk := Run(j, policy, es).value.store.disk;
      disk.Some? && !disk.value.inflight && !Reached(j, disk.value.offset, disk.value.session)
  {
    es := [];
    Then(j, policy, es, End);
    es := es + [End];
    Then(j, policy, es, Wind(to, false));
    es := es + [Wind(to, false)];
    Then(j, policy, es, Start(false));
    es := es + [Start(false)];
    Then(j, policy, es, Build);
    es := es + [Build];
    Then(j, policy, es, Replace);
    es := es + [Replace];
    ReachedFirst(j);
    if Reached(j, 0, to) {
      ReachedOnce(j, 0, to, j.first);
    }
  }

  // ----- a checkpoint lands while a replay is under way -------------------------------------------

  /** The first line is done, its stamp on disk, and a replay has read it. */
  function Reading<S>(line: Bytes, done: S): World<S> {
    var ck := Saved(|line|, done, true, true);
    World(true, |line|, |line|, Asking, done, true, Free, Idle, Store(Some(|line|), Some(ck)), Some(ck), false)
  }

  lemma {:induction false} ReplayHasRead<S>(j: Job<S>, policy: Policy) returns (es: seq<Event<S>>)
    requires j.file != []
    ensures Run(j, policy, es) == Some(Reading(Split(j.file)[0], j.apply(j.first, Split(j.file)[0])))
  {
    assert j.file[0..] == j.file;
    var line := Split(j.file)[0];
    es := ForceLands(j, policy, line, j.apply(j.first, line), true);
    Then(j, policy, es, Record);
    es := es + [Record];
    Then(j, policy, es, ReplayRead);
    es := es + [ReplayRead];
    Then(j, policy, es, Ask);
    es := es + [Ask];
    Then(j, policy, es, Release);
    es := es + [Release];
  }

  lemma {:induction false} SecondLine<S>(j: Job<S>)
    requires |Split(j.file)| >= 2
    ensures NextLines(j.file, |Split(j.file)[0]|) != []
    ensures NextLines(j.file, |Split(j.file)[0]|)[0] == Split(j.file)[1] != []
  {
    SplitComposes(j.file, 1);
    assert LengthOf(Split(j.file), 1) == |Split(j.file)[0]| by {
      LengthOfNext(Split(j.file), 0);
    }
    LinesAreNotEmpty(j.file, 1);
  }

  lemma {:induction false} OverlapLands<S>(j: Job<S>, policy: Policy) returns (es: seq<Event<S>>)
    requires policy.overlaps && |Split(j.file)| >= 2
    ensures Run(j, policy, es).Some?
    ensures
      var w := Run(j, policy, es).value;
      var lines := Split(j.file);
      w.read.Some? && w.read.value.offset == |lines[0]| && DiskOffset(w) == |lines[0]| + |lines[1]|
  {
    var line, next := Split(j.file)[0], Split(j.file)[1];
    var done := j.apply(j.first, line);
    es := ReplayHasRead(j, policy);
    SecondLine(j);
    Then(j, policy, es, Cut);
    es := es + [Cut];
    Then(j, policy, es, HandOut);
    es := es + [HandOut];
    Then(j, policy, es, Handle(j.apply(done, next), true));
    es := es + [Handle(j.apply(done, next), true)];
    Then(j, policy, es, Force);
    es := es + [Force];
    Then(j, policy, es, Build);
    es := es + [Build];
    Then(j, policy, es, Replace);
    es := es + [Replace];
  }

  /** The replay of the first line's completion writes its checkpoint over that of the second. */
  lemma {:induction false} OverlapGoesBack<S>(j: Job<S>, policy: Policy) returns (es: seq<Event<S>>, k: nat)
    requires policy.overlaps && |Split(j.file)| >= 2
    ensures !Advances(j, policy, es, k)
  {
    var before := OverlapLands(j, policy);
    SecondLine(j);
    Then(j, policy, before, ReplayClear);
    es, k := before + [ReplayClear], |before|;
    assert es[..k] == before;
  }

  /**
   The offset on disk never decreases, along any run, exactly if nothing lands between a
   replay's read of the checkpoint and its write. (A log of two lines is all it takes.)
   */
  lemma {:induction false} DiskNeverGoesBackIff<S(!new)>(j: Job<S>, policy: Policy)
    requires |Split(j.file)| >= 2
    ensures (forall es, k: nat :: Advances(j, policy, es, k)) <==> !policy.overlaps
  {
    if policy.overlaps {
      var es, k := OverlapGoesBack(j, policy);
    } else {
      forall es, k: nat
        ensures Advances(j, policy, es, k)
      {
        DiskNeverGoesBack(j, policy, es, k);
      }
    }
  }
}
