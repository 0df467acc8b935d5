/**
 `LifetimePolicy` (mc/agent_shim.py): the timers that decide when a shim whose
 server is gone closes the CLI's stdin, kills the CLI, or ends itself.

 The class is proved against `Step`; `ActionExact` then says, of every history of
 ticks, what each tick answers in terms of the history alone.
 */
module Lifetime {
  import opened Wrappers

  datatype Action = Nothing | CloseStdin | Expire | Finish

  datatype Timers = Timers(grace: int, exitGrace: int, orphanMax: int, idleClose: bool)

  /** What one tick sees; `busy` is unknown without a probe. */
  datatype Obs = Obs(now: int, attached: bool, exited: bool, collected: bool, size: int, busy: Option<bool>)

  datatype State = State(
    orphanSince: Option<int>,
    lastSize: Option<int>,
    lastGrowth: int,
    exitT: Option<int>,
    stdinClosed: bool)

  function Init(now: int): State {
    State(None, None, now, None, false)
  }

  function Step(p: Timers, s: State, o: Obs): (State, Action) {
    var s := if Some(o.size) != s.lastSize then s.(lastSize := Some(o.size), lastGrowth := o.now) else s;
    if o.exited then
      var t := if s.exitT.None? then o.now else s.exitT.value;
      (s.(exitT := Some(t)), if o.collected || o.now - t >= p.exitGrace then Finish else Nothing)
    else if o.attached then (s.(orphanSince := None), Nothing)
    else
      var since := if s.orphanSince.None? then o.now else s.orphanSince.value;
      var s := s.(orphanSince := Some(since));
      if o.now - since >= p.orphanMax then (s, Expire)
      else if p.idleClose && !s.stdinClosed && o.now - since >= p.grace && o.now - s.lastGrowth >= p.grace
        && o.busy == Some(false)
      then (s.(stdinClosed := true), CloseStdin)
      else (s, Nothing)
  }

  class LifetimePolicy {
    const timers: Timers
    var orphanSince: Option<int>
    var lastSize: Option<int>
    var lastGrowth: int
    var exitT: Option<int>
    var stdinClosed: bool

    ghost function Fields(): State
      reads this
    {
      State(orphanSince, lastSize, lastGrowth, exitT, stdinClosed)
    }

    constructor (timers: Timers, now: int)
      ensures this.timers == timers && Fields() == Init(now)
    {
      this.timers := timers;
      orphanSince, lastSize, lastGrowth, exitT, stdinClosed := None, None, now, None, false;
    }

    method Tick(o: Obs) returns (a: Action)
      modifies this
      ensures (Fields(), a) == Step(timers, old(Fields()), o)
    {
      if lastSize != Some(o.size) {
        lastSize := Some(o.size);
        lastGrowth := o.now;
      }
      if o.exited {
        if exitT.None? {
          exitT := Some(o.now);
        }
        return if o.collected || o.now - exitT.value >= timers.exitGrace then Finish else Nothing;
      }
      if o.attached {
        orphanSince := None;
        return Nothing;
      }
      if orphanSince.None? {
        orphanSince := Some(o.now);
      }
      var orphaned := o.now - orphanSince.value;
      if orphaned >= timers.orphanMax {
        return Expire;
      }
      if timers.idleClose && !stdinClosed && orphaned >= timers.grace && o.now - lastGrowth >= timers.grace
        && o.busy == Some(false)
      {
        stdinClosed := true;
        return CloseStdin;
      }
      return Nothing;
    }
  }

  // ----- histories --------------------------------------------------------------------------

  function After(p: Timers, t0: int, h: seq<Obs>): State {
    if h == [] then Init(t0) else Step(p, After(p, t0, h[..|h| - 1]), h[|h| - 1]).0
  }

  /** What tick `k` of the history answered. */
  function ActionAt(p: Timers, t0: int, h: seq<Obs>, k: nat): Action
    requires k < |h|
  {
    Step(p, After(p, t0, h[..k]), h[k]).1
  }

  /** The clock never goes back and an exited CLI stays exited. */
  predicate Orderly(h: seq<Obs>) {
    forall i, j :: 0 <= i <= j < |h| ==> h[i].now <= h[j].now && (h[i].exited ==> h[j].exited)
  }

  /** No tick from `i` to `k` saw an owner. */
  predicate Ownerless(h: seq<Obs>, i: nat, k: nat) {
    i <= k < |h| && forall m :: i <= m <= k ==> !h[m].attached
  }

  /** The log had the same size at every tick from `i` to `k`. */
  predicate Silent(h: seq<Obs>, i: nat, k: nat) {
    i <= k < |h| && forall m :: i <= m <= k ==> h[m].size == h[k].size
  }

  predicate OwnerlessFor(h: seq<Obs>, k: nat, d: int) {
    exists i: nat | i < |h| :: Ownerless(h, i, k) && h[k].now - h[i].now >= d
  }

  predicate SilentFor(h: seq<Obs>, k: nat, d: int) {
    exists i: nat | i < |h| :: Silent(h, i, k) && h[k].now - h[i].now >= d
  }

  predicate ExitedFor(h: seq<Obs>, k: nat, d: int) {
    exists i: nat | i <= k < |h| :: h[i].exited && h[k].now - h[i].now >= d
  }

  predicate ClosedBefore(p: Timers, t0: int, h: seq<Obs>, k: nat)
    requires k <= |h|
  {
    exists m: nat | m < k :: ActionAt(p, t0, h, m) == CloseStdin
  }

  /** `lastGrowth` is the tick at which the present silence of the log began. */
  predicate QuietMark(s: State, h: seq<Obs>, i: nat) {
    && h != [] && Silent(h, i, |h| - 1) && (i > 0 ==> h[i - 1].size != h[i].size)
    && s.lastSize == Some(h[i].size) && s.lastGrowth == h[i].now
  }

  /** `exitT` is the first tick that saw the CLI gone. */
  predicate ExitMark(s: State, h: seq<Obs>, i: nat) {
    if h != [] && h[|h| - 1].exited then
      i < |h| && h[i].exited && (i > 0 ==> !h[i - 1].exited) && s.exitT == Some(h[i].now)
    else s.exitT.None?
  }

  /** `orphanSince` is the tick at which the present ownerless stretch began. */
  predicate OwnerMark(s: State, h: seq<Obs>, i: nat) {
    h != [] && !h[|h| - 1].exited ==>
      if h[|h| - 1].attached then s.orphanSince.None?
      else Ownerless(h, i, |h| - 1) && (i > 0 ==> h[i - 1].attached) && s.orphanSince == Some(h[i].now)
  }

  lemma {:induction false} QuietSince(p: Timers, t0: int, h: seq<Obs>) returns (i: nat)
    requires h != []
    ensures QuietMark(After(p, t0, h), h, i)
  {
    var k := |h| - 1;
    i := k;
    if k > 0 {
      var j := QuietSince(p, t0, h[..k]);
      if h[k].size == h[k - 1].size {
        i := j;
        assert Silent(h[..k], j, k - 1);
      }
    }
  }

  lemma {:induction false} ExitSince(p: Timers, t0: int, h: seq<Obs>) returns (i: nat)
    requires Orderly(h)
    ensures ExitMark(After(p, t0, h), h, i)
  {
    i := 0;
    if h != [] {
      var k := |h| - 1;
      var j := ExitSince(p, t0, h[..k]);
      i := if k > 0 && h[k - 1].exited then j else k;
    }
  }

  lemma {:induction false} OwnerlessSince(p: Timers, t0: int, h: seq<Obs>) returns (i: nat)
    requires Orderly(h)
    ensures OwnerMark(After(p, t0, h), h, i)
    ensures h == [] ==> After(p, t0, h).orphanSince.None?
  {
    i := 0;
    if h != [] {
      var k := |h| - 1;
      var j := OwnerlessSince(p, t0, h[..k]);
      i := if k > 0 && !h[k - 1].attached then j else k;
      if k > 0 && !h[k - 1].attached && !h[k].exited && !h[k].attached {
        assert Ownerless(h[..k], j, k - 1);
      }
    }
  }

  lemma {:induction false} ClosedMark(p: Timers, t0: int, h: seq<Obs>)
    ensures After(p, t0, h).stdinClosed <==> ClosedBefore(p, t0, h, |h|)
  {
    if h != [] {
      var k := |h| - 1;
      var before := h[..k];
      ClosedMark(p, t0, before);
      forall m: nat | m < k
        ensures ActionAt(p, t0, h, m) == ActionAt(p, t0, before, m)
      {
        assert before[..m] == h[..m];
      }
      assert ActionAt(p, t0, h, k) == Step(p, After(p, t0, before), h[k]).1;
    }
  }

  lemma {:induction false} LongestOwnerless(h: seq<Obs>, i: nat, k: nat, d: int)
    requires Orderly(h) && k < |h| && Ownerless(h, i, k) && (i > 0 ==> h[i - 1].attached)
    ensures OwnerlessFor(h, k, d) <==> h[k].now - h[i].now >= d
  {
    forall j: nat | j < |h| && Ownerless(h, j, k)
      ensures i <= j
    {
    }
  }

  lemma {:induction false} LongestSilence(h: seq<Obs>, i: nat, k: nat, d: int)
    requires Orderly(h) && k < |h| && Silent(h, i, k) && (i > 0 ==> h[i - 1].size != h[i].size)
    ensures SilentFor(h, k, d) <==> h[k].now - h[i].now >= d
  {
    forall j: nat | j < |h| && Silent(h, j, k)
      ensures i <= j
    {
    }
  }

  lemma {:induction false} FirstExit(h: seq<Obs>, i: nat, k: nat, d: int)
    requires Orderly(h) && i <= k < |h| && h[i].exited && (i > 0 ==> !h[i - 1].exited)
    ensures ExitedFor(h, k, d) <==> h[k].now - h[i].now >= d
  {
    forall j: nat | j <= k && h[j].exited
      ensures i <= j
    {
    }
  }

  /** Why the policy answers what it does at tick `k`. */
  predicate Justified(p: Timers, t0: int, h: seq<Obs>, k: nat, a: Action)
    requires k < |h|
  {
    var o := h[k];
    if o.exited then a == if o.collected || ExitedFor(h, k, p.exitGrace) then Finish else Nothing
    else if o.attached then a == Nothing
    else if OwnerlessFor(h, k, p.orphanMax) then a == Expire
    else if p.idleClose && !ClosedBefore(p, t0, h, k) && OwnerlessFor(h, k, p.grace) && SilentFor(h, k, p.grace)
      && o.busy == Some(false)
    then a == CloseStdin
    else a == Nothing
  }

  /**
   What every tick of every history answers: nothing while attached; expiry exactly
   on an ownerless run of `orphanMax`; stdin closed exactly on the first tick that is
   ownerless and log-silent for `grace` with the tree idle; and after the exit
   neither, but an end as soon as it is collected or `exitGrace` has passed.
   */
  lemma {:induction false} ActionExact(p: Timers, t0: int, h: seq<Obs>, k: nat)
    requires Orderly(h) && k < |h|
    ensures Justified(p, t0, h, k, ActionAt(p, t0, h, k))
  {
    var upto := h[..k + 1];
    assert upto[..k] == h[..k];
    if h[k].exited {
      var exit := ExitSince(p, t0, upto);
      FirstExit(h, exit, k, p.exitGrace);
    } else if !h[k].attached {
      ClosedMark(p, t0, h[..k]);
      SameClosed(p, t0, h, k);
      QuietExact(p, t0, h, k, upto);
      OwnerlessExact(p, t0, h, k, upto);
    }
  }

  lemma {:induction false} QuietExact(p: Timers, t0: int, h: seq<Obs>, k: nat, upto: seq<Obs>)
    requires Orderly(h) && k < |h| && upto == h[..k + 1]
    ensures SilentFor(h, k, p.grace) <==> h[k].now - After(p, t0, upto).lastGrowth >= p.grace
  {
    var quiet := QuietSince(p, t0, upto);
    assert Silent(h, quiet, k);
    LongestSilence(h, quiet, k, p.grace);
  }

  lemma {:induction false} OwnerlessExact(p: Timers, t0: int, h: seq<Obs>, k: nat, upto: seq<Obs>)
    requires Orderly(h) && k < |h| && !h[k].exited && !h[k].attached && upto == h[..k + 1]
    ensures
      var s := After(p, t0, upto);
      && s.orphanSince.Some?
      && (OwnerlessFor(h, k, p.orphanMax) <==> h[k].now - s.orphanSince.value >= p.orphanMax)
      && (OwnerlessFor(h, k, p.grace) <==> h[k].now - s.orphanSince.value >= p.grace)
  {
    var owner := OwnerlessSince(p, t0, upto);
    assert Ownerless(h, owner, k);
    LongestOwnerless(h, owner, k, p.orphanMax);
    LongestOwnerless(h, owner, k, p.grace);
  }

  lemma {:induction false} SameClosed(p: Timers, t0: int, h: seq<Obs>, k: nat)
    requires k <= |h|
    ensures ClosedBefore(p, t0, h[..k], k) <==> ClosedBefore(p, t0, h, k)
  {
    forall m: nat | m < k
      ensures ActionAt(p, t0, h, m) == ActionAt(p, t0, h[..k], m)
    {
      assert h[..k][..m] == h[..m];
    }
  }

  /** So stdin is closed at most once. */
  lemma {:induction false} ClosesOnce(p: Timers, t0: int, h: seq<Obs>, i: nat, k: nat)
    requires Orderly(h) && i < |h| && k < |h|
    requires ActionAt(p, t0, h, i) == CloseStdin && ActionAt(p, t0, h, k) == CloseStdin
    ensures i == k
  {
    ActionExact(p, t0, h, i);
    ActionExact(p, t0, h, k);
  }
}
