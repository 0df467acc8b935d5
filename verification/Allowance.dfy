/**
 Exhaustion records and their trial runs (mc/allowance_state.py,
 mc/allowance_unverified.py). A record without a reset time becomes unverified
 after the TTL; then one run at a time may be tried against it.

 Times are seconds. Each method is one or two sections under the lock, and the
 runs interleave those sections.
 */
module Allowance {
  import opened Wrappers

  const TRIAL_LAPSE_S := 1800

  datatype Entry = Entry(resetsAt: Option<int>, recordedAt: int, unverified: bool, trialAt: Option<int>)

  function Fresh(resetsAt: Option<int>, now: int): Entry {
    Entry(resetsAt, now, false, None)
  }

  /** `_is_expired`: an unknown reset time never is. */
  predicate Expired(e: Entry, now: int) {
    e.resetsAt.Some? && now >= e.resetsAt.value
  }

  /** `is_stale_unreset`; no TTL when the feature is off. */
  predicate Stale(e: Entry, ttl: Option<int>, now: int) {
    ttl.Some? && e.resetsAt.None? && now - e.recordedAt >= ttl.value
  }

  predicate TrialActive(e: Entry, now: int) {
    e.trialAt.Some? && now - e.trialAt.value < TRIAL_LAPSE_S
  }

  /** What a read leaves of the record: an expired one goes, a stale one is marked. */
  function Looked(e: Option<Entry>, ttl: Option<int>, now: int): Option<Entry> {
    if e.None? || Expired(e.value, now) then None
    else if e.value.unverified || !Stale(e.value, ttl, now) then e
    else Some(e.value.(unverified := true))
  }

  /** The second section of `claim_trial`: the record then, and whether the run is granted. */
  function Claimed(e: Option<Entry>, now: int): (Option<Entry>, bool) {
    if e.None? || !e.value.unverified || TrialActive(e.value, now) then (e, false)
    else (Some(e.value.(trialAt := Some(now))), true)
  }

  class Allowances {
    var entries: map<string, Entry>
    var ttl: Option<int>

    constructor (ttl: Option<int>)
      ensures entries == map[] && this.ttl == ttl
    {
      entries := map[];
      this.ttl := ttl;
    }

    method RecordExhaustion(v: string, resetsAt: Option<int>, now: int)
      modifies this`entries
      ensures entries == if v == "" then old(entries) else old(entries)[v := Entry(resetsAt, now, false, None)]
    {
      if v == "" {
        return;
      }
      entries := entries[v := Fresh(resetsAt, now)];
    }

    method ClearExhaustion(v: string)
      modifies this`entries
      ensures entries == old(entries) - {v}
    {
      if v in entries {
        entries := entries - {v};
      }
    }

    method Get(v: string, now: int) returns (e: Option<Entry>)
      modifies this`entries
      ensures e == if v in old(entries) then Looked(Some(old(entries)[v]), ttl, now) else None
      ensures entries == if e.Some? then old(entries)[v := e.value] else old(entries) - {v}
    {
      if v !in entries {
        return None;
      }
      var entry := entries[v];
      if Expired(entry, now) {
        entries := entries - {v};
        return None;
      }
      if !entry.unverified && Stale(entry, ttl, now) {
        entry := entry.(unverified := true);
        entries := entries[v := entry];
      }
      return Some(entry);
    }

    /** With no other caller in between: exactly when a run is granted, and what is left. */
    method ClaimTrial(v: string, now: int) returns (granted: bool)
      modifies this`entries
      ensures granted <==>
        v in old(entries) && var e := old(entries)[v];
        !Expired(e, now) && (e.unverified || Stale(e, ttl, now)) && !TrialActive(e, now)
      ensures
        var was := if v in old(entries) then Some(old(entries)[v]) else None;
        var e := Claimed(Looked(was, ttl, now), now).0;
        entries == if e.Some? then old(entries)[v := e.value] else old(entries) - {v}
    {
      var seen := Get(v, now);
      if seen.None? {
        return false;
      }
      var entry := entries[v];
      if !entry.unverified || TrialActive(entry, now) {
        return false;
      }
      entries := entries[v := entry.(trialAt := Some(now))];
      return true;
    }
  }

  // ----- runs for one vendor -------------------------------------------------------------------

  datatype Step = Record(resetsAt: Option<int>) | Clear | Look | Claim

  datatype Event = Event(step: Step, now: int)

  function Apply(e: Option<Entry>, ttl: Option<int>, ev: Event): (Option<Entry>, bool) {
    match ev.step
    case Record(resetsAt) => (Some(Fresh(resetsAt, ev.now)), false)
    case Clear => (None, false)
    case Look => (Looked(e, ttl, ev.now), false)
    case Claim => Claimed(e, ev.now)
  }

  function After(ttl: Option<int>, es: seq<Event>): Option<Entry> {
    if es == [] then None else Apply(After(ttl, es[..|es| - 1]), ttl, es[|es| - 1]).0
  }

  /** When runs were granted. */
  function Grants(ttl: Option<int>, es: seq<Event>): seq<int> {
    if es == [] then []
    else
      var g, ev := Grants(ttl, es[..|es| - 1]), es[|es| - 1];
      if Apply(After(ttl, es[..|es| - 1]), ttl, ev).1 then g + [ev.now] else g
  }

  predicate Monotone(es: seq<Event>) {
    forall i, j :: 0 <= i <= j < |es| ==> es[i].now <= es[j].now
  }

  predicate Apart(g: seq<int>, d: int) {
    forall i, j :: 0 <= i < j < |g| ==> g[j] - g[i] >= d
  }

  function Least(ttl: Option<int>): int {
    if ttl.Some? && ttl.value < TRIAL_LAPSE_S then ttl.value else TRIAL_LAPSE_S
  }

  /** A standing record was made no earlier than the last grant, or its run last tried by it. */
  predicate Since(e: Option<Entry>, ttl: Option<int>, g: seq<int>, now: int) {
    && (g != [] ==> g[|g| - 1] <= now)
    && (e.Some? ==>
          && e.value.recordedAt <= now
          && (e.value.unverified ==> Stale(e.value, ttl, now))
          && (e.value.trialAt.Some? ==> g != [] && e.value.trialAt.value == g[|g| - 1])
          && (e.value.trialAt.None? && g != [] ==> e.value.recordedAt >= g[|g| - 1]))
  }

  lemma {:induction false} SinceStep(e: Option<Entry>, ttl: Option<int>, g: seq<int>, before: int, ev: Event)
    requires Since(e, ttl, g, before) && before <= ev.now && (ttl.Some? ==> ttl.value > 0)
    ensures
      var (e', granted) := Apply(e, ttl, ev);
      && Since(e', ttl, if granted then g + [ev.now] else g, ev.now)
      && (granted ==> e.Some? && Stale(e.value, ttl, ev.now) && (g != [] ==> ev.now - g[|g| - 1] >= Least(ttl)))
  {
  }

  lemma {:induction false} ApartNext(g: seq<int>, d: int, now: int)
    requires Apart(g, d) && d >= 0 && (g != [] ==> now - g[|g| - 1] >= d)
    ensures Apart(g + [now], d)
  {
    assert forall i :: 0 <= i < |g| - 1 ==> g[|g| - 1] - g[i] >= d;
  }

  lemma {:induction false} GrantsApart(ttl: Option<int>, es: seq<Event>, now: int)
    requires Monotone(es) && (ttl.Some? ==> ttl.value > 0)
    requires es != [] ==> es[|es| - 1].now <= now
    ensures Apart(Grants(ttl, es), Least(ttl))
    ensures Since(After(ttl, es), ttl, Grants(ttl, es), now)
  {
    if es != [] {
      var k := |es| - 1;
      var init := es[..k];
      var e, g := After(ttl, init), Grants(ttl, init);
      assert k > 0 ==> init[k - 1].now <= es[k].now;
      GrantsApart(ttl, init, es[k].now);
      SinceStep(e, ttl, g, es[k].now, es[k]);
      if Apply(e, ttl, es[k]).1 {
        ApartNext(g, Least(ttl), es[k].now);
      }
    }
  }

  /** Every run granted is against a record without a reset time, at least a TTL old. */
  lemma {:induction false} GrantsOnlyStale(ttl: Option<int>, es: seq<Event>)
    requires Monotone(es) && (ttl.Some? ==> ttl.value > 0) && es != []
    requires Apply(After(ttl, es[..|es| - 1]), ttl, es[|es| - 1]).1
    ensures var e := After(ttl, es[..|es| - 1]); e.Some? && Stale(e.value, ttl, es[|es| - 1].now)
  {
    var k := |es| - 1;
    assert k > 0 ==> es[..k][k - 1].now <= es[k].now;
    GrantsApart(ttl, es[..k], es[k].now);
    SinceStep(After(ttl, es[..k]), ttl, Grants(ttl, es[..k]), es[k].now, es[k]);
  }

  /** No record refuses for ever: past its TTL and past the last grant's lapse, a claim gets its run. */
  lemma {:induction false} NeverRefusesForEver(ttl: Option<int>, es: seq<Event>, now: int)
    requires Monotone(es) && (ttl.Some? ==> ttl.value > 0) && (es != [] ==> es[|es| - 1].now <= now)
    requires var e := After(ttl, es); e.Some? && Stale(e.value, ttl, now)
    requires var g := Grants(ttl, es); g == [] || now - g[|g| - 1] >= TRIAL_LAPSE_S
    ensures Grants(ttl, es + [Event(Look, now)] + [Event(Claim, now)]) == Grants(ttl, es) + [now]
  {
    GrantsApart(ttl, es, now);
    GrantedLast(ttl, es, Event(Look, now));
    GrantedLast(ttl, es + [Event(Look, now)], Event(Claim, now));
    LookedIsGranted(After(ttl, es), ttl, now);
  }

  lemma {:induction false} GrantedLast(ttl: Option<int>, es: seq<Event>, ev: Event)
    ensures After(ttl, es + [ev]) == Apply(After(ttl, es), ttl, ev).0
    ensures Grants(ttl, es + [ev]) == Grants(ttl, es) + if Apply(After(ttl, es), ttl, ev).1 then [ev.now] else []
  {
    assert (es + [ev])[..|es|] == es;
    assert Grants(ttl, es) + [] == Grants(ttl, es);
  }

  lemma {:induction false} LookedIsGranted(e: Option<Entry>, ttl: Option<int>, now: int)
    requires e.Some? && Stale(e.value, ttl, now)
    requires e.value.trialAt.Some? ==> now - e.value.trialAt.value >= TRIAL_LAPSE_S
    ensures Claimed(Looked(e, ttl, now), now).1
  {
  }

  // ----- what stands, by the history alone ------------------------------------------------------

  /** The last call that made a record or took it away. */
  function LastSet(es: seq<Event>): (i: Option<nat>)
    ensures i.Some? ==> i.value < |es| && (es[i.value].step.Record? || es[i.value].step.Clear?)
  {
    if es == [] then None
    else if es[|es| - 1].step.Record? || es[|es| - 1].step.Clear? then Some(|es| - 1)
    else LastSet(es[..|es| - 1])
  }

  /** Since call `i` the record was looked at, at or after time `t`. */
  predicate LookedAt(es: seq<Event>, i: nat, t: int) {
    exists j :: i < j < |es| && es[j].step.Look? && es[j].now >= t
  }

  /** When the last run was granted since then. */
  function LastTrial(ttl: Option<int>, es: seq<Event>): Option<int> {
    if es == [] then None
    else
      var init, ev := es[..|es| - 1], es[|es| - 1];
      if ev.step.Record? || ev.step.Clear? then None
      else if Apply(After(ttl, init), ttl, ev).1 then Some(ev.now)
      else LastTrial(ttl, init)
  }

  lemma {:induction false} LookedNext(es: seq<Event>, ev: Event, i: nat, t: int)
    requires i < |es|
    ensures LookedAt(es + [ev], i, t) <==> LookedAt(es, i, t) || (ev.step.Look? && ev.now >= t)
  {
    var all := es + [ev];
    if LookedAt(es, i, t) {
      var j :| i < j < |es| && es[j].step.Look? && es[j].now >= t;
      assert all[j] == es[j];
    }
    if ev.step.Look? && ev.now >= t {
      assert all[|es|] == ev;
    }
  }

  /** What the history leaves of the record that call `i` made. */
  predicate Stands(ttl: Option<int>, es: seq<Event>, i: nat, e: Option<Entry>)
    requires i < |es| && es[i].step.Record?
  {
    var resets := es[i].step.resetsAt;
    if resets.Some? then
      e == if LookedAt(es, i, resets.value) then None else Some(Entry(resets, es[i].now, false, None))
    else
      && e.Some? && e.value.resetsAt.None? && e.value.recordedAt == es[i].now
      && (e.value.unverified <==> ttl.Some? && LookedAt(es, i, es[i].now + ttl.value))
      && e.value.trialAt == LastTrial(ttl, es)
  }

  /**
   Over every run: with a reset time the record stands unchanged, whatever is claimed of it,
   until the first look at or after that time; without one it stays, and is unverified
   exactly if it was looked at a TTL after it was made.
   */
  lemma {:induction false} StandsExactly(ttl: Option<int>, es: seq<Event>)
    ensures
      var i := LastSet(es);
      if i.Some? && es[i.value].step.Record? then Stands(ttl, es, i.value, After(ttl, es)) else After(ttl, es).None?
  {
    if es != [] {
      var init, ev := es[..|es| - 1], es[|es| - 1];
      assert init + [ev] == es;
      StandsExactly(ttl, init);
      var i := LastSet(init);
      if !ev.step.Record? && !ev.step.Clear? && i.Some? && es[i.value].step.Record? {
        StandsNext(ttl, init, ev, i.value);
      }
    }
  }

  lemma {:induction false} StandsNext(ttl: Option<int>, init: seq<Event>, ev: Event, i: nat)
    requires (ev.step.Look? || ev.step.Claim?) && i < |init| && init[i].step.Record?
    requires Stands(ttl, init, i, After(ttl, init))
    ensures Stands(ttl, init + [ev], i, After(ttl, init + [ev]))
  {
    var es := init + [ev];
    assert es[..|init|] == init && es[i] == init[i];
    var resets := es[i].step.resetsAt;
    if resets.Some? {
      LookedNext(init, ev, i, resets.value);
    } else if ttl.Some? {
      LookedNext(init, ev, i, es[i].now + ttl.value);
    }
  }

  /**
   A claim gets its run exactly if the vendor's record has no reset time, was looked at a TTL
   after it was made, and no run was granted on it less than the lapse ago.
   */
  lemma {:induction false} GrantedExactly(ttl: Option<int>, es: seq<Event>, now: int)
    ensures
      var i, trial := LastSet(es), LastTrial(ttl, es);
      Grants(ttl, es + [Event(Claim, now)]) == Grants(ttl, es) +
      if i.Some? && es[i.value].step == Record(None) && ttl.Some? && LookedAt(es, i.value, es[i.value].now + ttl.value)
         && (trial.Some? ==> now - trial.value >= TRIAL_LAPSE_S)
      then [now] else []
  {
    StandsExactly(ttl, es);
    GrantedLast(ttl, es, Event(Claim, now));
  }
}
