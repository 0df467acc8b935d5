/**
 The pass a human grants for a fenced call (mc/attend_once_pass.py,
 mc/attend_once_replay.py), and the consume route that spends it
 (mc/blueprints/agent_routes.py). One session; every method runs under its lock.

 A pass is `once`, spent by the first call, or a `window`, open until it
 expires. Times are seconds.
 */
module Pass {
  import opened Wrappers

  const TTL := 600

  /** The hook's name for one tool call: its id and a digest of what it does. */
  datatype Identity = Identity(call: string, digest: string)

  /** `bound` is the session the pass was granted to. */
  datatype Record = Record(expires: int, window: bool, bound: nat)

  /** The call that spent the last `once` pass. */
  datatype Spender = Spender(who: Identity, expires: int)

  datatype State = State(pass: Option<Record>, spent: Option<Spender>)

  datatype Grant = Granted | Upgraded | AlreadyOpen

  datatype Answer = Replayed | SpentOnce | InWindow | NoPass | Misbound

  /** `view`: the pass, while it is open. */
  function View(p: Option<Record>, now: int): Option<Record> {
    if p.Some? && now < p.value.expires then p else None
  }

  function GrantOn(s: State, id: nat, window: bool, now: int): (State, Grant) {
    var open := View(s.pass, now);
    if open.Some? && !(window && !open.value.window) then (s.(pass := open), AlreadyOpen)
    else (s.(pass := Some(Record(now + TTL, window, id))), if open.Some? then Upgraded else Granted)
  }

  predicate IsReplay(s: State, who: Option<Identity>, now: int) {
    who.Some? && s.spent.Some? && now < s.spent.value.expires && s.spent.value.who == who.value
  }

  /** A call of session `id`. */
  function ConsumeOn(s: State, id: nat, who: Option<Identity>, now: int): (State, Answer) {
    if IsReplay(s, who, now) then (s, Replayed)
    else
      var open := View(s.pass, now);
      if open.None? then (s.(pass := None), NoPass)
      else if open.value.bound != id then (s, Misbound)
      else if open.value.window then (s, InWindow)
      else (State(None, if who.Some? then Some(Spender(who.value, now + TTL)) else s.spent), SpentOnce)
  }

  class Session {
    var pass: Option<Record>
    var spent: Option<Spender>

    ghost function Contents(): State
      reads this
    {
      State(pass, spent)
    }

    constructor ()
      ensures Contents() == State(None, None)
    {
      pass, spent := None, None;
    }

    method Evict(now: int)
      modifies this`pass
      ensures pass == View(old(pass), now)
    {
      if pass.Some? && now >= pass.value.expires {
        pass := None;
      }
    }

    method GrantPass(id: nat, window: bool, now: int) returns (status: Grant)
      modifies this`pass
      ensures (Contents(), status) == GrantOn(old(Contents()), id, window, now)
    {
      Evict(now);
      var existing := pass;
      if existing.Some? && !(window && !existing.value.window) {
        return AlreadyOpen;
      }
      pass := Some(Record(now + TTL, window, id));
      return if existing.Some? then Upgraded else Granted;
    }

    method Revoke(now: int) returns (was: Option<Record>)
      modifies this`pass
      ensures pass == None && was == View(old(pass), now)
    {
      was := View(pass, now);
      pass := None;
    }

    /** The consume route, once it has found the one session that the call belongs to. */
    method Consume(id: nat, who: Option<Identity>, now: int) returns (a: Answer)
      modifies this
      ensures (Contents(), a) == ConsumeOn(old(Contents()), id, who, now)
    {
      if who.Some? && spent.Some? && now < spent.value.expires && spent.value.who == who.value {
        return Replayed;
      }
      Evict(now);
      if pass.None? {
        return NoPass;
      }
      if pass.value.bound != id {
        return Misbound;
      }
      if pass.value.window {
        return InWindow;
      }
      pass := None;
      if who.Some? {
        spent := Some(Spender(who.value, now + TTL));
      }
      return SpentOnce;
    }
  }

  // ----- episodes ---------------------------------------------------------------------------

  datatype Step = Ask(id: nat, window: bool) | Evicted | Revoked | Use(id: nat, who: Option<Identity>)

  datatype Event = Event(step: Step, now: int)

  /** A call that spent the pass: its session and its name, if it has one. */
  datatype Spend = Spend(id: nat, who: Option<Identity>)

  /** Since the last `granted`: when that was, whom the pass was last granted to, the upgrades, and who spent it. */
  datatype Episode = Episode(start: int, holder: nat, upgrades: nat, spenders: seq<Spend>)

  datatype World = World(state: State, episode: Option<Episode>)

  function Apply(w: World, ev: Event): World {
    match ev.step
    case Ask(id, window) =>
      var (s, status) := GrantOn(w.state, id, window, ev.now);
      World(s,
            if status == Granted then Some(Episode(ev.now, id, 0, []))
            else if status == Upgraded && w.episode.Some? then
              Some(w.episode.value.(holder := id, upgrades := w.episode.value.upgrades + 1))
            else w.episode)
    case Evicted => World(w.state.(pass := View(w.state.pass, ev.now)), w.episode)
    case Revoked => World(w.state.(pass := None), w.episode)
    case Use(id, who) =>
      var (s, a) := ConsumeOn(w.state, id, who, ev.now);
      World(s,
            if a == SpentOnce && w.episode.Some? then
              Some(w.episode.value.(spenders := w.episode.value.spenders + [Spend(id, who)]))
            else w.episode)
  }

  function After(es: seq<Event>): World {
    if es == [] then World(State(None, None), None) else Apply(After(es[..|es| - 1]), es[|es| - 1])
  }

  predicate Monotone(es: seq<Event>) {
    forall i, j :: 0 <= i <= j < |es| ==> es[i].now <= es[j].now
  }

  predicate Sound(w: World, now: int) {
    && (w.state.pass.Some? ==> w.episode.Some?)
    && (w.episode.Some? ==>
          var e := w.episode.value;
          && e.start <= now && e.upgrades <= 1 && |e.spenders| <= 1
          && (forall s :: s in e.spenders ==> s.id == e.holder)
          && (w.state.pass.Some? ==>
                && e.spenders == [] && w.state.pass.value.bound == e.holder
                && w.state.pass.value.expires < e.start + 2 * TTL
                && (e.upgrades == 1 ==> w.state.pass.value.window)
                && (e.upgrades == 0 ==> w.state.pass.value.expires == e.start + TTL)))
  }

  lemma {:induction false} SoundStep(w: World, before: int, ev: Event)
    requires Sound(w, before) && before <= ev.now
    ensures Sound(Apply(w, ev), ev.now)
  {
  }

  lemma {:induction false} SoundRun(es: seq<Event>, now: int)
    requires Monotone(es) && (es != [] ==> es[|es| - 1].now <= now)
    ensures Sound(After(es), now)
  {
    if es != [] {
      var k := |es| - 1;
      assert k > 0 ==> es[..k][k - 1].now <= es[k].now;
      SoundRun(es[..k], es[k].now);
      SoundStep(After(es[..k]), es[k].now, es[k]);
    }
  }

  /**
   From one `granted` to the next: the pass is open for less than two TTLs, upgraded
   at most once, bound to the session it was last granted to, and spent by at most one
   call, which is that session's.
   */
  lemma {:induction false} EpisodesAreBounded(es: seq<Event>, now: int)
    requires Monotone(es) && (es != [] ==> es[|es| - 1].now <= now)
    ensures
      var w := After(es);
      && (View(w.state.pass, now).Some? ==> w.episode.Some? && now < w.episode.value.start + 2 * TTL)
      && (w.episode.Some? ==> w.episode.value.upgrades <= 1 && |w.episode.value.spenders| <= 1)
      && (w.episode.Some? && w.episode.value.spenders != [] ==> w.state.pass.None?)
      && (w.state.pass.Some? ==> w.episode.Some? && w.state.pass.value.bound == w.episode.value.holder)
      && (w.episode.Some? ==> forall s :: s in w.episode.value.spenders ==> s.id == w.episode.value.holder)
  {
    SoundRun(es, now);
  }

  /** Who is granted the pass, and who spends it, is kept by name. */
  lemma {:induction false} EpisodeIsKept(es: seq<Event>, e: Event)
    requires Monotone(es) && (es != [] ==> es[|es| - 1].now <= e.now)
    ensures
      var s, w := After(es).state, After(es + [e]);
      && (e.step.Ask? && GrantOn(s, e.step.id, e.step.window, e.now).1 == Granted ==>
            w.episode == Some(Episode(e.now, e.step.id, 0, [])))
      && (e.step.Use? && ConsumeOn(s, e.step.id, e.step.who, e.now).1 == SpentOnce ==>
            w.episode.Some? && w.episode.value.spenders == [Spend(e.step.id, e.step.who)])
  {
    SoundRun(es, e.now);
    assert (es + [e])[..|es|] == es;
  }

  // ----- replays ----------------------------------------------------------------------------

  /** In step `i` the call `who` spends a `once` pass. */
  predicate Spends(es: seq<Event>, i: nat, who: Identity) {
    && i < |es| && es[i].step.Use? && es[i].step.who == Some(who)
    && ConsumeOn(After(es[..i]).state, es[i].step.id, Some(who), es[i].now).1 == SpentOnce
  }

  /** And no call that names itself does so after it. */
  ghost predicate SpendsLast(es: seq<Event>, i: nat, who: Identity) {
    Spends(es, i, who) && forall k: nat, other :: i < k < |es| ==> !Spends(es, k, other)
  }

  lemma {:induction false} SpendsLater(es: seq<Event>, e: Event, i: nat, who: Identity)
    requires i < |es|
    ensures Spends(es + [e], i, who) == Spends(es, i, who)
  {
    assert (es + [e])[..i] == es[..i];
  }

  /** What the session remembers is the last spend, whatever came after it. */
  lemma {:induction false} RemembersTheLast(es: seq<Event>)
    ensures match After(es).state.spent
            case None => forall i: nat, who :: !Spends(es, i, who)
            case Some(spender) =>
              exists i: nat :: SpendsLast(es, i, spender.who) && spender.expires == es[i].now + TTL
  {
    if es != [] {
      var init, e := es[..|es| - 1], es[|es| - 1];
      RemembersTheLast(init);
      assert init + [e] == es;
      forall i: nat, who | i < |init|
        ensures Spends(es, i, who) == Spends(init, i, who)
      {
        SpendsLater(init, e, i, who);
      }
      RememberStep(init, e);
    }
  }

  lemma {:induction false} RememberStep(init: seq<Event>, e: Event)
    ensures
      var es := init + [e];
      var s := After(es).state.spent;
      if exists who :: Spends(es, |init|, who)
      then s.Some? && Spends(es, |init|, s.value.who) && s.value.expires == e.now + TTL
      else s == After(init).state.spent
  {
    var es := init + [e];
    assert es[..|init|] == init && es[..|es| - 1] == init;
    var s := After(es).state.spent;
    if e.step.Use? && e.step.who.Some? && ConsumeOn(After(init).state, e.step.id, e.step.who, e.now).1 == SpentOnce {
      assert Spends(es, |init|, e.step.who.value);
    }
  }

  lemma {:induction false} SpendsLastOnce(es: seq<Event>, i: nat, who: Identity, k: nat, other: Identity)
    requires SpendsLast(es, i, who) && SpendsLast(es, k, other)
    ensures i == k && who == other
  {
  }

  /**
   Whatever happened since a call spent a pass (grants, windows, evictions, other
   calls refused or let through by a window), its repeat within the TTL is let through
   and changes nothing, as long as no other call that names itself has spent a pass.
   */
  lemma {:induction false} RepeatSpendsNothing(es: seq<Event>, i: nat, who: Identity, id: nat, now: int)
    requires SpendsLast(es, i, who) && now < es[i].now + TTL
    ensures ConsumeOn(After(es).state, id, Some(who), now) == (After(es).state, Replayed)
  {
    RemembersTheLast(es);
    var spent := After(es).state.spent;
    if spent.Some? {
      var k: nat :| SpendsLast(es, k, spent.value.who) && spent.value.expires == es[k].now + TTL;
      SpendsLastOnce(es, i, who, k, spent.value.who);
    }
  }

  /** The call repeats the last one to have spent a pass and named itself, within the TTL. */
  ghost predicate Repeats(es: seq<Event>, who: Option<Identity>, now: int) {
    who.Some? && exists i: nat :: SpendsLast(es, i, who.value) && now < es[i].now + TTL
  }

  lemma {:induction false} ReplayedExactly(es: seq<Event>, id: nat, who: Option<Identity>, now: int)
    ensures ConsumeOn(After(es).state, id, who, now).1 == Replayed <==> Repeats(es, who, now)
  {
    RemembersTheLast(es);
    if Repeats(es, who, now) {
      var i: nat :| SpendsLast(es, i, who.value) && now < es[i].now + TTL;
      RepeatSpendsNothing(es, i, who.value, id, now);
    }
  }

  /**
   No other call gets through on a spent `once` pass: over every run, with no pass
   open, a call is let through exactly if it is the last to have spent one, in time.
   */
  lemma {:induction false} OthersAreRefused(es: seq<Event>, id: nat, who: Option<Identity>, now: int)
    requires View(After(es).state.pass, now).None?
    ensures
      var a := ConsumeOn(After(es).state, id, who, now).1;
      (a == Replayed <==> Repeats(es, who, now)) && (a == Replayed || a == NoPass)
  {
    ReplayedExactly(es, id, who, now);
  }

  // ----- what a run of calls was told ----------------------------------------------------------

  /** In step `i` a human's click opened a pass, or turned the open one into a window. */
  predicate Opens(es: seq<Event>, i: nat) {
    && i < |es| && es[i].step.Ask?
    && GrantOn(After(es[..i]).state, es[i].step.id, es[i].step.window, es[i].now).1 != AlreadyOpen
  }

  /** In step `i` the pass was revoked, or told to be spent. */
  predicate Shuts(es: seq<Event>, i: nat) {
    i < |es| &&
    (es[i].step.Revoked?
     || (es[i].step.Use?
         && ConsumeOn(After(es[..i]).state, es[i].step.id, es[i].step.who, es[i].now).1 == SpentOnce))
  }

  /** The opening of the pass that has not been shut since. */
  function Opening(es: seq<Event>): (i: Option<nat>)
    ensures i.Some? ==> i.value < |es| && es[i.value].step.Ask?
  {
    if es == [] then None
    else
      var k := |es| - 1;
      if Opens(es, k) then Some(k) else if Shuts(es, k) then None else Opening(es[..k])
  }

  /** And which has not expired. */
  function OpenAt(es: seq<Event>, now: int): (i: Option<nat>)
    ensures i.Some? ==> i.value < |es| && es[i.value].step.Ask?
  {
    var i := Opening(es);
    if i.Some? && now < es[i.value].now + TTL then i else None
  }

  /** The pass that step made. */
  function Made(ev: Event): Record
    requires ev.step.Ask?
  {
    Record(ev.now + TTL, ev.step.window, ev.step.id)
  }

  /** The state holds what the last opening made, unless it has expired at a step since. */
  predicate Kept(es: seq<Event>) {
    var i, pass := Opening(es), After(es).state.pass;
    && (pass.Some? ==> i.Some? && pass.value == Made(es[i.value]))
    && (pass.None? && i.Some? ==> es[|es| - 1].now >= es[i.value].now + TTL)
  }

  lemma {:induction false} KeptStep(init: seq<Event>, e: Event)
    requires Kept(init) && (init != [] ==> init[|init| - 1].now <= e.now)
    ensures Kept(init + [e])
  {
    var es := init + [e];
    assert es[..|init|] == init;
    assert After(es) == Apply(After(init), e);
  }

  lemma {:induction false} KeptRun(es: seq<Event>)
    requires Monotone(es)
    ensures Kept(es)
  {
    if es != [] {
      var init, e := es[..|es| - 1], es[|es| - 1];
      assert init + [e] == es;
      KeptRun(init);
      KeptStep(init, e);
    }
  }

  /** At every moment the open pass is the one the last opening made, if that was not shut and is in time. */
  lemma {:induction false} PassIsLastOpening(es: seq<Event>, now: int)
    requires Monotone(es) && (es != [] ==> es[|es| - 1].now <= now)
    ensures
      var i := OpenAt(es, now);
      View(After(es).state.pass, now) == if i.Some? then Some(Made(es[i.value])) else None
  {
    KeptRun(es);
  }

  /**
   What every call is told, by the history alone: it is let through as a repeat, or for
   the session that the open pass was granted to; a window stays open, a `once` pass is
   gone, and a call that is refused or repeated changes nothing of the open pass.
   */
  lemma {:induction false} ConsumeExactly(es: seq<Event>, id: nat, who: Option<Identity>, now: int)
    requires Monotone(es) && (es != [] ==> es[|es| - 1].now <= now)
    ensures
      var s := After(es).state;
      var (s', a) := ConsumeOn(s, id, who, now);
      var i := OpenAt(es, now);
      && (a == Replayed <==> Repeats(es, who, now))
      && (a == NoPass <==> !Repeats(es, who, now) && i.None?)
      && (a == Misbound <==> !Repeats(es, who, now) && i.Some? && es[i.value].step.id != id)
      && (a == InWindow <==>
            !Repeats(es, who, now) && i.Some? && es[i.value].step.id == id && es[i.value].step.window)
      && (a == SpentOnce <==>
            !Repeats(es, who, now) && i.Some? && es[i.value].step.id == id && !es[i.value].step.window)
      && (a == SpentOnce ==>
            s'.pass.None? && s'.spent == if who.Some? then Some(Spender(who.value, now + TTL)) else s.spent)
      && (a != SpentOnce ==> View(s'.pass, now) == View(s.pass, now) && s'.spent == s.spent)
  {
    ReplayedExactly(es, id, who, now);
    PassIsLastOpening(es, now);
  }

  /** And what every click is told: only a window on an open `once` pass changes it, and then it is the clicker's. */
  lemma {:induction false} GrantExactly(es: seq<Event>, id: nat, window: bool, now: int)
    requires Monotone(es) && (es != [] ==> es[|es| - 1].now <= now)
    ensures
      var (s', status) := GrantOn(After(es).state, id, window, now);
      var i := OpenAt(es, now);
      && (status == Granted <==> i.None?)
      && (status == Upgraded <==> i.Some? && window && !es[i.value].step.window)
      && View(s'.pass, now) == Some(if status == AlreadyOpen then Made(es[i.value]) else Record(now + TTL, window, id))
      && s'.spent == After(es).state.spent
  {
    PassIsLastOpening(es, now);
  }
}
