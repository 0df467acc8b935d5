/**
 The check-then-act gate in front of API-credit calls (mc/api_credits_offload.py):
 calls sample the cycle, check the ledger, send, stamp their cycle again and
 record, each at its own pace. How far past the stop point can a cycle get?

 Cycles are numbered in order; `stop`, the threads and the largest cost of a call
 are fixed. `book` is what the ledger says was spent in a cycle; `total` is what
 the calls sent in it cost, counted as they are sent and recorded or not.
 */
module Gate {
  import opened Wrappers
  import Cycle
  import Ledger

  /**
   What can go wrong. A call of an ended cycle is recorded when the ledger has a
   later one; a call that was sent is not recorded at all (a timeout has no usage to
   record, or the ledger cannot be saved); it is recorded below its cost (no price, or
   a reply without usage); the gate cannot read the ledger and takes it for empty; a
   call that saves it cannot, be it `record`, `halt` or the `note_error` after any plain
   failure, and starts a new one; the clock is set back into the cycle before.
   */
  datatype Lapse = LateRecord | LostRecord | LowRecord | GateUnread | LedgerLost | ClockBack

  datatype Config = Config(stop: nat, most: nat, lapses: set<Lapse>)

  /** `sent` is the cycle a call was sent in, `cycle` the one it will be recorded in. */
  datatype Call =
    | Idle
    | Sampled(cycle: nat)
    | Passed
    | Sent(sent: nat, cost: nat)
    | Stamped(sent: nat, cycle: nat, cost: nat)

  datatype World = World(now: nat, calls: seq<Call>, book: map<nat, nat>, total: map<nat, nat>)

  datatype Event =
    | NextCycle
    | PreviousCycle
    | Sample(i: nat)
    | Check(i: nat)
    | CheckUnread(i: nat)
    | GiveUp(i: nat)
    | Send(i: nat, cost: nat)
    | Stamp(i: nat)
    | Land(i: nat, amount: nat)
    | Lose(i: nat)
    | Forget

  function Get(m: map<nat, nat>, c: nat): nat {
    if c in m then m[c] else 0
  }

  predicate NoneLater(book: map<nat, nat>, c: nat) {
    forall d :: d in book ==> d <= c
  }

  predicate RecordsAt(cfg: Config, t: Call, amount: nat) {
    t.Stamped? && (amount == t.cost || (LowRecord in cfg.lapses && amount <= t.cost))
  }

  predicate Enabled(cfg: Config, w: World, e: Event) {
    if e.NextCycle? then true
    else if e.PreviousCycle? then ClockBack in cfg.lapses && w.now > 0
    else if e.Forget? then LedgerLost in cfg.lapses
    else
      e.i < |w.calls| &&
      var t := w.calls[e.i];
      match e
      case Sample(_) => t.Idle?
      case Check(_) => t.Sampled? && Get(w.book, t.cycle) < cfg.stop
      case CheckUnread(_) => t.Sampled? && GateUnread in cfg.lapses
      case GiveUp(_) => t.Sampled? || t.Passed?
      case Send(_, cost) => t.Passed? && cost <= cfg.most
      case Stamp(_) => t.Sent?
      case Land(_, amount) => RecordsAt(cfg, t, amount) && (LateRecord in cfg.lapses || NoneLater(w.book, t.cycle))
      case Lose(_) => (t.Sent? || t.Stamped?) && (t.cost == 0 || LostRecord in cfg.lapses)
  }

  function Put(w: World, i: nat, c: Call): World
    requires i < |w.calls|
  {
    w.(calls := w.calls[i := c])
  }

  /** Recording a call prunes all but its cycle and the one before. */
  function Recorded(book: map<nat, nat>, c: nat, cost: nat): map<nat, nat> {
    var added := book[c := Get(book, c) + cost];
    map d | d in added && (d == c || d == c - 1) :: added[d]
  }

  /** A record that starts the ledger anew is `Forget` and `Land`. */
  function Apply(cfg: Config, w: World, e: Event): World
    requires Enabled(cfg, w, e)
  {
    match e
    case NextCycle => w.(now := w.now + 1)
    case PreviousCycle => w.(now := w.now - 1)
    case Sample(i) => Put(w, i, Sampled(w.now))
    case Check(i) => Put(w, i, Passed)
    case CheckUnread(i) => Put(w, i, Passed)
    case GiveUp(i) => Put(w, i, Idle)
    case Send(i, cost) => Put(w, i, Sent(w.now, cost)).(total := w.total[w.now := Get(w.total, w.now) + cost])
    case Stamp(i) => Put(w, i, Stamped(w.calls[i].sent, w.now, w.calls[i].cost))
    case Land(i, amount) => Put(w, i, Idle).(book := Recorded(w.book, w.calls[i].cycle, amount))
    case Lose(i) => Put(w, i, Idle)
    case Forget => w.(book := map[])
  }

  function Init(k: nat): World {
    World(0, seq(k, i => Idle), map[], map[])
  }

  function Exec(cfg: Config, w: World, es: seq<Event>): Option<World>
    decreases |es|
  {
    if es == [] then Some(w)
    else if Enabled(cfg, w, es[0]) then Exec(cfg, Apply(cfg, w, es[0]), es[1..])
    else None
  }

  // ----- the bound --------------------------------------------------------------------------

  /** The two amounts that have a bound: what the ledger has for a cycle, and what was sent in it. */
  datatype Side = Booked | Spent

  /** May this call add to cycle `c` without another check of it? */
  predicate Loose(s: Side, t: Call, c: nat, now: nat) {
    match t
    case Idle => false
    case Sampled(n) => now <= c && n < c
    case Passed => now <= c
    case Sent(_, _) => s.Booked? && now <= c
    case Stamped(_, n, _) => s.Booked? && n == c
  }

  function CountLoose(s: Side, ts: seq<Call>, c: nat, now: nat): (n: nat)
    ensures n <= |ts|
  {
    if ts == [] then 0 else (if Loose(s, ts[0], c, now) then 1 else 0) + CountLoose(s, ts[1..], c, now)
  }

  lemma {:induction false} CountUpdate(s: Side, ts: seq<Call>, i: nat, t: Call, c: nat, now: nat)
    requires i < |ts|
    ensures CountLoose(s, ts[i := t], c, now) ==
      CountLoose(s, ts, c, now) - (if Loose(s, ts[i], c, now) then 1 else 0) + (if Loose(s, t, c, now) then 1 else 0)
  {
    if i == 0 {
      assert ts[0 := t][1..] == ts[1..];
    } else {
      assert ts[i := t][1..] == ts[1..][i - 1 := t];
      CountUpdate(s, ts[1..], i - 1, t, c, now);
    }
  }

  lemma {:induction false} CountLater(s: Side, ts: seq<Call>, c: nat, now: nat)
    ensures CountLoose(s, ts, c, now + 1) <= CountLoose(s, ts, c, now)
  {
    if ts != [] {
      CountLater(s, ts[1..], c, now);
    }
  }

  /** Past the stop point, every call that got through may still add its cost. */
  predicate Holds(cfg: Config, s: Side, amount: nat, ts: seq<Call>, c: nat, now: nat) {
    amount < cfg.stop || amount + cfg.most * CountLoose(s, ts, c, now) < cfg.stop + cfg.most * |ts|
  }

  lemma {:induction false} BoundOf(cfg: Config, s: Side, amount: nat, ts: seq<Call>, c: nat, now: nat)
    requires Holds(cfg, s, amount, ts, c, now)
    ensures amount < cfg.stop + cfg.most * |ts|
  {
    MoreCosts(cfg.most, 0, CountLoose(s, ts, c, now));
    MoreCosts(cfg.most, 0, |ts|);
  }

  lemma {:induction false} MoreCosts(most: nat, a: nat, b: nat)
    requires a <= b
    ensures most * a <= most * b
  {
  }

  /** A call that moves without adding: it may become loose for a cycle only below the stop point. */
  lemma {:induction false} MovesOn(cfg: Config, s: Side, amount: nat, ts: seq<Call>, i: nat, t: Call, c: nat, now: nat)
    requires Holds(cfg, s, amount, ts, c, now) && i < |ts|
    requires Loose(s, t, c, now) ==> Loose(s, ts[i], c, now) || amount < cfg.stop
    ensures Holds(cfg, s, amount, ts[i := t], c, now)
  {
    CountUpdate(s, ts, i, t, c, now);
    if amount >= cfg.stop {
      MoreCosts(cfg.most, CountLoose(s, ts[i := t], c, now), CountLoose(s, ts, c, now));
    }
  }

  /** A loose call that adds its cost is loose no more. */
  lemma {:induction false} Spends(
      cfg: Config, s: Side, amount: nat, ts: seq<Call>, i: nat, t: Call, cost: nat, c: nat, now: nat)
    requires Holds(cfg, s, amount, ts, c, now) && i < |ts|
    requires Loose(s, ts[i], c, now) && !Loose(s, t, c, now) && cost <= cfg.most && cfg.stop > 0
    ensures Holds(cfg, s, amount + cost, ts[i := t], c, now)
  {
    CountUpdate(s, ts, i, t, c, now);
    OneCostLess(cfg.most, CountLoose(s, ts[i := t], c, now), CountLoose(s, ts, c, now), |ts|);
  }

  lemma {:induction false} OneCostLess(most: nat, k: nat, n: nat, m: nat)
    requires n == k + 1 <= m
    ensures most * n == most * k + most && most * n <= most * m
  {
    MoreCosts(most, n, m);
  }

  predicate CallShape(cfg: Config, t: Call, now: nat) {
    match t
    case Idle => true
    case Sampled(n) => n <= now
    case Passed => true
    case Sent(s, cost) => s <= now && cost <= cfg.most
    case Stamped(s, n, cost) => s <= n <= now && cost <= cfg.most
  }

  predicate Shape(cfg: Config, w: World) {
    && cfg.stop > 0 && ClockBack !in cfg.lapses
    && (forall i :: 0 <= i < |w.calls| ==> CallShape(cfg, w.calls[i], w.now))
    && NoneLater(w.book, w.now) && NoneLater(w.total, w.now)
  }

  lemma {:induction false} ShapeStep(cfg: Config, w: World, e: Event)
    requires Shape(cfg, w) && Enabled(cfg, w, e)
    ensures Shape(cfg, Apply(cfg, w, e))
  {
  }

  /** Nothing has been spent in a cycle that has not begun. */
  lemma {:induction false} FutureIsEmpty(cfg: Config, w: World, c: nat)
    requires Shape(cfg, w) && c > w.now
    ensures Get(w.book, c) == 0 && Get(w.total, c) == 0
  {
  }

  /** What the ledger says of a cycle after a call was recorded. */
  lemma {:induction false} RecordedGet(book: map<nat, nat>, c: nat, cost: nat, d: nat)
    ensures Get(Recorded(book, c, cost), d) ==
      if d == c then Get(book, c) + cost else if d == c - 1 then Get(book, d) else 0
  {
  }

  /** By how much a step may add to cycle `c`. */
  function Adds(s: Side, w: World, e: Event, c: nat): nat
    requires e.Land? ==> e.i < |w.calls| && w.calls[e.i].Stamped?
  {
    if s.Spent? then if e.Send? && w.now == c then e.cost else 0
    else if e.Land? && w.calls[e.i].cycle == c then e.amount else 0
  }

  /** Any step keeps the bound on an amount, if letting a call through does. */
  lemma {:induction false} StepHolds(cfg: Config, s: Side, w: World, e: Event, c: nat, amount: nat)
    requires Shape(cfg, w) && Enabled(cfg, w, e) && Holds(cfg, s, amount, w.calls, c, w.now)
    requires c > w.now ==> amount == 0
    requires e.Check? || e.CheckUnread? ==> Holds(cfg, s, amount, w.calls[e.i := Passed], c, w.now)
    ensures Holds(cfg, s, amount + Adds(s, w, e, c), Apply(cfg, w, e).calls, c, Apply(cfg, w, e).now)
  {
    match e
    case NextCycle =>
      CountLater(s, w.calls, c, w.now);
      MoreCosts(cfg.most, CountLoose(s, w.calls, c, w.now + 1), CountLoose(s, w.calls, c, w.now));
    case Land(i, _) => LandHolds(cfg, s, w, e, c, amount);
    case Sample(i) => MovesOn(cfg, s, amount, w.calls, i, Sampled(w.now), c, w.now);
    case Check(i) =>
    case CheckUnread(i) =>
    case GiveUp(i) => MovesOn(cfg, s, amount, w.calls, i, Idle, c, w.now);
    case Lose(i) => MovesOn(cfg, s, amount, w.calls, i, Idle, c, w.now);
    case Forget =>
    case Send(i, cost) =>
      if s.Spent? && c == w.now {
        Spends(cfg, s, amount, w.calls, i, Sent(w.now, cost), cost, c, w.now);
      } else {
        MovesOn(cfg, s, amount, w.calls, i, Sent(w.now, cost), c, w.now);
      }
    case Stamp(i) => MovesOn(cfg, s, amount, w.calls, i, Stamped(w.calls[i].sent, w.now, w.calls[i].cost), c, w.now);
  }

  lemma {:induction false} LandHolds(cfg: Config, s: Side, w: World, e: Event, c: nat, amount: nat)
    requires Shape(cfg, w) && e.Land? && Enabled(cfg, w, e)
    requires Holds(cfg, s, amount, w.calls, c, w.now)
    ensures Holds(cfg, s, amount + Adds(s, w, e, c), w.calls[e.i := Idle], c, w.now)
  {
    if s.Booked? && c == w.calls[e.i].cycle {
      Spends(cfg, s, amount, w.calls, e.i, Idle, e.amount, c, w.now);
    } else {
      MovesOn(cfg, s, amount, w.calls, e.i, Idle, c, w.now);
    }
  }

  lemma {:induction false} LessHolds(cfg: Config, s: Side, less: nat, amount: nat, ts: seq<Call>, c: nat, now: nat)
    requires less <= amount && Holds(cfg, s, amount, ts, c, now)
    ensures Holds(cfg, s, less, ts, c, now)
  {
  }

  lemma {:induction false} BookStep(cfg: Config, w: World, e: Event, c: nat)
    requires Shape(cfg, w) && Enabled(cfg, w, e) && GateUnread !in cfg.lapses
    requires Holds(cfg, Booked, Get(w.book, c), w.calls, c, w.now)
    ensures
      var w' := Apply(cfg, w, e);
      Holds(cfg, Booked, Get(w'.book, c), w'.calls, c, w'.now)
  {
    var w' := Apply(cfg, w, e);
    if c > w.now {
      FutureIsEmpty(cfg, w, c);
    }
    if e.Check? {
      MovesOn(cfg, Booked, Get(w.book, c), w.calls, e.i, Passed, c, w.now);
    }
    StepHolds(cfg, Booked, w, e, c, Get(w.book, c));
    if e.Land? {
      RecordedGet(w.book, w.calls[e.i].cycle, e.amount, c);
      LessHolds(cfg, Booked, Get(w'.book, c), Get(w.book, c) + Adds(Booked, w, e, c), w'.calls, c, w'.now);
    }
  }

  lemma {:induction false} BookBoundedFrom(cfg: Config, w: World, es: seq<Event>, c: nat)
    requires Shape(cfg, w) && GateUnread !in cfg.lapses && Exec(cfg, w, es).Some?
    requires Holds(cfg, Booked, Get(w.book, c), w.calls, c, w.now)
    ensures Get(Exec(cfg, w, es).value.book, c) < cfg.stop + cfg.most * |w.calls|
    decreases |es|
  {
    if es != [] {
      ShapeStep(cfg, w, es[0]);
      BookStep(cfg, w, es[0], c);
      BookBoundedFrom(cfg, Apply(cfg, w, es[0]), es[1..], c);
    } else {
      BoundOf(cfg, Booked, Get(w.book, c), w.calls, c, w.now);
    }
  }

  /**
   In every interleaving, each cycle's `spent_usd` stays below the stop point plus
   one full round of calls, whatever is recorded late, low or not at all.
   */
  lemma {:induction false} OvershootBounded(cfg: Config, k: nat, es: seq<Event>, c: nat)
    requires cfg.stop > 0 && GateUnread !in cfg.lapses && ClockBack !in cfg.lapses
    requires Exec(cfg, Init(k), es).Some?
    ensures Get(Exec(cfg, Init(k), es).value.book, c) < cfg.stop + cfg.most * k
  {
    BookBoundedFrom(cfg, Init(k), es, c);
  }

  // ----- what the calls cost ------------------------------------------------------------------

  predicate Pends(t: Call, c: nat) {
    (t.Sent? || t.Stamped?) && t.sent == c
  }

  function Owed(t: Call, c: nat): nat {
    if Pends(t, c) then t.cost else 0
  }

  /** What was sent in cycle `c` and is still to be recorded. */
  function Pending(ts: seq<Call>, c: nat): nat {
    if ts == [] then 0 else Owed(ts[0], c) + Pending(ts[1..], c)
  }

  lemma {:induction false} PendingUpdate(ts: seq<Call>, i: nat, t: Call, c: nat)
    requires i < |ts|
    ensures Pending(ts[i := t], c) == Pending(ts, c) - Owed(ts[i], c) + Owed(t, c)
  {
    if i == 0 {
      assert ts[0 := t][1..] == ts[1..];
    } else {
      assert ts[i := t][1..] == ts[1..][i - 1 := t];
      PendingUpdate(ts[1..], i - 1, t, c);
    }
  }

  /** A call either may still send, or has sent and owes its record, or neither. */
  lemma {:induction false} PendingOrLoose(cfg: Config, ts: seq<Call>, now: nat)
    requires forall i :: 0 <= i < |ts| ==> CallShape(cfg, ts[i], now)
    ensures Pending(ts, now) + cfg.most * CountLoose(Spent, ts, now, now) <= cfg.most * |ts|
  {
    if ts != [] {
      PendingOrLoose(cfg, ts[1..], now);
      var n, m := CountLoose(Spent, ts[1..], now, now), |ts| - 1;
      assert cfg.most * (n + 1) == cfg.most * n + cfg.most && cfg.most * (m + 1) == cfg.most * m + cfg.most;
    }
  }

  /** The ledger lags behind the present cycle's cost by no more than what is pending. */
  predicate Lags(w: World) {
    Get(w.total, w.now) <= Get(w.book, w.now) + Pending(w.calls, w.now)
  }

  lemma {:induction false} LagStep(cfg: Config, w: World, e: Event)
    requires Shape(cfg, w) && Enabled(cfg, w, e) && cfg.lapses == {} && Lags(w)
    ensures Lags(Apply(cfg, w, e))
  {
    if e.NextCycle? {
      FutureIsEmpty(cfg, w, w.now + 1);
    } else {
      PendingUpdate(w.calls, e.i, Apply(cfg, w, e).calls[e.i], w.now);
      if e.Land? {
        RecordedGet(w.book, w.calls[e.i].cycle, e.amount, w.now);
      }
    }
  }

  /** A call that the gate lets through leaves room for the costs of all that are under way. */
  lemma {:induction false} CheckHolds(cfg: Config, w: World, i: nat, c: nat)
    requires Shape(cfg, w) && Enabled(cfg, w, Check(i)) && Lags(w)
    requires Holds(cfg, Spent, Get(w.total, c), w.calls, c, w.now)
    ensures Holds(cfg, Spent, Get(w.total, c), w.calls[i := Passed], c, w.now)
  {
    if c == w.now == w.calls[i].cycle {
      PendingUpdate(w.calls, i, Passed, c);
      PendingOrLoose(cfg, w.calls[i := Passed], c);
    } else {
      if c > w.now {
        FutureIsEmpty(cfg, w, c);
      }
      MovesOn(cfg, Spent, Get(w.total, c), w.calls, i, Passed, c, w.now);
    }
  }

  lemma {:induction false} TotalStep(cfg: Config, w: World, e: Event, c: nat)
    requires Shape(cfg, w) && Enabled(cfg, w, e) && cfg.lapses == {} && Lags(w)
    requires Holds(cfg, Spent, Get(w.total, c), w.calls, c, w.now)
    ensures
      var w' := Apply(cfg, w, e);
      Holds(cfg, Spent, Get(w'.total, c), w'.calls, c, w'.now)
  {
    if c > w.now {
      FutureIsEmpty(cfg, w, c);
    }
    if e.Check? {
      CheckHolds(cfg, w, e.i, c);
    }
    StepHolds(cfg, Spent, w, e, c, Get(w.total, c));
  }

  lemma {:induction false} TotalBoundedFrom(cfg: Config, w: World, es: seq<Event>, c: nat)
    requires Shape(cfg, w) && cfg.lapses == {} && Lags(w) && Exec(cfg, w, es).Some?
    requires Holds(cfg, Spent, Get(w.total, c), w.calls, c, w.now)
    ensures Get(Exec(cfg, w, es).value.total, c) < cfg.stop + cfg.most * |w.calls|
    decreases |es|
  {
    if es != [] {
      ShapeStep(cfg, w, es[0]);
      LagStep(cfg, w, es[0]);
      TotalStep(cfg, w, es[0], c);
      TotalBoundedFrom(cfg, Apply(cfg, w, es[0]), es[1..], c);
    } else {
      BoundOf(cfg, Spent, Get(w.total, c), w.calls, c, w.now);
    }
  }

  /** Without lapses the same bound holds for what the calls sent in a cycle cost. */
  lemma {:induction false} TotalBounded(cfg: Config, k: nat, es: seq<Event>, c: nat)
    requires cfg.stop > 0 && cfg.lapses == {} && Exec(cfg, Init(k), es).Some?
    ensures Get(Exec(cfg, Init(k), es).value.total, c) < cfg.stop + cfg.most * k
  {
    TotalBoundedFrom(cfg, Init(k), es, c);
  }

  // ----- runs that go past it ----------------------------------------------------------------

  lemma {:induction false} ExecConcat(cfg: Config, w: World, a: seq<Event>, b: seq<Event>)
    requires Exec(cfg, w, a).Some?
    ensures Exec(cfg, w, a + b) == Exec(cfg, Exec(cfg, w, a).value, b)
    decreases |a|
  {
    if a == [] {
      assert a + b == b;
    } else {
      ExecConcat(cfg, Apply(cfg, w, a[0]), a[1..], b);
      assert (a + b)[1..] == a[1..] + b;
    }
  }

  /** `w'` follows `w` by some steps. */
  ghost predicate Leads(cfg: Config, w: World, w': World) {
    exists es :: Exec(cfg, w, es) == Some(w')
  }

  lemma {:induction false} LeadsOn(cfg: Config, a: World, b: World, c: World)
    requires Leads(cfg, a, b) && Leads(cfg, b, c)
    ensures Leads(cfg, a, c)
  {
    var es :| Exec(cfg, a, es) == Some(b);
    var fs :| Exec(cfg, b, fs) == Some(c);
    ExecConcat(cfg, a, es, fs);
    assert Exec(cfg, a, es + fs) == Some(c);
  }

  lemma {:induction false} Then(cfg: Config, a: World, b: World, e: Event)
    requires Leads(cfg, a, b) && Enabled(cfg, b, e)
    ensures Leads(cfg, a, Apply(cfg, b, e))
  {
    assert [e][1..] == [] && Exec(cfg, b, [e]) == Some(Apply(cfg, b, e));
    LeadsOn(cfg, a, b, Apply(cfg, b, e));
  }

  lemma {:induction false} Here(cfg: Config, w: World)
    ensures Leads(cfg, w, w)
  {
    assert Exec(cfg, w, []) == Some(w);
  }

  /** A call may get through to be sent, and recording it is not late. */
  predicate Opens(cfg: Config, w: World) {
    (Get(w.book, w.now) < cfg.stop || GateUnread in cfg.lapses) && NoneLater(w.book, w.now)
  }

  lemma {:induction false} Passes(cfg: Config, w: World, i: nat)
    requires i < |w.calls| && w.calls[i].Idle? && Opens(cfg, w)
    ensures Leads(cfg, w, Put(w, i, Passed))
  {
    Here(cfg, w);
    Then(cfg, w, w, Sample(i));
    var w1 := Put(w, i, Sampled(w.now));
    Then(cfg, w, w1, if GateUnread in cfg.lapses then CheckUnread(i) else Check(i));
    assert Put(w1, i, Passed) == Put(w, i, Passed);
  }

  /** Call `i` has been sent and stamped. */
  function OnItsWay(w: World, i: nat, cost: nat): World
    requires i < |w.calls|
  {
    Put(w, i, Stamped(w.now, w.now, cost)).(total := w.total[w.now := Get(w.total, w.now) + cost])
  }

  lemma {:induction false} GoesOut(cfg: Config, w: World, v: World, i: nat, cost: nat)
    requires Leads(cfg, w, v) && i < |v.calls| && v.calls[i].Passed? && cost <= cfg.most
    ensures Leads(cfg, w, OnItsWay(v, i, cost))
  {
    Then(cfg, w, v, Send(i, cost));
    var v1 := Apply(cfg, v, Send(i, cost));
    Then(cfg, w, v1, Stamp(i));
    assert Apply(cfg, v1, Stamp(i)) == OnItsWay(v, i, cost);
  }

  /** Call `i` goes through its steps up to its stamp while nobody else moves. */
  lemma {:induction false} Stamps(cfg: Config, w: World, i: nat, cost: nat)
    requires i < |w.calls| && w.calls[i].Idle? && Opens(cfg, w) && cost <= cfg.most
    ensures Leads(cfg, w, OnItsWay(w, i, cost))
  {
    Passes(cfg, w, i);
    GoesOut(cfg, w, Put(w, i, Passed), i, cost);
    assert OnItsWay(Put(w, i, Passed), i, cost) == OnItsWay(w, i, cost);
  }

  /** Time and calls are as before; so much more was sent, and recorded, in this cycle. */
  predicate Went(w: World, w': World, sent: nat, recorded: nat) {
    && w'.now == w.now && w'.calls == w.calls && NoneLater(w'.book, w'.now)
    && Get(w'.book, w.now) == Get(w.book, w.now) + recorded
    && Get(w'.total, w.now) == Get(w.total, w.now) + sent
  }

  lemma {:induction false} OneCall(cfg: Config, w: World, i: nat, cost: nat, amount: nat) returns (w': World)
    requires i < |w.calls| && w.calls[i].Idle? && Opens(cfg, w) && amount <= cost <= cfg.most
    requires amount == cost || LowRecord in cfg.lapses
    ensures Leads(cfg, w, w') && Went(w, w', cost, amount)
  {
    Stamps(cfg, w, i, cost);
    var s := OnItsWay(w, i, cost);
    Then(cfg, w, s, Land(i, amount));
    w' := Apply(cfg, s, Land(i, amount));
    RecordedGet(w.book, w.now, amount, w.now);
    assert w'.calls == w.calls;
  }

  /** One call after another, up to the stop point or, for a gate that reads nothing, without end. */
  lemma {:induction false} Pump(cfg: Config, w: World, i: nat, n: nat) returns (w': World)
    requires i < |w.calls| && w.calls[i].Idle? && NoneLater(w.book, w.now) && cfg.most > 0
    requires Get(w.book, w.now) + n <= cfg.stop || GateUnread in cfg.lapses
    ensures Leads(cfg, w, w') && Went(w, w', n, n)
    decreases n
  {
    if n == 0 {
      Here(cfg, w);
      w' := w;
    } else {
      var m := OneCall(cfg, w, i, 1, 1);
      w' := Pump(cfg, m, i, n - 1);
      LeadsOn(cfg, w, m, w');
    }
  }

  /** Every call from `j` on passes the gate and is sent at the largest cost. */
  lemma {:induction false} AllTogether(cfg: Config, w: World, j: nat) returns (w': World)
    requires j <= |w.calls| && Opens(cfg, w)
    requires forall i :: j <= i < |w.calls| ==> w.calls[i].Idle?
    ensures Leads(cfg, w, w') && w'.now == w.now
    ensures Get(w'.total, w.now) == Get(w.total, w.now) + cfg.most * (|w.calls| - j)
    decreases |w.calls| - j
  {
    if j == |w.calls| {
      Here(cfg, w);
      w' := w;
    } else {
      Stamps(cfg, w, j, cfg.most);
      var s := OnItsWay(w, j, cfg.most);
      w' := AllTogether(cfg, s, j + 1);
      LeadsOn(cfg, w, s, w');
      assert cfg.most * (|w.calls| - j) == cfg.most * (|w.calls| - (j + 1)) + cfg.most;
    }
  }

  ghost predicate AllBounded(cfg: Config) {
    forall k: nat, es, c: nat :: Exec(cfg, Init(k), es).Some? ==>
      Get(Exec(cfg, Init(k), es).value.total, c) < cfg.stop + cfg.most * k
  }

  ghost predicate AllBooked(cfg: Config) {
    forall k: nat, es, c: nat :: Exec(cfg, Init(k), es).Some? ==>
      Get(Exec(cfg, Init(k), es).value.book, c) < cfg.stop + cfg.most * k
  }

  lemma {:induction false} Unbounded(cfg: Config, k: nat, w: World, c: nat)
    requires Leads(cfg, Init(k), w) && Get(w.total, c) >= cfg.stop + cfg.most * k
    ensures !AllBounded(cfg)
  {
    var es :| Exec(cfg, Init(k), es) == Some(w);
    assert Get(Exec(cfg, Init(k), es).value.total, c) >= cfg.stop + cfg.most * k;
  }

  lemma {:induction false} Unbooked(cfg: Config, k: nat, w: World, c: nat)
    requires Leads(cfg, Init(k), w) && Get(w.book, c) >= cfg.stop + cfg.most * k
    ensures !AllBooked(cfg)
  {
    var es :| Exec(cfg, Init(k), es) == Some(w);
    assert Get(Exec(cfg, Init(k), es).value.book, c) >= cfg.stop + cfg.most * k;
  }

  /** A ledger that has lost a cycle of which the stop point was reached lets it go there again, and past it. */
  lemma {:induction false} OpensAgain(cfg: Config, w: World)
    requires cfg.stop > 0 && cfg.most > 0 && Leads(cfg, Init(2), w) && w.calls == Init(2).calls
    requires NoneLater(w.book, w.now) && Get(w.book, w.now) == 0 && Get(w.total, w.now) == cfg.stop
    ensures !AllBounded(cfg)
  {
    var a := Pump(cfg, w, 0, cfg.stop - 1);
    LeadsOn(cfg, Init(2), w, a);
    var b := AllTogether(cfg, a, 0);
    LeadsOn(cfg, Init(2), a, b);
    Unbounded(cfg, 2, b, b.now);
  }

  /** A call of cycle 0, recorded after cycle 1 has reached the stop point, wipes cycle 1 from the ledger. */
  lemma {:induction false} LateRecordOvershoots(cfg: Config)
    requires LateRecord in cfg.lapses && cfg.stop > 0 && cfg.most > 0
    ensures !AllBounded(cfg)
  {
    var w0 := Init(2);
    Stamps(cfg, w0, 0, 0);
    var w1 := OnItsWay(w0, 0, 0);
    Then(cfg, w0, w1, NextCycle);
    var w2 := w1.(now := 1);
    var w3 := Pump(cfg, w2, 1, cfg.stop);
    LeadsOn(cfg, w0, w2, w3);
    Then(cfg, w0, w3, Land(0, 0));
    var w := Apply(cfg, w3, Land(0, 0));
    RecordedGet(w3.book, 0, 0, 1);
    assert w.calls == w0.calls;
    OpensAgain(cfg, w);
  }

  /** So does any call that saves a ledger it could not read. */
  lemma {:induction false} LostLedgerOvershoots(cfg: Config)
    requires LedgerLost in cfg.lapses && cfg.stop > 0 && cfg.most > 0
    ensures !AllBounded(cfg)
  {
    var w := Pump(cfg, Init(2), 0, cfg.stop);
    Then(cfg, Init(2), w, Forget);
    OpensAgain(cfg, Apply(cfg, w, Forget));
  }

  /** A call that leaves nothing in the ledger. */
  lemma {:induction false} FreeCall(cfg: Config, w: World, i: nat) returns (w': World)
    requires LostRecord in cfg.lapses || LowRecord in cfg.lapses
    requires i < |w.calls| && w.calls[i].Idle? && Opens(cfg, w) && cfg.most > 0
    ensures Leads(cfg, w, w') && Went(w, w', 1, 0)
  {
    if LowRecord in cfg.lapses {
      w' := OneCall(cfg, w, i, 1, 0);
    } else {
      Stamps(cfg, w, i, 1);
      var s := OnItsWay(w, i, 1);
      Then(cfg, w, s, Lose(i));
      w' := Apply(cfg, s, Lose(i));
      assert w'.calls == w.calls;
    }
  }

  lemma {:induction false} FreePump(cfg: Config, w: World, i: nat, n: nat) returns (w': World)
    requires LostRecord in cfg.lapses || LowRecord in cfg.lapses
    requires i < |w.calls| && w.calls[i].Idle? && Opens(cfg, w) && cfg.most > 0
    ensures Leads(cfg, w, w') && Went(w, w', n, 0)
    decreases n
  {
    if n == 0 {
      Here(cfg, w);
      w' := w;
    } else {
      var m := FreeCall(cfg, w, i);
      w' := FreePump(cfg, m, i, n - 1);
      LeadsOn(cfg, w, m, w');
    }
  }

  /** Calls that are not recorded, or at nothing, go out without end. */
  lemma {:induction false} UnrecordedOvershoots(cfg: Config)
    requires (LostRecord in cfg.lapses || LowRecord in cfg.lapses) && cfg.stop > 0 && cfg.most > 0
    ensures !AllBounded(cfg)
  {
    var w := FreePump(cfg, Init(1), 0, cfg.stop + cfg.most);
    Unbounded(cfg, 1, w, 0);
  }

  /** So do calls past a gate that reads nothing, though the ledger has them all. */
  lemma {:induction false} UnreadGateOvershoots(cfg: Config)
    requires GateUnread in cfg.lapses && cfg.stop > 0 && cfg.most > 0
    ensures !AllBounded(cfg) && !AllBooked(cfg)
  {
    var w := Pump(cfg, Init(1), 0, cfg.stop + cfg.most);
    Unbounded(cfg, 1, w, 0);
    Unbooked(cfg, 1, w, 0);
  }

  /** Cycle 0 is untouched, so the gate is open there; back in cycle 1 the call is sent and recorded. */
  lemma {:induction false} BackAndForth(cfg: Config, w: World) returns (w': World)
    requires ClockBack in cfg.lapses && cfg.stop > 0 && cfg.most > 0 && w.now == 1
    requires w.calls == [Idle] && Get(w.book, 0) == 0 && NoneLater(w.book, 1)
    ensures Leads(cfg, w, w') && Went(w, w', 1, 1) && Get(w'.book, 0) == 0
  {
    Here(cfg, w);
    Then(cfg, w, w, PreviousCycle);
    var w1 := w.(now := 0);
    Then(cfg, w, w1, Sample(0));
    var w2 := Put(w1, 0, Sampled(0));
    Then(cfg, w, w2, Check(0));
    assert Put(w2, 0, Passed) == Put(w1, 0, Passed);
    Then(cfg, w, Put(w1, 0, Passed), NextCycle);
    var w3 := Put(w, 0, Passed);
    assert Put(w1, 0, Passed).(now := 1) == w3;
    GoesOut(cfg, w, w3, 0, 1);
    var w4 := OnItsWay(w3, 0, 1);
    Then(cfg, w, w4, Land(0, 1));
    w' := Apply(cfg, w4, Land(0, 1));
    RecordedGet(w.book, 1, 1, 0);
    RecordedGet(w.book, 1, 1, 1);
    assert w'.calls == w.calls;
  }

  lemma {:induction false} BackAndForthAgain(cfg: Config, w: World, n: nat) returns (w': World)
    requires ClockBack in cfg.lapses && cfg.stop > 0 && cfg.most > 0 && w.now == 1
    requires w.calls == [Idle] && Get(w.book, 0) == 0 && NoneLater(w.book, 1)
    ensures Leads(cfg, w, w') && Went(w, w', n, n)
    decreases n
  {
    if n == 0 {
      Here(cfg, w);
      w' := w;
    } else {
      var m := BackAndForth(cfg, w);
      w' := BackAndForthAgain(cfg, m, n - 1);
      LeadsOn(cfg, w, m, w');
    }
  }

  lemma {:induction false} ClockBackOvershoots(cfg: Config)
    requires ClockBack in cfg.lapses && cfg.stop > 0 && cfg.most > 0
    ensures !AllBounded(cfg) && !AllBooked(cfg)
  {
    Here(cfg, Init(1));
    Then(cfg, Init(1), Init(1), NextCycle);
    var w1 := Init(1).(now := 1);
    assert w1.calls == [Idle];
    var w := BackAndForthAgain(cfg, w1, cfg.stop + cfg.most);
    LeadsOn(cfg, Init(1), w1, w);
    Unbounded(cfg, 1, w, 1);
    Unbooked(cfg, 1, w, 1);
  }

  /** What the ledger has for a cycle keeps to the bound in all runs exactly when the gate reads it and time goes on. */
  lemma {:induction false} BookBoundedIff(cfg: Config)
    requires cfg.stop > 0 && cfg.most > 0
    ensures AllBooked(cfg) <==> GateUnread !in cfg.lapses && ClockBack !in cfg.lapses
  {
    if GateUnread in cfg.lapses {
      UnreadGateOvershoots(cfg);
    } else if ClockBack in cfg.lapses {
      ClockBackOvershoots(cfg);
    } else {
      forall k: nat, es, c: nat | Exec(cfg, Init(k), es).Some?
        ensures Get(Exec(cfg, Init(k), es).value.book, c) < cfg.stop + cfg.most * k
      {
        OvershootBounded(cfg, k, es, c);
      }
    }
  }

  /** What the calls of a cycle really cost does so exactly when none of the lapses can happen. */
  lemma {:induction false} BoundedIff(cfg: Config)
    requires cfg.stop > 0 && cfg.most > 0
    ensures AllBounded(cfg) <==> cfg.lapses == {}
  {
    if cfg.lapses == {} {
      forall k: nat, es, c: nat | Exec(cfg, Init(k), es).Some?
        ensures Get(Exec(cfg, Init(k), es).value.total, c) < cfg.stop + cfg.most * k
      {
        TotalBounded(cfg, k, es, c);
      }
    } else {
      var lapse :| lapse in cfg.lapses;
      match lapse
      case LateRecord => LateRecordOvershoots(cfg);
      case LedgerLost => LostLedgerOvershoots(cfg);
      case LostRecord => UnrecordedOvershoots(cfg);
      case LowRecord => UnrecordedOvershoots(cfg);
      case GateUnread => UnreadGateOvershoots(cfg);
      case ClockBack => ClockBackOvershoots(cfg);
    }
  }

  // ----- the ledger behind it --------------------------------------------------------------------

  /** Cycles in order: a reset date is the only one of its month. */
  function Number(start: Cycle.Date): int {
    12 * start.year + start.month
  }

  /** Recording a call in the ledger does to the cycles' totals what `Recorded` does, cycles numbered. */
  lemma {:induction false} RecordsAsTheLedger(
      b: Ledger.Book, start: Cycle.Date, d: Cycle.Date, reset: int, stop: Option<nat>, cost: nat)
    requires Cycle.IsReset(start, reset) && Cycle.IsReset(d, reset)
    ensures
      var b' := Ledger.Recorded(b, start, Cycle.Previous(start, reset), stop, Ledger.Entry(Some(cost), false)).0;
      Ledger.TotalsOf(b', d).spent ==
        if Number(d) == Number(start) then Ledger.TotalsOf(b, start).spent + cost
        else if Number(d) == Number(start) - 1 then Ledger.TotalsOf(b, d).spent
        else 0
  {
    SameNumberSameCycle(d, start, reset);
    PreviousIsNumberedBefore(start, reset);
    Cycle.PreviousIsAdjacent(start, d, reset);
    SameNumberSameCycle(d, Cycle.Previous(start, reset), reset);
    LedgerRecordedGet(b, start, Cycle.Previous(start, reset), d, stop, Ledger.Entry(Some(cost), false));
  }

  lemma {:induction false} LedgerRecordedGet(
      b: Ledger.Book, start: Cycle.Date, previous: Cycle.Date, d: Cycle.Date, stop: Option<nat>, e: Ledger.Entry)
    requires !e.estimated && previous != start
    ensures
      var b' := Ledger.Recorded(b, start, previous, stop, e).0;
      Ledger.TotalsOf(b', d).spent ==
        if d == start then Ledger.TotalsOf(b, start).spent + Ledger.Amount(e)
        else if d == previous then Ledger.TotalsOf(b, d).spent
        else 0
  {
  }

  lemma {:induction false} SameNumberSameCycle(a: Cycle.Date, b: Cycle.Date, reset: int)
    requires Cycle.IsReset(a, reset) && Cycle.IsReset(b, reset)
    ensures Number(a) == Number(b) <==> a == b
  {
  }

  lemma {:induction false} PreviousIsNumberedBefore(start: Cycle.Date, reset: int)
    requires Cycle.IsReset(start, reset)
    ensures Number(Cycle.Previous(start, reset)) == Number(start) - 1
  {
  }
}
