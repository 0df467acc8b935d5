/**
 Rate cards and the offload of one call (mc/api_credits_budget.py,
 mc/api_credits_offload.py). A model has tiers by prompt size; `CleanTiers` puts
 the user's list in order and `PriceFor` takes the first that admits the prompt.
 */
module Prices {
  import opened Wrappers
  import opened Cycle
  import opened Ledger

  /** Rates in the smallest unit of the ledger per million tokens. */
  datatype Rate = Rate(input: nat, output: nat, cacheRead: nat, cacheWrite: nat)

  /** No limit: the tier admits any prompt. */
  datatype Tier = Tier(limit: Option<nat>, rate: Rate)

  datatype Usage = Usage(input: nat, output: nat, cacheRead: nat, cacheWrite: nat)

  predicate Admits(t: Tier, prompt: nat) {
    t.limit.None? || prompt <= t.limit.value
  }

  /** The order of the sort: bounded tiers by their bound, unbounded ones last. */
  predicate NotLooser(a: Tier, b: Tier) {
    b.limit.None? || (a.limit.Some? && a.limit.value <= b.limit.value)
  }

  function Inserted(sorted: seq<Tier>, t: Tier): (r: seq<Tier>)
    ensures |r| == |sorted| + 1
  {
    if sorted == [] || !NotLooser(sorted[|sorted| - 1], t) then
      if sorted == [] then [t] else Inserted(sorted[..|sorted| - 1], t) + [sorted[|sorted| - 1]]
    else sorted + [t]
  }

  /** A stable sort: an equal tier goes behind those already there. */
  function CleanTiers(raw: seq<Tier>): (r: seq<Tier>)
    ensures |r| == |raw|
  {
    if raw == [] then [] else Inserted(CleanTiers(raw[..|raw| - 1]), raw[|raw| - 1])
  }

  function PriceFor(tiers: seq<Tier>, prompt: nat): Option<Rate> {
    if tiers == [] then None
    else if Admits(tiers[0], prompt) then Some(tiers[0].rate)
    else PriceFor(tiers[1..], prompt)
  }

  predicate Ordered(ts: seq<Tier>) {
    forall i, j :: 0 <= i < j < |ts| ==> NotLooser(ts[i], ts[j])
  }

  lemma {:induction false} InsertedIsOrdered(sorted: seq<Tier>, t: Tier)
    requires Ordered(sorted)
    ensures Ordered(Inserted(sorted, t)) && multiset(Inserted(sorted, t)) == multiset(sorted) + multiset{t}
  {
    if sorted != [] {
      var k := |sorted| - 1;
      assert sorted == sorted[..k] + [sorted[k]];
      if !NotLooser(sorted[k], t) {
        InsertedIsOrdered(sorted[..k], t);
        var r := Inserted(sorted[..k], t);
        forall i | 0 <= i < |r|
          ensures NotLooser(r[i], sorted[k])
        {
          assert r[i] in multiset(r);
        }
      }
    }
  }

  lemma {:induction false} CleanIsSorted(raw: seq<Tier>)
    ensures Ordered(CleanTiers(raw)) && multiset(CleanTiers(raw)) == multiset(raw)
  {
    if raw != [] {
      var k := |raw| - 1;
      CleanIsSorted(raw[..k]);
      InsertedIsOrdered(CleanTiers(raw[..k]), raw[k]);
      assert raw == raw[..k] + [raw[k]];
    }
  }

  lemma {:induction false} FirstAdmitting(ts: seq<Tier>, prompt: nat) returns (k: nat)
    ensures k <= |ts| && forall i :: 0 <= i < k ==> !Admits(ts[i], prompt)
    ensures PriceFor(ts, prompt) == if k == |ts| then None else Some(ts[k].rate)
    ensures k < |ts| ==> Admits(ts[k], prompt)
  {
    k := 0;
    if ts != [] && !Admits(ts[0], prompt) {
      var n := FirstAdmitting(ts[1..], prompt);
      k := n + 1;
    }
  }

  /**
   However the user listed the tiers: a prompt has a price exactly if some tier
   admits it, and the price is that of a tightest such tier.
   */
  lemma {:induction false} PriceIsTightest(raw: seq<Tier>, prompt: nat)
    ensures PriceFor(CleanTiers(raw), prompt).None? <==> forall t :: t in raw ==> !Admits(t, prompt)
    ensures PriceFor(CleanTiers(raw), prompt).Some? ==>
      exists t :: t in raw && Admits(t, prompt) && t.rate == PriceFor(CleanTiers(raw), prompt).value
        && forall u :: u in raw && Admits(u, prompt) ==>
             u.limit.None? || (t.limit.Some? && t.limit.value <= u.limit.value)
  {
    CleanIsSorted(raw);
    var ts := CleanTiers(raw);
    var k := FirstAdmitting(ts, prompt);
    forall t
      ensures t in raw <==> t in ts
    {
      assert t in raw <==> t in multiset(raw);
      assert t in ts <==> t in multiset(ts);
    }
    if k < |ts| {
      var t := ts[k];
      forall u | u in raw && Admits(u, prompt)
        ensures NotLooser(t, u)
      {
        var i :| 0 <= i < |ts| && ts[i] == u;
        assert k <= i;
      }
      assert t in raw && Admits(t, prompt);
    }
  }

  function Prompt(u: Usage): nat {
    u.input + u.cacheRead + u.cacheWrite
  }

  function Charge(r: Rate, u: Usage): nat {
    u.input * r.input + u.output * r.output + u.cacheRead * r.cacheRead + u.cacheWrite * r.cacheWrite
  }

  /** `cost_usd`: nothing if the prompt has no price. */
  function Cost(tiers: seq<Tier>, u: Usage): Option<nat> {
    var r := PriceFor(tiers, Prompt(u));
    if r.Some? then Some(Charge(r.value, u)) else None
  }

  /** The gate asks for the price of an empty prompt. */
  predicate IsPriced(tiers: seq<Tier>) {
    PriceFor(tiers, 0).Some?
  }

  // ----- one call -------------------------------------------------------------------------------

  datatype Settings = Settings(on: bool, secret: bool, stop: Option<nat>, reset: int, tiers: seq<Tier>)

  /** What the transport brought back: `usage` if tokens were counted, `halting` for a refusal that stops all calls. */
  datatype Reply = Reply(ok: bool, truncated: bool, usage: Option<Usage>, halting: bool)

  /** `can_spend`. */
  predicate CanSpend(b: Book, s: Settings, start: Date) {
    s.on && s.secret && s.stop.Some? && s.stop.value > 0 && IsPriced(s.tiers) && MaySpend(b, start, s.stop.value)
  }

  /** Could the gate, the record, and the halt or note at the end read the ledger? */
  datatype Loads = Loads(gate: bool, record: bool, end: bool)

  const ALL_LOAD := Loads(true, true, true)

  /** The gate, the record and the halt each read the clock: `asked`, `start` and `halted` are the cycles they find. */
  function Offloaded(b: Book, s: Settings, asked: Date, start: Date, previous: Date, halted: Date,
                     loads: Loads, key: bool, reply: Reply): (Book, bool) {
    if !s.on || !CanSpend(Loaded(b, loads.gate), s, asked) then (b, false)
    else if !key then (Loaded(b, loads.end), false)
    else
      var b1 :=
        if reply.usage.Some? && (reply.ok || reply.truncated) then
          Recorded(Loaded(b, loads.record), start, previous, s.stop, Entry(Cost(s.tiers, reply.usage.value), false)).0
        else b;
      if reply.ok then (b1, true)
      else if reply.halting then (Halted(Loaded(b1, loads.end), halted).0, false)
      else (Loaded(b1, loads.end), false)
  }

  /** `try_offload` with nothing else going on: the day may change while the call is out. */
  method TryOffload(c: Credits, s: Settings, asked: Date, recorded: Date, halted: Date,
                    loads: Loads, key: bool, reply: Reply)
    returns (served: bool)
    modifies c
    ensures
      var start := Bounds(recorded, s.reset).0;
      var (want, result) := Offloaded(old(c.book), s, Bounds(asked, s.reset).0, start, Previous(start, s.reset),
                                      Bounds(halted, s.reset).0, loads, key, reply);
      && c.book.cycles == want.cycles && c.book.notified == want.notified && c.book.halted == want.halted
      && served == result
  {
    if !s.on {
      return false;
    }
    if !CanSpend(Loaded(c.book, loads.gate), s, Bounds(asked, s.reset).0) {
      return false;
    }
    if !key {
      c.NoteError(loads.end);
      return false;
    }
    if reply.usage.Some? && (reply.ok || reply.truncated) {
      var cost := Cost(s.tiers, reply.usage.value);
      var notice := c.Record(recorded, s.reset, s.stop, Entry(cost, false), loads.record);
    }
    if reply.ok {
      return true;
    }
    if reply.halting {
      var notice := c.Halt(halted, s.reset, loads.end);
    } else {
      c.NoteError(loads.end);
    }
    return false;
  }

  /** The gate lets a model through if it has any tier at all. */
  lemma {:induction false} GateNeedsOneTier(raw: seq<Tier>)
    ensures IsPriced(CleanTiers(raw)) <==> raw != []
  {
    PriceIsTightest(raw, 0);
    if raw != [] {
      assert Admits(raw[0], 0);
    }
  }

  /** But every call has a cost exactly if some tier is unbounded. */
  lemma {:induction false} EveryCallPricedIff(raw: seq<Tier>)
    ensures (forall u :: Cost(CleanTiers(raw), u).Some?) <==> exists t :: t in raw && t.limit.None?
  {
    if t :| t in raw && t.limit.None? {
      forall u
        ensures Cost(CleanTiers(raw), u).Some?
      {
        PriceIsTightest(raw, Prompt(u));
        assert Admits(t, Prompt(u));
      }
    } else {
      var big := AboveAll(raw);
      PriceIsTightest(raw, big);
      assert Cost(CleanTiers(raw), Usage(big, 0, 0, 0)).None?;
    }
  }

  lemma {:induction false} AboveAll(raw: seq<Tier>) returns (n: nat)
    requires forall t :: t in raw ==> t.limit.Some?
    ensures forall t :: t in raw ==> !Admits(t, n)
  {
    n := 0;
    if raw != [] {
      var m := AboveAll(raw[1..]);
      n := m + raw[0].limit.value + 1;
      forall t | t in raw
        ensures !Admits(t, n)
      {
        assert t == raw[0] || t in raw[1..];
        assert t in raw[1..] ==> !Admits(t, m);
      }
    }
  }

  /** `n` successful calls of the same usage, one after another. */
  function Repeated(b: Book, s: Settings, start: Date, previous: Date, u: Usage, n: nat): Book {
    if n == 0 then b
    else Offloaded(Repeated(b, s, start, previous, u, n - 1), s, start, start, previous, start,
                   ALL_LOAD, true, Reply(true, false, Some(u), false)).0
  }

  lemma {:induction false} FreeRecord(b: Book, s: Settings, start: Date, previous: Date)
    requires CanSpend(b, s, start)
    ensures
      var b' := Recorded(b, start, previous, s.stop, Entry(None, false)).0;
      TotalsOf(b', start).spent == TotalsOf(b, start).spent && CanSpend(b', s, start)
  {
    var t := TotalsOf(Recorded(b, start, previous, s.stop, Entry(None, false)).0, start);
    assert t == Counted(TotalsOf(b, start), Entry(None, false));
  }

  lemma {:induction false} FreeCall(b: Book, s: Settings, start: Date, previous: Date, u: Usage)
    requires CanSpend(b, s, start) && Cost(s.tiers, u).None?
    ensures
      var b' := Offloaded(b, s, start, start, previous, start, ALL_LOAD, true, Reply(true, false, Some(u), false)).0;
      TotalsOf(b', start).spent == TotalsOf(b, start).spent && CanSpend(b', s, start)
  {
    var r := Recorded(b, start, previous, s.stop, Entry(None, false)).0;
    assert Offloaded(b, s, start, start, previous, start, ALL_LOAD, true, Reply(true, false, Some(u), false)).0 == r;
    FreeRecord(b, s, start, previous);
  }

  /** A call without a price is recorded at no cost: however many go out, the gate stays open. */
  lemma {:induction false} UnpricedCallsAreFree(b: Book, s: Settings, start: Date, previous: Date, u: Usage, n: nat)
    requires CanSpend(b, s, start) && Cost(s.tiers, u).None?
    ensures
      var b' := Repeated(b, s, start, previous, u, n);
      TotalsOf(b', start).spent == TotalsOf(b, start).spent && CanSpend(b', s, start)
  {
    if n > 0 {
      UnpricedCallsAreFree(b, s, start, previous, u, n - 1);
      FreeCall(Repeated(b, s, start, previous, u, n - 1), s, start, previous, u);
    }
  }

  // ----- which calls go through ----------------------------------------------------------------

  /** The calls the gate goes by: those since the ledger was last saved unread, or none if it cannot read it now. */
  function Known(ss: seq<Step>, read: bool): seq<Call> {
    if read then CallsSince(ss) else []
  }

  /** No call that the gate knows of worked on a later cycle. */
  predicate NotBefore(d: Date, cs: seq<Call>) {
    forall i :: 0 <= i < |cs| && !cs[i].Clear? ==> NotAfter(cs[i].start, d)
  }

  /**
   What lets a call out, said of the history: a stop point above all that was recorded in the
   cycle, and no halt of the cycle that still stands.
   */
  predicate LetOut(s: Settings, cs: seq<Call>, asked: Date) {
    && s.on && s.secret && s.tiers != []
    && s.stop.Some? && Sum(Ideal(cs, asked), false) < s.stop.value
    && !HaltStands(cs, asked)
  }

  /** What the call leaves in the ledger, as calls to it. */
  function Leaves(s: Settings, start: Date, halted: Date, loads: Loads, reply: Reply): seq<Step> {
    (if reply.usage.Some? && (reply.ok || reply.truncated)
     then [Made(Rec(start, Entry(Cost(s.tiers, reply.usage.value), false)), loads.record)] else [])
    + (if reply.ok then [] else if reply.halting then [Made(HaltAt(halted), loads.end)] else [Noted(loads.end)])
  }

  /** The gate's answer on a ledger with that history. */
  lemma {:induction false} GateGoesByHistory(s: Settings, raw: seq<Tier>, ss: seq<Step>, asked: Date, read: bool)
    requires s.tiers == CleanTiers(raw)
    requires InOrder(CallsOf(ss), s.reset) && IsReset(asked, s.reset) && NotBefore(asked, Known(ss, read))
    ensures CanSpend(Loaded(AfterSteps(s.reset, s.stop, ss), read), s, asked) <==> LetOut(s, Known(ss, read), asked)
  {
    var cs := Known(ss, read);
    SinceInOrder(ss, s.reset);
    UnreadForgets(s.reset, s.stop, ss);
    assert Loaded(AfterSteps(s.reset, s.stop, ss), read) == After(s.reset, s.stop, cs);
    HaltedExactly(s.reset, s.stop, cs, asked);
    SpentExactly(s.reset, s.stop, cs, asked);
    GateNeedsOneTier(raw);
  }

  lemma {:induction false} StepsOf(reset: int, stop: Option<nat>, ss: seq<Step>, s: Step)
    ensures AfterSteps(reset, stop, ss + [s]) == Takes(AfterSteps(reset, stop, ss), reset, stop, s)
  {
    assert (ss + [s])[..|ss|] == ss;
  }

  /**
   Over every history of the ledger, read or not: a call is served exactly if it is let out,
   there is a key, and the reply is ok. One that is not let out, because its cycle is
   halted or its stop point reached, leaves the ledger as it was; one that is let out
   leaves its record, and the halt or the note that its reply asks for.
   */
  lemma {:induction false} ServedExactly(
      s: Settings, raw: seq<Tier>, ss: seq<Step>, asked: Date, start: Date, halted: Date, loads: Loads, key: bool,
      reply: Reply)
    requires s.tiers == CleanTiers(raw)
    requires InOrder(CallsOf(ss), s.reset) && IsReset(asked, s.reset) && NotBefore(asked, Known(ss, loads.gate))
    ensures
      var b := AfterSteps(s.reset, s.stop, ss);
      var (b', served) := Offloaded(b, s, asked, start, Previous(start, s.reset), halted, loads, key, reply);
      var out := LetOut(s, Known(ss, loads.gate), asked);
      && (served <==> out && key && reply.ok)
      && (!out ==> b' == b)
      && (out && !key ==> b' == AfterSteps(s.reset, s.stop, ss + [Noted(loads.end)]))
      && (out && key ==> b' == AfterSteps(s.reset, s.stop, ss + Leaves(s, start, halted, loads, reply)))
  {
    GateGoesByHistory(s, raw, ss, asked, loads.gate);
    StepsOf(s.reset, s.stop, ss, Noted(loads.end));
    if key && LetOut(s, Known(ss, loads.gate), asked) {
      LeavesExactly(s, ss, asked, start, halted, loads, reply);
    }
  }

  lemma {:induction false} LeavesExactly(
      s: Settings, ss: seq<Step>, asked: Date, start: Date, halted: Date, loads: Loads, reply: Reply)
    requires CanSpend(Loaded(AfterSteps(s.reset, s.stop, ss), loads.gate), s, asked)
    ensures
      var b := AfterSteps(s.reset, s.stop, ss);
      Offloaded(b, s, asked, start, Previous(start, s.reset), halted, loads, true, reply).0
      == AfterSteps(s.reset, s.stop, ss + Leaves(s, start, halted, loads, reply))
  {
    var b := AfterSteps(s.reset, s.stop, ss);
    var previous := Previous(start, s.reset);
    if reply.usage.Some? && (reply.ok || reply.truncated) {
      var e := Entry(Cost(s.tiers, reply.usage.value), false);
      var ss1 := ss + [Made(Rec(start, e), loads.record)];
      StepsOf(s.reset, s.stop, ss, Made(Rec(start, e), loads.record));
      TakesRecord(b, s.reset, s.stop, start, e, loads.record);
      EndsWith(s, ss, ss1, start, halted, loads, reply);
      LastTaken(s, ss1, halted, loads, reply);
      OffloadTakes(b, AfterSteps(s.reset, s.stop, ss1), s, asked, start, previous, halted, loads, reply);
    } else {
      assert ss + [] == ss;
      EndsWith(s, ss, ss, start, halted, loads, reply);
      LastTaken(s, ss, halted, loads, reply);
      OffloadTakes(b, b, s, asked, start, previous, halted, loads, reply);
    }
  }

  /** How a call ends, after its record if there is one. */
  function LastStep(reply: Reply, halted: Date, read: bool): Step {
    if reply.halting then Made(HaltAt(halted), read) else Noted(read)
  }

  /** After its record, if any (`ss1`), a call ends as its reply asks for. */
  lemma {:induction false} EndsWith(
      s: Settings, ss: seq<Step>, ss1: seq<Step>, start: Date, halted: Date, loads: Loads, reply: Reply)
    requires ss1 == ss +
      if reply.usage.Some? && (reply.ok || reply.truncated)
      then [Made(Rec(start, Entry(Cost(s.tiers, reply.usage.value), false)), loads.record)] else []
    ensures ss + Leaves(s, start, halted, loads, reply) ==
      if reply.ok then ss1 else ss1 + [LastStep(reply, halted, loads.end)]
  {
    assert ss1 + [] == ss1;
  }

  lemma {:induction false} TakesLast(b: Book, reset: int, stop: Option<nat>, reply: Reply, halted: Date, read: bool)
    ensures Takes(b, reset, stop, LastStep(reply, halted, read)) ==
      if reply.halting then Halted(Loaded(b, read), halted).0 else Loaded(b, read)
  {
  }

  lemma {:induction false} LastTaken(s: Settings, ss: seq<Step>, halted: Date, loads: Loads, reply: Reply)
    ensures AfterSteps(s.reset, s.stop, ss + [LastStep(reply, halted, loads.end)]) ==
      var b := AfterSteps(s.reset, s.stop, ss);
      if reply.halting then Halted(Loaded(b, loads.end), halted).0 else Loaded(b, loads.end)
  {
    StepsOf(s.reset, s.stop, ss, LastStep(reply, halted, loads.end));
    TakesLast(AfterSteps(s.reset, s.stop, ss), s.reset, s.stop, reply, halted, loads.end);
  }

  lemma {:induction false} TakesRecord(b: Book, reset: int, stop: Option<nat>, start: Date, e: Entry, read: bool)
    ensures Takes(b, reset, stop, Made(Rec(start, e), read)) ==
      Recorded(Loaded(b, read), start, Previous(start, reset), stop, e).0
  {
  }

  lemma {:induction false} OffloadTakes(
      b: Book, b1: Book, s: Settings, asked: Date, start: Date, previous: Date, halted: Date, loads: Loads,
      reply: Reply)
    requires CanSpend(Loaded(b, loads.gate), s, asked)
    requires b1 ==
      if reply.usage.Some? && (reply.ok || reply.truncated) then
        Recorded(Loaded(b, loads.record), start, previous, s.stop, Entry(Cost(s.tiers, reply.usage.value), false)).0
      else b
    ensures Offloaded(b, s, asked, start, previous, halted, loads, true, reply).0 ==
      if reply.ok then b1
      else if reply.halting then Halted(Loaded(b1, loads.end), halted).0
      else Loaded(b1, loads.end)
  {
  }

  /** Nothing costs nothing, and one more token of a kind costs its own rate and no other. */
  lemma {:induction false} EachTokenAtItsRate(r: Rate, u: Usage)
    ensures Charge(r, Usage(0, 0, 0, 0)) == 0
    ensures Charge(r, u.(input := u.input + 1)) == Charge(r, u) + r.input
    ensures Charge(r, u.(output := u.output + 1)) == Charge(r, u) + r.output
    ensures Charge(r, u.(cacheRead := u.cacheRead + 1)) == Charge(r, u) + r.cacheRead
    ensures Charge(r, u.(cacheWrite := u.cacheWrite + 1)) == Charge(r, u) + r.cacheWrite
    ensures Prompt(u.(output := u.output + 1)) == Prompt(u)
    ensures Prompt(u.(input := u.input + 1)) == Prompt(u.(cacheRead := u.cacheRead + 1)) == Prompt(u) + 1
    ensures Prompt(u.(cacheWrite := u.cacheWrite + 1)) == Prompt(u) + 1 && Prompt(Usage(0, u.output, 0, 0)) == 0
  {
  }
}
