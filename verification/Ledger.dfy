/**
 The API-credits ledger (mc/api_credits_budget.py): per-cycle totals whose entry
 lists are capped, pruning of old cycles, and one notice per cycle.

 Amounts are integers in the smallest unit the ledger rounds to. A stop point is
 the amount from which the gate is shut. The class is proved against `Recorded`
 and the other functions; the lemmas are about every history of calls. A ledger
 that cannot be read is taken for an empty one, by every call.
 */
module Ledger {
  import opened Wrappers
  import opened Cycle

  const CAP := 5000

  datatype Entry = Entry(cost: Option<nat>, estimated: bool)

  datatype Totals = Totals(entries: seq<Entry>, spent: nat, estimatedCost: nat, calls: nat, estimatedCalls: nat)

  datatype Book = Book(cycles: map<Date, Totals>, notified: Option<Date>, halted: Option<Date>)

  const EMPTY := Totals([], 0, 0, 0, 0)

  const NOTHING := Book(map[], None, None)

  /** `_load_ledger`. */
  function Loaded(b: Book, read: bool): Book {
    if read then b else NOTHING
  }

  function Amount(e: Entry): nat {
    if e.cost.Some? then e.cost.value else 0
  }

  function LastEntries(es: seq<Entry>): seq<Entry> {
    if |es| > CAP then es[|es| - CAP..] else es
  }

  function Counted(t: Totals, e: Entry): Totals {
    var entries := LastEntries(t.entries + [e]);
    if e.estimated then
      t.(entries := entries, estimatedCalls := t.estimatedCalls + 1, estimatedCost := t.estimatedCost + Amount(e))
    else
      t.(entries := entries, calls := t.calls + 1, spent := t.spent + Amount(e))
  }

  function TotalsOf(b: Book, start: Date): Totals {
    if start in b.cycles then b.cycles[start] else EMPTY
  }

  /** Only the current and the previous cycle stay. */
  function Pruned(cycles: map<Date, Totals>, start: Date, previous: Date): map<Date, Totals> {
    map c | c in cycles && (c == start || c == previous) :: cycles[c]
  }

  predicate Reaches(stop: Option<nat>, spent: nat) {
    stop.Some? && spent >= stop.value
  }

  /** One call to `record`, for the cycle that started at `start`; and whether it sends the notice. */
  function Recorded(b: Book, start: Date, previous: Date, stop: Option<nat>, e: Entry): (Book, bool) {
    var t := Counted(TotalsOf(b, start), e);
    var notice := !e.estimated && Reaches(stop, t.spent) && b.notified != Some(start);
    (b.(cycles := Pruned(b.cycles[start := t], start, previous),
        notified := if notice then Some(start) else b.notified),
     notice)
  }

  function Halted(b: Book, start: Date): (Book, bool) {
    (b.(halted := Some(start), notified := Some(start)), b.notified != Some(start))
  }

  function Cleared(b: Book): Book {
    b.(halted := None)
  }

  /** The ledger's part of `can_spend`. */
  predicate MaySpend(b: Book, start: Date, stop: nat) {
    b.halted != Some(start) && TotalsOf(b, start).spent < stop
  }

  /** The work of `_cycle` and of appending the entry, on the loaded ledger. */
  method Charge(cycles: map<Date, Totals>, start: Date, e: Entry) returns (t: Totals)
    ensures t == Counted(if start in cycles then cycles[start] else EMPTY, e)
  {
    t := if start in cycles then cycles[start] else EMPTY;
    var entries := t.entries + [e];
    if |entries| > CAP {
      entries := entries[|entries| - CAP..];
    }
    if e.estimated {
      t := t.(estimatedCalls := t.estimatedCalls + 1, estimatedCost := t.estimatedCost + Amount(e));
    } else {
      t := t.(calls := t.calls + 1, spent := t.spent + Amount(e));
    }
    t := t.(entries := entries);
  }

  method Prune(cycles: map<Date, Totals>, start: Date, previous: Date) returns (kept: map<Date, Totals>)
    ensures kept == Pruned(cycles, start, previous)
  {
    var keep := {start, previous};
    var todo := cycles.Keys;
    kept := cycles;
    while todo != {}
      invariant todo <= cycles.Keys && kept.Keys <= cycles.Keys
      invariant forall c :: c in cycles && (c in keep || c in todo) ==> c in kept
      invariant forall c :: c in kept ==> c in keep || c in todo
      invariant forall c :: c in kept ==> kept[c] == cycles[c]
      decreases |todo|
    {
      var c :| c in todo;
      if c !in keep {
        kept := kept - {c};
      }
      todo := todo - {c};
    }
  }

  class Credits {
    /** The ledger file: every call loads it, changes it under the lock, and saves it. */
    var book: Book

    constructor ()
      ensures book == NOTHING
    {
      book := NOTHING;
    }

    method Record(today: Date, reset: int, stop: Option<nat>, e: Entry, read: bool) returns (notice: bool)
      modifies this
      ensures
        var start := Bounds(today, reset).0;
        var (want, notify) := Recorded(Loaded(old(book), read), start, Previous(start, reset), stop, e);
        && book.cycles == want.cycles && book.notified == want.notified && book.halted == want.halted
        && notice == notify
    {
      var start := Bounds(today, reset).0;
      notice := RecordIn(start, Previous(start, reset), stop, e, read);
    }

    /** The part under the lock; `start` was computed before it was taken. */
    method RecordIn(start: Date, previous: Date, stop: Option<nat>, e: Entry, read: bool) returns (notice: bool)
      modifies this
      ensures
        var (want, notify) := Recorded(Loaded(old(book), read), start, previous, stop, e);
        && book.cycles == want.cycles && book.notified == want.notified && book.halted == want.halted
        && notice == notify
    {
      var led := Loaded(book, read);
      var t := Charge(led.cycles, start, e);
      var kept := Prune(led.cycles[start := t], start, previous);
      led := led.(cycles := kept);
      notice := false;
      if !e.estimated {
        if stop.Some? && t.spent >= stop.value && led.notified != Some(start) {
          led := led.(notified := Some(start));
          notice := true;
        }
      }
      book := led;
    }

    method Halt(today: Date, reset: int, read: bool) returns (notice: bool)
      modifies this
      ensures (book, notice) == Halted(Loaded(old(book), read), Bounds(today, reset).0)
    {
      var start := Bounds(today, reset).0;
      var led := Loaded(book, read).(halted := Some(start));
      notice := led.notified != Some(start);
      if notice {
        led := led.(notified := Some(start));
      }
      book := led;
    }

    /** Saves only if there was a halt to clear, so an unread ledger stays. */
    method ClearHalt(read: bool)
      modifies this
      ensures book == if read then Cleared(old(book)) else old(book)
    {
      var led := Loaded(book, read);
      if led.halted.Some? {
        book := led.(halted := None);
      }
    }

    /** Keeps the text of a failure, which is not modelled, and saves all that was loaded. */
    method NoteError(read: bool)
      modifies this
      ensures book == Loaded(old(book), read)
    {
      book := Loaded(book, read);
    }
  }

  // ----- histories --------------------------------------------------------------------------

  /** A call to the ledger, with the start of the cycle it works on. */
  datatype Call = Rec(start: Date, entry: Entry) | HaltAt(start: Date) | Clear

  function Does(b: Book, reset: int, stop: Option<nat>, c: Call): (Book, bool) {
    match c
    case Rec(start, e) => Recorded(b, start, Previous(start, reset), stop, e)
    case HaltAt(start) => Halted(b, start)
    case Clear => (Cleared(b), false)
  }

  function After(reset: int, stop: Option<nat>, cs: seq<Call>): Book {
    if cs == [] then NOTHING
    else Does(After(reset, stop, cs[..|cs| - 1]), reset, stop, cs[|cs| - 1]).0
  }

  /** All that was ever recorded for a cycle: the totals without cap or pruning. */
  function Ideal(cs: seq<Call>, start: Date): (r: seq<Entry>) {
    if cs == [] then []
    else
      var last := cs[|cs| - 1];
      Ideal(cs[..|cs| - 1], start) + if last.Rec? && last.start == start then [last.entry] else []
  }

  function Sum(es: seq<Entry>, estimated: bool): nat {
    if es == [] then 0
    else Sum(es[..|es| - 1], estimated) + if es[|es| - 1].estimated == estimated then Amount(es[|es| - 1]) else 0
  }

  function Count(es: seq<Entry>, estimated: bool): nat {
    if es == [] then 0
    else Count(es[..|es| - 1], estimated) + if es[|es| - 1].estimated == estimated then 1 else 0
  }

  /** The totals are those of everything recorded, the entries its last ones. */
  predicate Conserves(t: Totals, es: seq<Entry>) {
    && t.entries == LastEntries(es)
    && t.spent == Sum(es, false) && t.estimatedCost == Sum(es, true)
    && t.calls == Count(es, false) && t.estimatedCalls == Count(es, true)
  }

  predicate StartsAt(c: Call, reset: int) {
    !c.Clear? ==> IsReset(c.start, reset)
  }

  /** Time does not go back: no call works on a cycle before that of an earlier call. */
  predicate InOrder(cs: seq<Call>, reset: int) {
    && (forall i :: 0 <= i < |cs| ==> StartsAt(cs[i], reset))
    && (forall i, j :: 0 <= i < j < |cs| && !cs[i].Clear? && !cs[j].Clear? ==> NotAfter(cs[i].start, cs[j].start))
  }

  lemma {:induction false} CapIsLast(es: seq<Entry>, e: Entry)
    ensures LastEntries(LastEntries(es) + [e]) == LastEntries(es + [e])
  {
  }

  lemma {:induction false} SumNext(es: seq<Entry>, e: Entry, estimated: bool)
    ensures Sum(es + [e], estimated) == Sum(es, estimated) + if e.estimated == estimated then Amount(e) else 0
    ensures Count(es + [e], estimated) == Count(es, estimated) + if e.estimated == estimated then 1 else 0
  {
    assert (es + [e])[..|es|] == es;
  }

  lemma {:induction false} CountedConserves(t: Totals, es: seq<Entry>, e: Entry)
    requires Conserves(t, es)
    ensures Conserves(Counted(t, e), es + [e])
  {
    CapIsLast(es, e);
    SumNext(es, e, true);
    SumNext(es, e, false);
  }

  predicate Works(cs: seq<Call>, start: Date) {
    exists i :: 0 <= i < |cs| && cs[i].Rec? && cs[i].start == start
  }

  /** The cycle of the last call recorded. */
  function LastRecorded(cs: seq<Call>): Option<Date> {
    if cs == [] then None
    else if cs[|cs| - 1].Rec? then Some(cs[|cs| - 1].start)
    else LastRecorded(cs[..|cs| - 1])
  }

  /** A cycle is retained just when it was recorded and is the last one recorded or the one before it. */
  ghost predicate Retains(b: Book, cs: seq<Call>, reset: int) {
    forall c :: c in b.cycles <==>
      Works(cs, c) && (Some(c) == LastRecorded(cs) ||
                       (LastRecorded(cs).Some? && c == Previous(LastRecorded(cs).value, reset)))
  }

  /** A retained cycle's totals are those of all that was ever recorded for it. */
  predicate Exact(b: Book, cs: seq<Call>) {
    forall c :: c in b.cycles ==> Conserves(b.cycles[c], Ideal(cs, c))
  }

  lemma {:induction false} NothingRecorded(cs: seq<Call>, start: Date)
    requires !Works(cs, start)
    ensures Ideal(cs, start) == []
  {
    if cs != [] {
      var init, last := cs[..|cs| - 1], cs[|cs| - 1];
      assert init + [last] == cs;
      WorksNext(init, last, start);
      NothingRecorded(init, start);
    }
  }

  lemma {:induction false} LastIsRecorded(cs: seq<Call>, reset: int)
    requires InOrder(cs, reset)
    ensures LastRecorded(cs).Some? ==> Works(cs, LastRecorded(cs).value) && IsReset(LastRecorded(cs).value, reset)
    ensures forall c :: Works(cs, c) ==> LastRecorded(cs).Some? && NotAfter(c, LastRecorded(cs).value)
  {
    if cs != [] {
      var init, k := cs[..|cs| - 1], |cs| - 1;
      LastIsRecorded(init, reset);
      forall c
        ensures Works(cs, c) <==> Works(init, c) || (cs[k].Rec? && cs[k].start == c)
      {
        WorksNext(init, cs[k], c);
        assert init + [cs[k]] == cs;
      }
      if LastRecorded(init).Some? && cs[k].Rec? {
        var i :| 0 <= i < |init| && init[i].Rec? && init[i].start == LastRecorded(init).value;
        assert NotAfter(cs[i].start, cs[k].start);
      }
    }
  }

  lemma {:induction false} WorksNext(cs: seq<Call>, last: Call, c: Date)
    ensures Works(cs + [last], c) <==> Works(cs, c) || (last.Rec? && last.start == c)
  {
    var all := cs + [last];
    if Works(cs, c) {
      var i :| 0 <= i < |cs| && cs[i].Rec? && cs[i].start == c;
      assert all[i].start == c;
    }
    if last.Rec? && last.start == c {
      assert all[|cs|] == last;
    }
  }

  lemma {:induction false} RecordKeepsRetained(
      b: Book, cs: seq<Call>, reset: int, stop: Option<nat>, start: Date, e: Entry)
    requires InOrder(cs + [Rec(start, e)], reset) && Retains(b, cs, reset)
    ensures Retains(Recorded(b, start, Previous(start, reset), stop, e).0, cs + [Rec(start, e)], reset)
  {
    var all := cs + [Rec(start, e)];
    assert LastRecorded(all) == Some(start);
    InOrderBefore(cs, Rec(start, e), reset);
    RecordRetains(b, cs, reset, start);
    var b' := Recorded(b, start, Previous(start, reset), stop, e).0;
    forall c
      ensures c in b'.cycles <==> Works(all, c) && (c == start || c == Previous(start, reset))
    {
      WorksNext(cs, Rec(start, e), c);
    }
  }

  lemma {:induction false} IdealNext(cs: seq<Call>, start: Date, e: Entry, c: Date)
    ensures Ideal(cs + [Rec(start, e)], c) == if c == start then Ideal(cs, c) + [e] else Ideal(cs, c)
  {
    assert (cs + [Rec(start, e)])[..|cs|] == cs;
  }

  lemma {:induction false} ChargedExactly(b: Book, cs: seq<Call>, start: Date, e: Entry)
    requires Exact(b, cs) && (Works(cs, start) ==> start in b.cycles)
    ensures Conserves(Counted(TotalsOf(b, start), e), Ideal(cs, start) + [e])
  {
    if start !in b.cycles {
      NothingRecorded(cs, start);
    }
    CountedConserves(TotalsOf(b, start), Ideal(cs, start), e);
  }

  lemma {:induction false} RecordKeepsExact(
      b: Book, cs: seq<Call>, reset: int, stop: Option<nat>, start: Date, e: Entry)
    requires InOrder(cs + [Rec(start, e)], reset) && Retains(b, cs, reset) && Exact(b, cs)
    ensures Exact(Recorded(b, start, Previous(start, reset), stop, e).0, cs + [Rec(start, e)])
  {
    InOrderBefore(cs, Rec(start, e), reset);
    RecordRetains(b, cs, reset, start);
    ChargedExactly(b, cs, start, e);
    var t := Counted(TotalsOf(b, start), e);
    var b' := Recorded(b, start, Previous(start, reset), stop, e).0;
    forall c | c in b'.cycles
      ensures Conserves(b'.cycles[c], Ideal(cs + [Rec(start, e)], c))
    {
      IdealNext(cs, start, e, c);
      assert b'.cycles[c] == if c == start then t else b.cycles[c];
    }
  }

  lemma {:induction false} OtherKeepsAll(b: Book, cs: seq<Call>, reset: int, c: Call)
    requires !c.Rec? && Retains(b, cs, reset) && Exact(b, cs)
    ensures Retains(b, cs + [c], reset) && Exact(b, cs + [c])
  {
    var all := cs + [c];
    assert all[..|cs|] == cs;
    forall d
      ensures Works(all, d) <==> Works(cs, d)
      ensures Ideal(all, d) == Ideal(cs, d)
    {
      WorksNext(cs, c, d);
    }
  }

  lemma {:induction false} SameCycles(b: Book, b': Book, cs: seq<Call>, reset: int)
    requires b.cycles == b'.cycles && Retains(b, cs, reset) && Exact(b, cs)
    ensures Retains(b', cs, reset) && Exact(b', cs)
  {
  }

  lemma {:induction false} InOrderBefore(cs: seq<Call>, last: Call, reset: int)
    requires InOrder(cs + [last], reset)
    ensures InOrder(cs, reset) && StartsAt(last, reset)
    ensures !last.Clear? ==> forall i :: 0 <= i < |cs| && !cs[i].Clear? ==> NotAfter(cs[i].start, last.start)
  {
    var all := cs + [last];
    assert forall i :: 0 <= i < |cs| ==> all[i] == cs[i];
    assert all[|cs|] == last;
  }

  /** What had been retained and matters to the new cycle is just what was recorded of it and of the one before. */
  lemma {:induction false} RecordRetains(b: Book, cs: seq<Call>, reset: int, start: Date)
    requires InOrder(cs, reset) && Retains(b, cs, reset) && IsReset(start, reset)
    requires forall i :: 0 <= i < |cs| && !cs[i].Clear? ==> NotAfter(cs[i].start, start)
    ensures forall c :: c == start || c == Previous(start, reset) ==> (c in b.cycles <==> Works(cs, c))
  {
    LastIsRecorded(cs, reset);
    if LastRecorded(cs).Some? {
      var last := LastRecorded(cs).value;
      var i :| 0 <= i < |cs| && cs[i].Rec? && cs[i].start == last;
      assert NotAfter(last, start);
      PreviousIsAdjacent(start, last, reset);
    }
  }

  /**
   With time going forward: a cycle still in the ledger has totals equal to the sum
   over every call ever recorded in it, capped entries and all; and the ledger
   keeps exactly the current cycle and the one before.
   */
  lemma {:induction false} LedgerConserves(reset: int, stop: Option<nat>, cs: seq<Call>)
    requires InOrder(cs, reset)
    ensures Retains(After(reset, stop, cs), cs, reset)
    ensures Exact(After(reset, stop, cs), cs)
  {
    if cs != [] {
      var init, last := cs[..|cs| - 1], cs[|cs| - 1];
      assert init + [last] == cs;
      InOrderBefore(init, last, reset);
      LedgerConserves(reset, stop, init);
      var b := After(reset, stop, init);
      match last
      case Rec(start, e) =>
        RecordKeepsRetained(b, init, reset, stop, start, e);
        RecordKeepsExact(b, init, reset, stop, start, e);
      case HaltAt(start) =>
        OtherKeepsAll(b, init, reset, last);
        SameCycles(b, Halted(b, start).0, cs, reset);
      case Clear =>
        OtherKeepsAll(b, init, reset, last);
        SameCycles(b, Cleared(b), cs, reset);
    }
  }

  // ----- a ledger that cannot be read -----------------------------------------------------------

  /** A call, or the note of a failure; and whether the ledger could be read. */
  datatype Step = Made(call: Call, read: bool) | Noted(read: bool)

  function Takes(b: Book, reset: int, stop: Option<nat>, s: Step): Book {
    match s
    case Noted(read) => Loaded(b, read)
    case Made(Clear, read) => if read then Cleared(b) else b
    case Made(call, read) => Does(Loaded(b, read), reset, stop, call).0
  }

  function AfterSteps(reset: int, stop: Option<nat>, ss: seq<Step>): Book {
    if ss == [] then NOTHING else Takes(AfterSteps(reset, stop, ss[..|ss| - 1]), reset, stop, ss[|ss| - 1])
  }

  /** All calls made, read or unread. */
  function CallsOf(ss: seq<Step>): seq<Call> {
    if ss == [] then []
    else CallsOf(ss[..|ss| - 1]) + if ss[|ss| - 1].Made? then [ss[|ss| - 1].call] else []
  }

  /** What is left to go by of the calls `before`, after the step. */
  function Since(before: seq<Call>, s: Step): seq<Call> {
    match s
    case Noted(read) => if read then before else []
    case Made(Clear, read) => if read then before + [Clear] else before
    case Made(call, read) => if read then before + [call] else [call]
  }

  /** The calls since the ledger was last saved unread. */
  function CallsSince(ss: seq<Step>): seq<Call> {
    if ss == [] then [] else Since(CallsSince(ss[..|ss| - 1]), ss[|ss| - 1])
  }

  lemma {:induction false} TakesRead(reset: int, stop: Option<nat>, cs: seq<Call>, c: Call)
    ensures Takes(After(reset, stop, cs), reset, stop, Made(c, true)) == After(reset, stop, cs + [c])
  {
    AfterNext(reset, stop, cs, c);
    if c.Clear? {
      assert Does(After(reset, stop, cs), reset, stop, c).0 == Cleared(After(reset, stop, cs));
    }
  }

  lemma {:induction false} TakesUnread(reset: int, stop: Option<nat>, b: Book, c: Call)
    requires !c.Clear?
    ensures Takes(b, reset, stop, Made(c, false)) == After(reset, stop, [c])
  {
    AfterNext(reset, stop, [], c);
    assert [] + [c] == [c] && After(reset, stop, []) == NOTHING;
  }

  lemma {:induction false} TakesSince(reset: int, stop: Option<nat>, cs: seq<Call>, s: Step)
    ensures Takes(After(reset, stop, cs), reset, stop, s) == After(reset, stop, Since(cs, s))
  {
    if s.Made? && s.read {
      TakesRead(reset, stop, cs, s.call);
    } else if s.Made? && !s.call.Clear? {
      TakesUnread(reset, stop, After(reset, stop, cs), s.call);
    }
  }

  /** Such a save forgets what was there: the ledger is that of the calls since. */
  lemma {:induction false} UnreadForgets(reset: int, stop: Option<nat>, ss: seq<Step>)
    ensures AfterSteps(reset, stop, ss) == After(reset, stop, CallsSince(ss))
  {
    if ss != [] {
      UnreadForgets(reset, stop, ss[..|ss| - 1]);
      TakesSince(reset, stop, CallsSince(ss[..|ss| - 1]), ss[|ss| - 1]);
    }
  }

  lemma {:induction false} AfterNext(reset: int, stop: Option<nat>, cs: seq<Call>, c: Call)
    ensures After(reset, stop, cs + [c]) == Does(After(reset, stop, cs), reset, stop, c).0
  {
    assert (cs + [c])[..|cs|] == cs;
  }

  lemma {:induction false} SinceInOrder(ss: seq<Step>, reset: int)
    requires InOrder(CallsOf(ss), reset)
    ensures InOrder(CallsSince(ss), reset)
    ensures forall c :: c in CallsSince(ss) ==> c in CallsOf(ss)
  {
    if ss != [] {
      var init, last := ss[..|ss| - 1], ss[|ss| - 1];
      if last.Made? {
        InOrderBefore(CallsOf(init), last.call, reset);
      } else {
        assert CallsOf(ss) == CallsOf(init);
      }
      SinceInOrder(init, reset);
      var since := CallsSince(init);
      forall i | last.Made? && !last.call.Clear? && 0 <= i < |since| && !since[i].Clear?
        ensures NotAfter(since[i].start, last.call.start)
      {
        assert since[i] in CallsOf(init);
      }
    }
  }

  /**
   With time going forward, and whether or not the ledger can be read each time: a cycle
   in it has the totals of every call recorded in it since the last save of an unread one.
   */
  lemma {:induction false} ConservesSince(reset: int, stop: Option<nat>, ss: seq<Step>)
    requires InOrder(CallsOf(ss), reset)
    ensures Retains(AfterSteps(reset, stop, ss), CallsSince(ss), reset)
    ensures Exact(AfterSteps(reset, stop, ss), CallsSince(ss))
  {
    SinceInOrder(ss, reset);
    UnreadForgets(reset, stop, ss);
    LedgerConserves(reset, stop, CallsSince(ss));
  }

  predicate AllRead(ss: seq<Step>) {
    forall i :: 0 <= i < |ss| ==> ss[i].read
  }

  lemma {:induction false} ReadSinceStart(ss: seq<Step>)
    requires AllRead(ss)
    ensures CallsSince(ss) == CallsOf(ss)
  {
    if ss != [] {
      ReadSinceStart(ss[..|ss| - 1]);
    }
  }

  /** `unreads`: may a call be made on a ledger it cannot read? */
  ghost predicate AlwaysConserves(reset: int, stop: Option<nat>, unreads: bool) {
    forall ss :: InOrder(CallsOf(ss), reset) && (AllRead(ss) || unreads) ==> Conserved(reset, stop, ss)
  }

  ghost predicate Conserved(reset: int, stop: Option<nat>, ss: seq<Step>) {
    Retains(AfterSteps(reset, stop, ss), CallsOf(ss), reset) && Exact(AfterSteps(reset, stop, ss), CallsOf(ss))
  }

  lemma {:induction false} UnreadNote(reset: int, stop: Option<nat>, ss: seq<Step>)
    ensures AfterSteps(reset, stop, ss + [Noted(false)]) == NOTHING
    ensures CallsOf(ss + [Noted(false)]) == CallsOf(ss)
  {
    assert (ss + [Noted(false)])[..|ss|] == ss;
  }

  lemma {:induction false} OneStep(call: Call, reset: int)
    requires StartsAt(call, reset)
    ensures CallsOf([Made(call, true)]) == [call] && InOrder([call], reset)
  {
    var ss := [Made(call, true)];
    assert ss[..|ss| - 1] == [];
    assert CallsOf(ss) == [] + [call];
  }

  /** A call, and then a failure noted by a server that cannot read the ledger: nothing is left of the call. */
  lemma {:induction false} UnreadNoteLoses(reset: int, stop: Option<nat>, start: Date)
    requires IsReset(start, reset)
    ensures !AlwaysConserves(reset, stop, true)
  {
    var rec := Rec(start, Entry(None, false));
    var ss := [Made(rec, true)] + [Noted(false)];
    OneStep(rec, reset);
    UnreadNote(reset, stop, [Made(rec, true)]);
    NothingIsNotAll(rec, reset);
    assert InOrder(CallsOf(ss), reset) && !Conserved(reset, stop, ss);
  }

  lemma {:induction false} NothingIsNotAll(rec: Call, reset: int)
    requires rec.Rec?
    ensures !Retains(NOTHING, [rec], reset)
  {
    assert [rec][0] == rec && Works([rec], rec.start);
    assert rec.start !in NOTHING.cycles;
  }

  /**
   In every history with time going forward the ledger keeps the current cycle and the one
   before, with the totals of all calls, exactly if every call can read the ledger.
   */
  lemma {:induction false} ConservesIffRead(reset: int, stop: Option<nat>, start: Date, unreads: bool)
    requires IsReset(start, reset)
    ensures AlwaysConserves(reset, stop, unreads) <==> !unreads
  {
    if unreads {
      UnreadNoteLoses(reset, stop, start);
    } else {
      forall ss | InOrder(CallsOf(ss), reset) && AllRead(ss)
        ensures Conserved(reset, stop, ss)
      {
        ConservesSince(reset, stop, ss);
        ReadSinceStart(ss);
      }
    }
  }

  // ----- notices ----------------------------------------------------------------------------

  /** The cycles a notice was sent for, in order. */
  function Notices(reset: int, stop: Option<nat>, cs: seq<Call>): seq<Date> {
    if cs == [] then []
    else
      var last := cs[|cs| - 1];
      var sent := Does(After(reset, stop, cs[..|cs| - 1]), reset, stop, last).1;
      Notices(reset, stop, cs[..|cs| - 1]) + if sent && !last.Clear? then [last.start] else []
  }

  predicate Calls(cs: seq<Call>, d: Date) {
    exists i :: 0 <= i < |cs| && !cs[i].Clear? && cs[i].start == d
  }

  predicate Climbs(n: seq<Date>) {
    forall i, j :: 0 <= i < j < |n| ==> Before(n[i], n[j])
  }

  lemma {:induction false} CallsNext(cs: seq<Call>, last: Call, d: Date)
    requires Calls(cs, d)
    ensures Calls(cs + [last], d)
  {
    var i :| 0 <= i < |cs| && !cs[i].Clear? && cs[i].start == d;
    assert (cs + [last])[i] == cs[i];
  }

  lemma {:induction false} ClimbsNext(n: seq<Date>, d: Date)
    requires Climbs(n) && (n == [] || Before(n[|n| - 1], d))
    ensures Climbs(n + [d])
  {
  }

  lemma {:induction false} NoticeClaims(b: Book, reset: int, stop: Option<nat>, c: Call)
    ensures
      var (b', sent) := Does(b, reset, stop, c);
      && (sent ==> !c.Clear? && b.notified != Some(c.start) && b'.notified == Some(c.start))
      && (!sent ==> b'.notified == b.notified)
  {
  }

  predicate Claimed(n: seq<Date>, notified: Option<Date>, cs: seq<Call>) {
    && notified == (if n == [] then None else Some(n[|n| - 1]))
    && (n == [] || Calls(cs, n[|n| - 1]))
    && Climbs(n)
  }

  lemma {:induction false} ClaimedNext(n: seq<Date>, notified: Option<Date>, cs: seq<Call>, last: Call, reset: int)
    requires Claimed(n, notified, cs) && InOrder(cs + [last], reset)
    ensures Claimed(n, notified, cs + [last])
    ensures !last.Clear? && notified != Some(last.start) ==>
      Claimed(n + [last.start], Some(last.start), cs + [last])
  {
    InOrderBefore(cs, last, reset);
    if n != [] {
      CallsNext(cs, last, n[|n| - 1]);
    }
    if !last.Clear? && notified != Some(last.start) {
      ClimbsNext(n, last.start);
      assert (cs + [last])[|cs|] == last;
    }
  }

  lemma {:induction false} NoticesClimb(reset: int, stop: Option<nat>, cs: seq<Call>)
    requires InOrder(cs, reset)
    ensures Claimed(Notices(reset, stop, cs), After(reset, stop, cs).notified, cs)
  {
    if cs != [] {
      var init, last := cs[..|cs| - 1], cs[|cs| - 1];
      assert init + [last] == cs;
      InOrderBefore(init, last, reset);
      NoticesClimb(reset, stop, init);
      NoticeClaims(After(reset, stop, init), reset, stop, last);
      ClaimedNext(Notices(reset, stop, init), After(reset, stop, init).notified, init, last, reset);
    }
  }

  /** At most one notice per cycle, whether the stop point or a halt caused it, on a ledger that is read each time. */
  lemma {:induction false} OneNoticePerCycle(reset: int, stop: Option<nat>, cs: seq<Call>, i: nat, j: nat)
    requires InOrder(cs, reset) && i < j < |Notices(reset, stop, cs)|
    ensures Notices(reset, stop, cs)[i] != Notices(reset, stop, cs)[j]
  {
    NoticesClimb(reset, stop, cs);
  }

  /** At its `i`-th call the stop point of cycle `d` is reached by what is recorded of it, or the cycle is halted. */
  predicate DueAt(cs: seq<Call>, stop: Option<nat>, d: Date, i: nat)
    requires i < |cs|
  {
    || cs[i] == HaltAt(d)
    || (cs[i].Rec? && cs[i].start == d && !cs[i].entry.estimated
        && stop.Some? && Sum(Ideal(cs[..i + 1], d), false) >= stop.value)
  }

  predicate Due(cs: seq<Call>, stop: Option<nat>, d: Date) {
    exists i :: 0 <= i < |cs| && DueAt(cs, stop, d, i)
  }

  lemma {:induction false} DueNext(cs: seq<Call>, last: Call, stop: Option<nat>, d: Date)
    ensures Due(cs + [last], stop, d) <==> Due(cs, stop, d) || DueAt(cs + [last], stop, d, |cs|)
  {
    var all := cs + [last];
    forall i | 0 <= i < |cs|
      ensures DueAt(all, stop, d, i) <==> DueAt(cs, stop, d, i)
    {
      assert all[..i + 1] == cs[..i + 1];
    }
  }

  lemma {:induction false} NotifiesWhenReached(b: Book, start: Date, previous: Date, stop: Option<nat>, e: Entry)
    ensures Recorded(b, start, previous, stop, e).1
      <==> !e.estimated && stop.Some? && Counted(TotalsOf(b, start), e).spent >= stop.value && b.notified != Some(start)
  {
  }

  /** After a call is recorded the cycle's amount is the sum over all of its calls. */
  lemma {:induction false} SpentWithLast(reset: int, stop: Option<nat>, cs: seq<Call>, start: Date, e: Entry)
    requires InOrder(cs + [Rec(start, e)], reset)
    ensures Counted(TotalsOf(After(reset, stop, cs), start), e).spent == Sum(Ideal(cs + [Rec(start, e)], start), false)
  {
    InOrderBefore(cs, Rec(start, e), reset);
    LedgerConserves(reset, stop, cs);
    var b := After(reset, stop, cs);
    RecordRetains(b, cs, reset, start);
    ChargedExactly(b, cs, start, e);
    IdealNext(cs, start, e, start);
  }

  lemma {:induction false} DueAtLast(cs: seq<Call>, stop: Option<nat>, start: Date, e: Entry)
    requires cs != [] && cs[|cs| - 1] == Rec(start, e)
    ensures DueAt(cs, stop, start, |cs| - 1) <==>
      !e.estimated && stop.Some? && Sum(Ideal(cs, start), false) >= stop.value
  {
    assert cs[..|cs| - 1 + 1] == cs;
  }

  lemma {:induction false} NoticesNext(reset: int, stop: Option<nat>, cs: seq<Call>, last: Call)
    requires InOrder(cs + [last], reset)
    ensures
      var n, all := Notices(reset, stop, cs), cs + [last];
      Notices(reset, stop, all) ==
      if !last.Clear? && DueAt(all, stop, last.start, |cs|) && After(reset, stop, cs).notified != Some(last.start)
      then n + [last.start] else n
  {
    assert (cs + [last])[..|cs|] == cs;
    if last.Rec? {
      SpentWithLast(reset, stop, cs, last.start, last.entry);
      NotifiesWhenReached(After(reset, stop, cs), last.start, Previous(last.start, reset), stop, last.entry);
      DueAtLast(cs + [last], stop, last.start, last.entry);
    }
  }

  /**
   With a ledger that is read each time, a cycle gets its notice exactly if it was halted, or
   the sum of what was recorded of it had reached the stop point when some call that is
   not an estimate was recorded in it.
   */
  lemma {:induction false} NoticeExactly(reset: int, stop: Option<nat>, cs: seq<Call>, d: Date)
    requires InOrder(cs, reset)
    ensures d in Notices(reset, stop, cs) <==> Due(cs, stop, d)
  {
    if cs != [] {
      var init, last := cs[..|cs| - 1], cs[|cs| - 1];
      assert init + [last] == cs;
      InOrderBefore(init, last, reset);
      NoticeExactly(reset, stop, init, d);
      NoticesClimb(reset, stop, init);
      NoticesNext(reset, stop, init, last);
      DueNext(init, last, stop, d);
    }
  }

  // ----- halts -------------------------------------------------------------------------------

  /** Cycle `d` was halted, and since then neither was the halt cleared nor another cycle halted. */
  predicate HaltStands(cs: seq<Call>, d: Date) {
    exists i :: 0 <= i < |cs| && cs[i] == HaltAt(d) && Untouched(cs, i + 1, d)
  }

  predicate Untouched(cs: seq<Call>, from: nat, d: Date) {
    forall j :: from <= j < |cs| ==> !cs[j].Clear? && (cs[j].HaltAt? ==> cs[j].start == d)
  }

  lemma {:induction false} HaltStandsNext(cs: seq<Call>, last: Call, d: Date)
    ensures HaltStands(cs + [last], d) <==>
      last == HaltAt(d) || (HaltStands(cs, d) && !last.Clear? && !last.HaltAt?)
  {
    var all := cs + [last];
    assert forall i :: 0 <= i < |cs| ==> all[i] == cs[i];
    if last == HaltAt(d) {
      assert all[|cs|] == HaltAt(d) && Untouched(all, |cs| + 1, d);
    } else if HaltStands(cs, d) && !last.Clear? && !last.HaltAt? {
      var i :| 0 <= i < |cs| && cs[i] == HaltAt(d) && Untouched(cs, i + 1, d);
      assert all[i] == HaltAt(d) && Untouched(all, i + 1, d);
    }
    if HaltStands(all, d) && last != HaltAt(d) {
      var i :| 0 <= i < |all| && all[i] == HaltAt(d) && Untouched(all, i + 1, d);
      assert i < |cs| && cs[i] == HaltAt(d);
      forall j | i + 1 <= j < |cs|
        ensures !cs[j].Clear? && (cs[j].HaltAt? ==> cs[j].start == d)
      {
        assert all[j] == cs[j];
      }
      assert all[|cs|] == last;
    }
  }

  /** The ledger names the cycle whose halt stands, and no other. */
  lemma {:induction false} HaltedExactly(reset: int, stop: Option<nat>, cs: seq<Call>, d: Date)
    ensures After(reset, stop, cs).halted == Some(d) <==> HaltStands(cs, d)
  {
    if cs != [] {
      var init, last := cs[..|cs| - 1], cs[|cs| - 1];
      assert init + [last] == cs;
      HaltedExactly(reset, stop, init, d);
      HaltStandsNext(init, last, d);
    }
  }

  /** What is spent in a cycle that is not before any recorded one is the sum of all that was recorded of it. */
  lemma {:induction false} SpentExactly(reset: int, stop: Option<nat>, cs: seq<Call>, d: Date)
    requires InOrder(cs, reset) && IsReset(d, reset)
    requires forall i :: 0 <= i < |cs| && !cs[i].Clear? ==> NotAfter(cs[i].start, d)
    ensures TotalsOf(After(reset, stop, cs), d).spent == Sum(Ideal(cs, d), false)
  {
    LedgerConserves(reset, stop, cs);
    RecordRetains(After(reset, stop, cs), cs, reset, d);
    if !Works(cs, d) {
      NothingRecorded(cs, d);
    }
  }

  // ----- a late record ------------------------------------------------------------------------

  /**
   `start` is computed before the lock is taken, so a call of an ended cycle may be
   recorded after one of the next. It keeps every cycle from its own previous one on
   exactly if the ledger holds no later cycle; one that it holds is dropped with all
   that was spent in it.
   */
  lemma {:induction false} LateRecordDropsLaterCycles(b: Book, start: Date, reset: int, stop: Option<nat>, e: Entry)
    requires IsReset(start, reset) && forall c :: c in b.cycles ==> IsReset(c, reset)
    ensures
      var b' := Recorded(b, start, Previous(start, reset), stop, e).0;
      && (forall c :: c in b.cycles && Before(start, c) ==> c !in b'.cycles)
      && ((forall c :: c in b.cycles && NotAfter(Previous(start, reset), c) ==> c in b'.cycles)
          <==> (forall c :: c in b.cycles ==> NotAfter(c, start)))
  {
    var b' := Recorded(b, start, Previous(start, reset), stop, e).0;
    forall c | c in b.cycles
      ensures c in b'.cycles <==> c == start || c == Previous(start, reset)
      ensures c in b'.cycles ==> NotAfter(c, start)
      ensures NotAfter(Previous(start, reset), c) && c !in b'.cycles ==> Before(start, c)
      ensures Before(start, c) ==> NotAfter(Previous(start, reset), c)
    {
      PreviousIsAdjacent(start, c, reset);
    }
  }
}
