/**
 Requests for page reads and the single-use passes that answer them
 (mc/browser_agent_read_requests.py): the rate of requests, the bounds of the
 stores, and that a request is settled and a pass spent at most once.

 Times are seconds; ids are fresh. `now` is read before the lock is taken, so
 the order of the calls and the order of their times can differ.
 */
module Requests {
  import opened Wrappers

  const ONCE_TTL_S := 900
  const CARD_RATE_S := 600
  const MAX_PENDING_PER_SESSION := 5
  const MAX_RECORDS := 200
  const MAX_PASSES := 50

  /** Who asks, through which profile, for which site. */
  datatype Key = Key(session: string, profile: string, domain: string)

  datatype Request = Request(id: nat, key: Key, pending: bool)

  datatype Ticket = Ticket(id: nat, key: Key, expires: int)

  datatype Answer = Opened | RateLimited | TooMany

  function Pending(rs: seq<Request>, session: string): nat {
    if rs == [] then 0
    else Pending(rs[..|rs| - 1], session) +
         if rs[|rs| - 1].pending && rs[|rs| - 1].key.session == session then 1 else 0
  }

  function Newest<T>(s: seq<T>, n: nat): seq<T> {
    if |s| > n then s[|s| - n..] else s
  }

  predicate Limited(cards: map<Key, int>, key: Key, now: int) {
    key in cards && now - cards[key] < CARD_RATE_S
  }

  function Stamped(cards: map<Key, int>, key: Key, now: int): map<Key, int> {
    var all := cards[key := now];
    map k | k in all && now - all[k] < CARD_RATE_S :: all[k]
  }

  function AnswerTo(rs: seq<Request>, cards: map<Key, int>, key: Key, now: int): Answer {
    if Limited(cards, key, now) then RateLimited
    else if Pending(rs, key.session) >= MAX_PENDING_PER_SESSION then TooMany
    else Opened
  }

  /** The oldest record goes when the store is full. */
  function Added(rs: seq<Request>, id: nat, key: Key): seq<Request> {
    Newest(rs + [Request(id, key, true)], MAX_RECORDS)
  }

  function Settled(rs: seq<Request>, id: nat): seq<Request> {
    if rs == [] then []
    else
      var r := rs[|rs| - 1];
      Settled(rs[..|rs| - 1], id) + [if r.id == id then r.(pending := false) else r]
  }

  predicate IsPending(rs: seq<Request>, id: nat) {
    exists i :: 0 <= i < |rs| && rs[i].id == id && rs[i].pending
  }

  function Live(ps: seq<Ticket>, now: int): seq<Ticket> {
    if ps == [] then []
    else Live(ps[..|ps| - 1], now) + if ps[|ps| - 1].expires <= now then [] else [ps[|ps| - 1]]
  }

  function GrantTo(ps: seq<Ticket>, id: nat, key: Key, now: int): seq<Ticket> {
    Newest(Live(ps, now), MAX_PASSES - 1) + [Ticket(id, key, now + ONCE_TTL_S)]
  }

  function Without(ps: seq<Ticket>, id: nat): seq<Ticket> {
    if ps == [] then []
    else Without(ps[..|ps| - 1], id) + if ps[|ps| - 1].id == id then [] else [ps[|ps| - 1]]
  }

  predicate Holds(ps: seq<Ticket>, id: nat) {
    exists i :: 0 <= i < |ps| && ps[i].id == id
  }

  class Board {
    var requests: seq<Request>
    var cards: map<Key, int>
    var passes: seq<Ticket>

    constructor ()
      ensures requests == [] && cards == map[] && passes == []
    {
      requests, cards, passes := [], map[], [];
    }

    method CountPending(session: string) returns (n: nat)
      ensures n == Pending(requests, session)
    {
      n := 0;
      var i := 0;
      while i < |requests|
        invariant 0 <= i <= |requests| && n == Pending(requests[..i], session)
      {
        assert requests[..i + 1][..i] == requests[..i];
        if requests[i].pending && requests[i].key.session == session {
          n := n + 1;
        }
        i := i + 1;
      }
      assert requests[..|requests|] == requests;
    }

    method OpenRequest(id: nat, key: Key, now: int) returns (a: Answer)
      modifies this`requests, this`cards
      ensures a == AnswerTo(old(requests), old(cards), key, now)
      ensures requests == if a == Opened then Added(old(requests), id, key) else old(requests)
      ensures cards == if a == Opened then Stamped(old(cards), key, now) else old(cards)
    {
      if key in cards && now - cards[key] < CARD_RATE_S {
        return RateLimited;
      }
      var here := CountPending(key.session);
      if here >= MAX_PENDING_PER_SESSION {
        return TooMany;
      }
      Add(id, key);
      Stamp(key, now);
      return Opened;
    }

    method Add(id: nat, key: Key)
      modifies this`requests
      ensures requests == Added(old(requests), id, key)
    {
      requests := requests + [Request(id, key, true)];
      ghost var all := requests;
      while |requests| > MAX_RECORDS
        invariant |requests| <= |all| && requests == all[|all| - |requests|..]
        invariant |all| >= MAX_RECORDS ==> |requests| >= MAX_RECORDS
        invariant |all| <= MAX_RECORDS ==> requests == all
        decreases |requests|
      {
        requests := requests[1..];
      }
    }

    method Stamp(key: Key, now: int)
      modifies this`cards
      ensures cards == Stamped(old(cards), key, now)
    {
      ghost var was := cards;
      cards := cards[key := now];
      var todo := cards.Keys;
      ghost var all := cards;
      while todo != {}
        invariant todo <= all.Keys && cards.Keys <= all.Keys
        invariant forall k :: k in all && (k in todo || now - all[k] < CARD_RATE_S) ==> k in cards
        invariant forall k :: k in cards ==> cards[k] == all[k] && (k in todo || now - all[k] < CARD_RATE_S)
        decreases |todo|
      {
        var k :| k in todo;
        todo := todo - {k};
        if now - cards[k] >= CARD_RATE_S {
          cards := cards - {k};
        }
      }
      assert cards == Stamped(was, key, now);
    }

    method Settle(id: nat) returns (ok: bool)
      modifies this`requests
      ensures ok == IsPending(old(requests), id)
      ensures requests == if ok then Settled(old(requests), id) else old(requests)
    {
      ok := false;
      var i := 0;
      var out: seq<Request> := [];
      while i < |requests|
        invariant 0 <= i <= |requests| && requests == old(requests)
        invariant out == Settled(requests[..i], id)
        invariant ok == exists k :: 0 <= k < i && requests[k].id == id && requests[k].pending
      {
        assert requests[..i + 1][..i] == requests[..i];
        var r := requests[i];
        if r.id == id {
          ok := ok || r.pending;
          r := r.(pending := false);
        }
        out := out + [r];
        i := i + 1;
      }
      assert requests[..|requests|] == requests;
      if ok {
        requests := out;
      }
    }

    method GrantOnce(id: nat, key: Key, now: int)
      modifies this`passes
      ensures passes == GrantTo(old(passes), id, key, now)
    {
      var kept: seq<Ticket> := [];
      var i := 0;
      while i < |passes|
        invariant 0 <= i <= |passes| && kept == Live(passes[..i], now) && passes == old(passes)
      {
        assert passes[..i + 1][..i] == passes[..i];
        if passes[i].expires > now {
          kept := kept + [passes[i]];
        }
        i := i + 1;
      }
      assert passes[..|passes|] == passes;
      ghost var all := kept;
      while |kept| >= MAX_PASSES
        invariant |kept| <= |all| && kept == all[|all| - |kept|..]
        invariant |all| >= MAX_PASSES - 1 ==> |kept| >= MAX_PASSES - 1
        invariant |all| < MAX_PASSES ==> kept == all
        decreases |kept|
      {
        kept := kept[1..];
      }
      passes := kept + [Ticket(id, key, now + ONCE_TTL_S)];
    }

    method ConsumeOnce(id: nat) returns (ok: bool)
      modifies this`passes
      ensures ok == Holds(old(passes), id)
      ensures passes == Without(old(passes), id)
    {
      var kept: seq<Ticket> := [];
      ok := false;
      var i := 0;
      while i < |passes|
        invariant 0 <= i <= |passes| && passes == old(passes)
        invariant kept == Without(passes[..i], id) && ok == exists k :: 0 <= k < i && passes[k].id == id
      {
        assert passes[..i + 1][..i] == passes[..i];
        if passes[i].id == id {
          ok := true;
        } else {
          kept := kept + [passes[i]];
        }
        i := i + 1;
      }
      assert passes[..|passes|] == passes;
      passes := kept;
    }
  }

  // ----- runs --------------------------------------------------------------------------------

  datatype Call = Ask(key: Key, now: int) | Answered(id: nat) | Allow(key: Key, now: int) | Read(id: nat)

  datatype Stamp = Stamp(key: Key, now: int)

  /** `asked`, `settled`, `spent`: the requests opened and settled, and the passes spent; `unused` ids are fresh. */
  datatype World = World(
    requests: seq<Request>,
    cards: map<Key, int>,
    passes: seq<Ticket>,
    unused: nat,
    asked: seq<Stamp>,
    settled: seq<nat>,
    spent: seq<nat>)

  const INIT := World([], map[], [], 0, [], [], [])

  function Apply(w: World, c: Call): World {
    match c
    case Ask(key, now) =>
      if AnswerTo(w.requests, w.cards, key, now) != Opened then w
      else
        w.(requests := Added(w.requests, w.unused, key), cards := Stamped(w.cards, key, now), unused := w.unused + 1,
           asked := w.asked + [Stamp(key, now)])
    case Answered(id) =>
      if IsPending(w.requests, id) then w.(requests := Settled(w.requests, id), settled := w.settled + [id]) else w
    case Allow(key, now) => w.(passes := GrantTo(w.passes, w.unused, key, now), unused := w.unused + 1)
    case Read(id) =>
      if Holds(w.passes, id) then w.(passes := Without(w.passes, id), spent := w.spent + [id]) else w
  }

  function After(cs: seq<Call>): World {
    if cs == [] then INIT else Apply(After(cs[..|cs| - 1]), cs[|cs| - 1])
  }

  // ----- the stores stay within their bounds ------------------------------------------------------

  lemma {:induction false} PendingOfSuffix(rs: seq<Request>, k: nat, session: string)
    requires k <= |rs|
    ensures Pending(rs[k..], session) <= Pending(rs, session)
  {
    if k < |rs| {
      var init := rs[..|rs| - 1];
      PendingOfSuffix(init, k, session);
      assert rs[k..][..|rs[k..]| - 1] == init[k..];
    }
  }

  lemma {:induction false} PendingOfSettled(rs: seq<Request>, id: nat, session: string)
    ensures Pending(Settled(rs, id), session) <= Pending(rs, session) && |Settled(rs, id)| == |rs|
  {
    if rs != [] {
      PendingOfSettled(rs[..|rs| - 1], id, session);
    }
  }

  lemma {:induction false} WithoutIsShorter(ps: seq<Ticket>, id: nat)
    ensures |Without(ps, id)| <= |ps|
  {
    if ps != [] {
      WithoutIsShorter(ps[..|ps| - 1], id);
    }
  }

  ghost predicate InBounds(w: World) {
    && |w.requests| <= MAX_RECORDS && |w.passes| <= MAX_PASSES
    && forall session :: Pending(w.requests, session) <= MAX_PENDING_PER_SESSION
  }

  lemma {:induction false} PendingOfAdded(rs: seq<Request>, id: nat, key: Key, session: string)
    ensures Pending(Added(rs, id, key), session) <= Pending(rs, session) + if key.session == session then 1 else 0
  {
    var all := rs + [Request(id, key, true)];
    assert all[..|all| - 1] == rs;
    if |all| > MAX_RECORDS {
      PendingOfSuffix(all, |all| - MAX_RECORDS, session);
    }
  }

  lemma {:induction false} StepKeepsBounds(w: World, c: Call)
    requires InBounds(w)
    ensures InBounds(Apply(w, c))
  {
    match c
    case Ask(key, _) =>
      forall session
        ensures Pending(Apply(w, c).requests, session) <= MAX_PENDING_PER_SESSION
      {
        PendingOfAdded(w.requests, w.unused, key, session);
      }
    case Answered(id) =>
      forall session
        ensures Pending(Settled(w.requests, id), session) <= MAX_PENDING_PER_SESSION
      {
        PendingOfSettled(w.requests, id, session);
      }
      PendingOfSettled(w.requests, id, "");
    case Allow(_, _) =>
    case Read(id) => WithoutIsShorter(w.passes, id);
  }

  /** At most five open questions a session, and both stores stay within their sizes. */
  lemma {:induction false} StoresAreBounded(cs: seq<Call>)
    ensures InBounds(After(cs))
  {
    if cs != [] {
      StoresAreBounded(cs[..|cs| - 1]);
      StepKeepsBounds(After(cs[..|cs| - 1]), cs[|cs| - 1]);
    }
  }

  // ----- one card per rate interval ---------------------------------------------------------------

  /** Since opening `i`, one at a time so much later that it pruned the stamps of then was made. */
  predicate Overtaken(asked: seq<Stamp>, i: nat)
    requires i < |asked|
  {
    exists m :: i < m < |asked| && asked[m].now - asked[i].now >= CARD_RATE_S
  }

  predicate IsLast(asked: seq<Stamp>, i: nat) {
    i < |asked| && forall m :: i < m < |asked| ==> asked[m].key != asked[i].key
  }

  predicate CardsKnow(asked: seq<Stamp>, cards: map<Key, int>) {
    forall i: nat :: i < |asked| && IsLast(asked, i) ==>
      (asked[i].key in cards && cards[asked[i].key] == asked[i].now) || Overtaken(asked, i)
  }

  /** Two openings for one key, with none in between, are an interval apart unless the first was overtaken. */
  predicate Spaced(asked: seq<Stamp>) {
    forall i: nat, j: nat :: i < j < |asked| && asked[i].key == asked[j].key && IsLast(asked[..j], i) ==>
      asked[j].now - asked[i].now >= CARD_RATE_S || Overtaken(asked[..j], i)
  }

  lemma {:induction false} AskKeepsSpaced(asked: seq<Stamp>, cards: map<Key, int>, key: Key, now: int)
    requires CardsKnow(asked, cards) && Spaced(asked) && !Limited(cards, key, now)
    ensures Spaced(asked + [Stamp(key, now)])
  {
    var all := asked + [Stamp(key, now)];
    forall i: nat, j: nat | i < j < |all| && all[i].key == all[j].key && IsLast(all[..j], i)
      ensures all[j].now - all[i].now >= CARD_RATE_S || Overtaken(all[..j], i)
    {
      assert all[..j] == asked[..j];
      assert asked[..|asked|] == asked;
    }
  }

  lemma {:induction false} AskKeepsCards(asked: seq<Stamp>, cards: map<Key, int>, key: Key, now: int)
    requires CardsKnow(asked, cards)
    ensures CardsKnow(asked + [Stamp(key, now)], Stamped(cards, key, now))
  {
    var all := asked + [Stamp(key, now)];
    forall i: nat | i < |all| && IsLast(all, i)
      ensures
        || (all[i].key in Stamped(cards, key, now) && Stamped(cards, key, now)[all[i].key] == all[i].now)
        || Overtaken(all, i)
    {
      if i < |asked| {
        assert all[i] == asked[i] && all[|asked|] == Stamp(key, now);
        forall m | i < m < |asked|
          ensures asked[m].key != asked[i].key
        {
          assert all[m] == asked[m];
        }
        if Overtaken(asked, i) {
          var m :| i < m < |asked| && asked[m].now - asked[i].now >= CARD_RATE_S;
          assert all[m] == asked[m];
        }
      }
    }
  }

  lemma {:induction false} OpeningsAreSpaced(cs: seq<Call>)
    ensures Spaced(After(cs).asked) && CardsKnow(After(cs).asked, After(cs).cards)
  {
    if cs != [] {
      var c := cs[|cs| - 1];
      var w := After(cs[..|cs| - 1]);
      OpeningsAreSpaced(cs[..|cs| - 1]);
      if c.Ask? && AnswerTo(w.requests, w.cards, c.key, c.now) == Opened {
        AskKeepsSpaced(w.asked, w.cards, c.key, c.now);
        AskKeepsCards(w.asked, w.cards, c.key, c.now);
      }
    }
  }

  predicate Monotone(cs: seq<Call>) {
    forall i, j :: 0 <= i < j < |cs| && cs[i].Ask? && cs[j].Ask? ==> cs[i].now <= cs[j].now
  }

  predicate InOrder(asked: seq<Stamp>) {
    forall i, j :: 0 <= i < j < |asked| ==> asked[i].now <= asked[j].now
  }

  lemma {:induction false} AskedInOrder(cs: seq<Call>, now: int)
    requires Monotone(cs) && forall k :: 0 <= k < |cs| && cs[k].Ask? ==> cs[k].now <= now
    ensures InOrder(After(cs).asked)
    ensures forall i :: 0 <= i < |After(cs).asked| ==> After(cs).asked[i].now <= now
  {
    if cs != [] {
      var init, last := cs[..|cs| - 1], cs[|cs| - 1];
      AskedInOrder(init, now);
      if last.Ask? {
        AskedInOrder(init, last.now);
      }
    }
  }

  /** The last opening for the key of `j` before it, from `i` on. */
  lemma {:induction false} LastBefore(asked: seq<Stamp>, i: nat, j: nat) returns (k: nat)
    requires i < j < |asked| && asked[i].key == asked[j].key
    ensures i <= k < j && asked[k].key == asked[j].key && IsLast(asked[..j], k)
    decreases j - i
  {
    if IsLast(asked[..j], i) {
      k := i;
    } else {
      var m :| i < m < j && asked[..j][m].key == asked[..j][i].key;
      k := LastBefore(asked, m, j);
    }
  }

  lemma {:induction false} SpacedInOrder(asked: seq<Stamp>, i: nat, j: nat)
    requires Spaced(asked) && InOrder(asked) && i < j < |asked| && asked[i].key == asked[j].key
    ensures asked[j].now - asked[i].now >= CARD_RATE_S
  {
    var k := LastBefore(asked, i, j);
    assert asked[i].now <= asked[k].now;
    if Overtaken(asked[..j], k) {
      var m :| k < m < j && asked[..j][m].now - asked[..j][k].now >= CARD_RATE_S;
      assert asked[m].now <= asked[j].now;
    }
  }

  lemma {:induction false} LatestAsk(cs: seq<Call>) returns (now: int)
    ensures forall k :: 0 <= k < |cs| && cs[k].Ask? ==> cs[k].now <= now
  {
    now := 0;
    if cs != [] {
      var last := cs[|cs| - 1];
      now := LatestAsk(cs[..|cs| - 1]);
      if last.Ask? && last.now > now {
        now := last.now;
      }
    }
  }

  /** With a clock that does not go back, two requests for one key are at least the interval apart. */
  lemma {:induction false} OneCardPerInterval(cs: seq<Call>, i: nat, j: nat)
    requires Monotone(cs) && i < j < |After(cs).asked| && After(cs).asked[i].key == After(cs).asked[j].key
    ensures After(cs).asked[j].now - After(cs).asked[i].now >= CARD_RATE_S
  {
    OpeningsAreSpaced(cs);
    var now := LatestAsk(cs);
    AskedInOrder(cs, now);
    SpacedInOrder(After(cs).asked, i, j);
  }

  lemma {:induction false} AskOpens(w: World, key: Key, now: int, cards: map<Key, int>)
    requires |w.requests| < MAX_RECORDS && |w.requests| < MAX_PENDING_PER_SESSION
    requires !Limited(w.cards, key, now) && cards == Stamped(w.cards, key, now)
    ensures
      var w' := Apply(w, Ask(key, now));
      && w'.requests == w.requests + [Request(w.unused, key, true)] && w'.cards == cards
      && w'.asked == w.asked + [Stamp(key, now)]
  {
    PendingAtMostAll(w.requests, key.session);
  }

  lemma {:induction false} PendingAtMostAll(rs: seq<Request>, session: string)
    ensures Pending(rs, session) <= |rs|
  {
    if rs != [] {
      PendingAtMostAll(rs[..|rs| - 1], session);
    }
  }

  lemma {:induction false} AfterThree(c: Call, d: Call, e: Call)
    ensures After([c, d, e]) == Apply(Apply(Apply(INIT, c), d), e)
  {
    assert [c][..0] == [] && [c, d][..1] == [c] && [c, d, e][..2] == [c, d];
    assert After([c]) == Apply(INIT, c);
    assert After([c, d]) == Apply(After([c]), d);
  }

  lemma {:induction false} StampsPrune(a: Key, b: Key, t: int)
    requires a != b
    ensures Stamped(map[], a, t) == map[a := t]
    ensures Stamped(map[a := t], b, t + CARD_RATE_S) == map[b := t + CARD_RATE_S]
  {
  }

  lemma {:induction false} StampsKeep(a: Key, b: Key, n: int)
    requires a != b
    ensures Stamped(map[b := n], a, n - 1) == map[b := n, a := n - 1]
    ensures !Limited(map[b := n], a, n - 1)
  {
  }

  /** A call that read its clock earlier but came later finds the stamp pruned, and opens again too soon. */
  lemma {:induction false} StaleClockOpensEarly(a: Key, b: Key, t: int)
    requires a != b
    ensures After([Ask(a, t), Ask(b, t + CARD_RATE_S), Ask(a, t + CARD_RATE_S - 1)]).asked ==
      [Stamp(a, t), Stamp(b, t + CARD_RATE_S), Stamp(a, t + CARD_RATE_S - 1)]
  {
    var n := t + CARD_RATE_S;
    StampsPrune(a, b, t);
    StampsKeep(a, b, n);
    AfterThree(Ask(a, t), Ask(b, n), Ask(a, n - 1));
    AskOpens(INIT, a, t, map[a := t]);
    var w1 := Apply(INIT, Ask(a, t));
    assert |w1.requests| == 1 && w1.cards == map[a := t] && w1.asked == [Stamp(a, t)];
    OpensTwice(w1, a, b, t);
  }

  lemma {:induction false} OpensTwice(w: World, a: Key, b: Key, t: int)
    requires a != b && |w.requests| == 1 && w.cards == map[a := t] && w.asked == [Stamp(a, t)]
    ensures
      var n := t + CARD_RATE_S;
      Apply(Apply(w, Ask(b, n)), Ask(a, n - 1)).asked == [Stamp(a, t), Stamp(b, n), Stamp(a, n - 1)]
  {
    var n := t + CARD_RATE_S;
    StampsPrune(a, b, t);
    AskOpens(w, b, n, map[b := n]);
    StampsKeep(a, b, n);
    AskOpens(Apply(w, Ask(b, n)), a, n - 1, map[b := n, a := n - 1]);
  }

  // ----- settled once, spent once -------------------------------------------------------------------

  lemma {:induction false} SettledElems(rs: seq<Request>, id: nat, r: Request)
    requires r in Settled(rs, id)
    ensures exists q :: q in rs && q.id == r.id && (r.pending ==> q.pending && r.id != id)
  {
    var init, last := rs[..|rs| - 1], rs[|rs| - 1];
    if r in Settled(init, id) {
      SettledElems(init, id, r);
      var q :| q in init && q.id == r.id && (r.pending ==> q.pending && r.id != id);
      assert q in rs;
    } else {
      assert last in rs;
    }
  }

  lemma {:induction false} WithoutElems(ps: seq<Ticket>, id: nat, p: Ticket)
    requires p in Without(ps, id)
    ensures p in ps && p.id != id
  {
    var init, last := ps[..|ps| - 1], ps[|ps| - 1];
    if p in Without(init, id) {
      WithoutElems(init, id, p);
    }
  }

  lemma {:induction false} LiveElems(ps: seq<Ticket>, now: int, p: Ticket)
    requires p in Live(ps, now)
    ensures p in ps && p.expires > now
  {
    var init, last := ps[..|ps| - 1], ps[|ps| - 1];
    if p in Live(init, now) {
      LiveElems(init, now, p);
    }
  }

  predicate Distinct(ids: seq<nat>) {
    forall i, j :: 0 <= i < j < |ids| ==> ids[i] != ids[j]
  }

  ghost predicate SettledOnce(w: World) {
    && Distinct(w.settled)
    && (forall id :: id in w.settled ==> id < w.unused)
    && (forall r :: r in w.requests ==> r.id < w.unused && (r.pending ==> r.id !in w.settled))
  }

  ghost predicate SpentOnce(w: World) {
    && Distinct(w.spent)
    && (forall id :: id in w.spent ==> id < w.unused)
    && (forall p :: p in w.passes ==> p.id < w.unused && p.id !in w.spent)
  }

  lemma {:induction false} SettledStep(w: World, c: Call)
    requires SettledOnce(w)
    ensures SettledOnce(Apply(w, c))
  {
    if c.Answered? && IsPending(w.requests, c.id) {
      forall r | r in Settled(w.requests, c.id)
        ensures r.id < w.unused && (r.pending ==> r.id !in w.settled + [c.id])
      {
        SettledElems(w.requests, c.id, r);
      }
    }
  }

  lemma {:induction false} SpentStep(w: World, c: Call)
    requires SpentOnce(w)
    ensures SpentOnce(Apply(w, c))
  {
    if c.Allow? {
      forall p | p in GrantTo(w.passes, w.unused, c.key, c.now)
        ensures p.id <= w.unused && p.id !in w.spent
      {
        if p in Live(w.passes, c.now) {
          LiveElems(w.passes, c.now, p);
        }
      }
    } else if c.Read? && Holds(w.passes, c.id) {
      forall p | p in Without(w.passes, c.id)
        ensures p.id < w.unused && p.id !in w.spent + [c.id]
      {
        WithoutElems(w.passes, c.id, p);
      }
    }
  }

  /** Over any run each request is settled at most once and each pass spent at most once. */
  lemma {:induction false} OnceEach(cs: seq<Call>)
    ensures Distinct(After(cs).settled) && Distinct(After(cs).spent)
    ensures SettledOnce(After(cs)) && SpentOnce(After(cs))
  {
    if cs != [] {
      OnceEach(cs[..|cs| - 1]);
      SettledStep(After(cs[..|cs| - 1]), cs[|cs| - 1]);
      SpentStep(After(cs[..|cs| - 1]), cs[|cs| - 1]);
    }
  }
}
