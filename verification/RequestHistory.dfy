/**
 The stores of requests and passes by the history of calls alone: which requests are
 there and still open, which passes are held, and what every request is told.
 */
module RequestHistory {
  import opened Wrappers
  import opened Requests

  // ----- the store of requests -----------------------------------------------------------------

  lemma {:induction false} SettledAt(rs: seq<Request>, id: nat)
    ensures |Settled(rs, id)| == |rs|
    ensures forall k :: 0 <= k < |rs| ==>
      Settled(rs, id)[k] == if rs[k].id == id then rs[k].(pending := false) else rs[k]
  {
    if rs != [] {
      SettledAt(rs[..|rs| - 1], id);
    }
  }

  /** The last openings, in order, each open until it is settled. */
  predicate LastAsked(rs: seq<Request>, asked: seq<Stamp>, settled: seq<nat>) {
    && |rs| == (if |asked| > MAX_RECORDS then MAX_RECORDS else |asked|)
    && forall k :: 0 <= k < |rs| ==>
         rs[k].key == asked[|asked| - |rs| + k].key && (rs[k].pending <==> rs[k].id !in settled)
  }

  predicate Ascending(rs: seq<Request>, unused: nat) {
    && (forall k :: 0 <= k < |rs| ==> rs[k].id < unused)
    && (forall i, k :: 0 <= i < k < |rs| ==> rs[i].id < rs[k].id)
  }

  lemma {:induction false} NewestAt<T>(s: seq<T>, n: nat, k: nat)
    requires k < |Newest(s, n)|
    ensures |Newest(s, n)| == (if |s| > n then n else |s|)
    ensures Newest(s, n)[k] == s[|s| - |Newest(s, n)| + k]
  {
  }

  lemma {:induction false} AddedAt(rs: seq<Request>, id: nat, key: Key, k: nat)
    requires |rs| <= MAX_RECORDS && k < |Added(rs, id, key)|
    ensures
      var all, now := rs + [Request(id, key, true)], Added(rs, id, key);
      && |now| == (if |all| > MAX_RECORDS then MAX_RECORDS else |all|)
      && now[k] == all[|all| - |now| + k]
  {
    NewestAt(rs + [Request(id, key, true)], MAX_RECORDS, k);
  }

  /** Entry `k` of the store after an opening is that of the opening at the same distance from the last. */
  lemma {:induction false} AddedEntry(
      rs: seq<Request>, asked: seq<Stamp>, settled: seq<nat>, id: nat, key: Key, now: int, k: nat)
    requires LastAsked(rs, asked, settled) && id !in settled && k < |Added(rs, id, key)|
    ensures
      var rs', all := Added(rs, id, key), asked + [Stamp(key, now)];
      && |rs'| == (if |all| > MAX_RECORDS then MAX_RECORDS else |all|)
      && rs'[k].key == all[|all| - |rs'| + k].key && (rs'[k].pending <==> rs'[k].id !in settled)
  {
    AddedAt(rs, id, key, k);
    var j := |rs| + 1 - |Added(rs, id, key)| + k;
    if j < |rs| {
      assert rs[j].key == asked[|asked| - |rs| + j].key;
    }
  }

  lemma {:induction false} AddedIsLast(
      rs: seq<Request>, asked: seq<Stamp>, settled: seq<nat>, id: nat, key: Key, now: int)
    requires LastAsked(rs, asked, settled) && id !in settled
    ensures LastAsked(Added(rs, id, key), asked + [Stamp(key, now)], settled)
  {
    forall k: nat | k < |Added(rs, id, key)|
      ensures
        var rs', all := Added(rs, id, key), asked + [Stamp(key, now)];
        && |rs'| == (if |all| > MAX_RECORDS then MAX_RECORDS else |all|)
        && rs'[k].key == all[|all| - |rs'| + k].key && (rs'[k].pending <==> rs'[k].id !in settled)
    {
      AddedEntry(rs, asked, settled, id, key, now, k);
    }
    AddedEntry(rs, asked, settled, id, key, now, 0);
  }

  lemma {:induction false} AddedIsAscending(rs: seq<Request>, id: nat, key: Key)
    requires |rs| <= MAX_RECORDS && Ascending(rs, id)
    ensures Ascending(Added(rs, id, key), id + 1)
  {
    var all := rs + [Request(id, key, true)];
    assert Ascending(all, id + 1);
  }

  lemma {:induction false} SettledIsLast(rs: seq<Request>, asked: seq<Stamp>, settled: seq<nat>, id: nat, unused: nat)
    requires LastAsked(rs, asked, settled) && Ascending(rs, unused)
    ensures LastAsked(Settled(rs, id), asked, settled + [id]) && Ascending(Settled(rs, id), unused)
  {
    SettledAt(rs, id);
  }

  /** Over every run the store holds the last openings, and a request in it is open exactly if it was not settled. */
  lemma {:induction false} RequestsAreTheLastAsked(cs: seq<Call>)
    ensures
      var w := After(cs);
      LastAsked(w.requests, w.asked, w.settled) && Ascending(w.requests, w.unused)
  {
    if cs != [] {
      var init, c := cs[..|cs| - 1], cs[|cs| - 1];
      var w := After(init);
      RequestsAreTheLastAsked(init);
      OnceEach(init);
      if c.Ask? && AnswerTo(w.requests, w.cards, c.key, c.now) == Opened {
        AddedIsLast(w.requests, w.asked, w.settled, w.unused, c.key, c.now);
        AddedIsAscending(w.requests, w.unused, c.key);
      } else if c.Answered? && IsPending(w.requests, c.id) {
        SettledIsLast(w.requests, w.asked, w.settled, c.id, w.unused);
      }
    }
  }

  /** Settling succeeds exactly on a request that is in the store and was not settled before. */
  lemma {:induction false} SettledExactly(cs: seq<Call>, id: nat)
    ensures
      var w := After(cs);
      var w' := After(cs + [Answered(id)]);
      && (w'.settled == w.settled + [id] <==>
            (exists k :: 0 <= k < |w.requests| && w.requests[k].id == id) && id !in w.settled)
      && (w'.settled == w.settled || w'.settled == w.settled + [id])
      && w'.passes == w.passes && w'.cards == w.cards && w'.asked == w.asked
  {
    RequestsAreTheLastAsked(cs);
    assert (cs + [Answered(id)])[..|cs|] == cs;
    var w := After(cs);
    assert |w.settled + [id]| == |w.settled| + 1;
  }

  // ----- what a request is told ------------------------------------------------------------------

  /** The places of the requests of a session that are open. */
  function Places(rs: seq<Request>, session: string): set<nat> {
    set k: nat | k < |rs| && rs[k].pending && rs[k].key.session == session
  }

  lemma {:induction false} PendingCounts(rs: seq<Request>, session: string)
    ensures Pending(rs, session) == |Places(rs, session)|
  {
    if rs != [] {
      var n := |rs| - 1;
      PendingCounts(rs[..n], session);
      var here := rs[n].pending && rs[n].key.session == session;
      assert Places(rs, session) == Places(rs[..n], session) + if here then {n} else {};
    }
  }

  /** A stamp is that of the last opening for its key. */
  ghost predicate CardsAreAsked(asked: seq<Stamp>, cards: map<Key, int>) {
    forall key :: key in cards ==> exists i: nat :: IsLast(asked, i) && asked[i] == Stamp(key, cards[key])
  }

  lemma {:induction false} StampIsAsked(asked: seq<Stamp>, cards: map<Key, int>, key: Key, now: int)
    requires CardsAreAsked(asked, cards)
    ensures CardsAreAsked(asked + [Stamp(key, now)], Stamped(cards, key, now))
  {
    var all := asked + [Stamp(key, now)];
    forall k | k in Stamped(cards, key, now)
      ensures exists i: nat :: IsLast(all, i) && all[i] == Stamp(k, Stamped(cards, key, now)[k])
    {
      if k == key {
        assert IsLast(all, |asked|);
      } else {
        var i: nat :| IsLast(asked, i) && asked[i] == Stamp(k, cards[k]);
        assert IsLast(all, i) && all[i] == asked[i];
      }
    }
  }

  lemma {:induction false} StampsAreAsked(cs: seq<Call>)
    ensures CardsAreAsked(After(cs).asked, After(cs).cards)
  {
    if cs != [] {
      var c := cs[|cs| - 1];
      var w := After(cs[..|cs| - 1]);
      StampsAreAsked(cs[..|cs| - 1]);
      if c.Ask? && AnswerTo(w.requests, w.cards, c.key, c.now) == Opened {
        StampIsAsked(w.asked, w.cards, c.key, c.now);
      }
    }
  }

  /** Some opening for the key is less than the interval ago. */
  predicate Recent(asked: seq<Stamp>, key: Key, now: int) {
    exists i :: 0 <= i < |asked| && asked[i].key == key && now - asked[i].now < CARD_RATE_S
  }

  /** The last opening for the key of `i`. */
  lemma {:induction false} LastOf(asked: seq<Stamp>, i: nat) returns (k: nat)
    requires i < |asked|
    ensures i <= k && IsLast(asked, k) && asked[k].key == asked[i].key
    decreases |asked| - i
  {
    if IsLast(asked, i) {
      k := i;
    } else {
      var m :| i < m < |asked| && asked[m].key == asked[i].key;
      k := LastOf(asked, m);
    }
  }

  lemma {:induction false} LimitedExactly(cs: seq<Call>, key: Key, now: int)
    requires Monotone(cs) && forall k :: 0 <= k < |cs| && cs[k].Ask? ==> cs[k].now <= now
    ensures Limited(After(cs).cards, key, now) <==> Recent(After(cs).asked, key, now)
  {
    var w := After(cs);
    OpeningsAreSpaced(cs);
    StampsAreAsked(cs);
    AskedInOrder(cs, now);
    if Recent(w.asked, key, now) {
      var i :| 0 <= i < |w.asked| && w.asked[i].key == key && now - w.asked[i].now < CARD_RATE_S;
      var k := LastOf(w.asked, i);
      assert w.asked[i].now <= w.asked[k].now;
      assert !Overtaken(w.asked, k);
    }
    if Limited(w.cards, key, now) {
      var i: nat :| IsLast(w.asked, i) && w.asked[i] == Stamp(key, w.cards[key]);
    }
  }

  lemma {:induction false} AskedNext(cs: seq<Call>, key: Key, now: int)
    ensures
      var w := After(cs);
      After(cs + [Ask(key, now)]).asked ==
      w.asked + if AnswerTo(w.requests, w.cards, key, now) == Opened then [Stamp(key, now)] else []
  {
    assert (cs + [Ask(key, now)])[..|cs|] == cs;
    assert After(cs).asked + [] == After(cs).asked;
  }

  /**
   What every request is told, with a clock that does not go back: it is limited exactly if one
   for its key was opened less than the interval ago, turned away exactly if its session
   has five open besides, and otherwise opened.
   */
  lemma {:induction false} AnsweredExactly(cs: seq<Call>, key: Key, now: int)
    requires Monotone(cs) && forall k :: 0 <= k < |cs| && cs[k].Ask? ==> cs[k].now <= now
    ensures
      var w := After(cs);
      var a := AnswerTo(w.requests, w.cards, key, now);
      && (a == RateLimited <==> Recent(w.asked, key, now))
      && (a == TooMany <==> !Recent(w.asked, key, now) && |Places(w.requests, key.session)| >= MAX_PENDING_PER_SESSION)
      && After(cs + [Ask(key, now)]).asked == w.asked + if a == Opened then [Stamp(key, now)] else []
  {
    LimitedExactly(cs, key, now);
    PendingCounts(After(cs).requests, key.session);
    AskedNext(cs, key, now);
  }

  // ----- the passes ------------------------------------------------------------------------------

  lemma {:induction false} WithoutExactly(ps: seq<Ticket>, id: nat, p: Ticket)
    ensures p in Without(ps, id) <==> p in ps && p.id != id
  {
    if ps != [] {
      WithoutExactly(ps[..|ps| - 1], id, p);
      assert ps == ps[..|ps| - 1] + [ps[|ps| - 1]];
    }
  }

  lemma {:induction false} LiveExactly(ps: seq<Ticket>, now: int, p: Ticket)
    ensures p in Live(ps, now) <==> p in ps && p.expires > now
  {
    if ps != [] {
      LiveExactly(ps[..|ps| - 1], now, p);
      assert ps == ps[..|ps| - 1] + [ps[|ps| - 1]];
    }
  }

  /** Oldest first, with ids below `unused`. */
  predicate OldestFirst(ps: seq<Ticket>, unused: nat) {
    && (forall k :: 0 <= k < |ps| ==> ps[k].id < unused)
    && (forall i, k :: 0 <= i < k < |ps| ==> ps[i].id < ps[k].id)
  }

  lemma {:induction false} WithoutOldestFirst(ps: seq<Ticket>, id: nat, unused: nat)
    requires OldestFirst(ps, unused)
    ensures OldestFirst(Without(ps, id), unused)
  {
    if ps != [] {
      var init, last := ps[..|ps| - 1], ps[|ps| - 1];
      WithoutOldestFirst(init, id, last.id);
    }
  }

  lemma {:induction false} LiveOldestFirst(ps: seq<Ticket>, now: int, unused: nat)
    requires OldestFirst(ps, unused)
    ensures OldestFirst(Live(ps, now), unused)
  {
    if ps != [] {
      var init, last := ps[..|ps| - 1], ps[|ps| - 1];
      LiveOldestFirst(init, now, last.id);
    }
  }

  /** How many passes in time are newer than `p`. */
  ghost function Newer(ps: seq<Ticket>, p: Ticket, now: int): nat {
    |set q | q in ps && q.expires > now && q.id > p.id|
  }

  /** The pass outlives the call: it is not read, and a new pass finds it in time and among the newest. */
  ghost predicate Outlives(w: World, c: Call, p: Ticket) {
    && (c.Read? ==> c.id != p.id)
    && (c.Allow? ==> p.expires > c.now && Newer(w.passes, p, c.now) < MAX_PASSES - 1)
  }

  predicate IsMade(w: World, c: Call, p: Ticket) {
    c.Allow? && p == Ticket(w.unused, c.key, c.now + ONCE_TTL_S)
  }

  function Tickets(ps: seq<Ticket>): set<Ticket> {
    set p | p in ps
  }

  lemma {:induction false} TailCount(ps: seq<Ticket>, k: nat, unused: nat)
    requires OldestFirst(ps, unused) && k <= |ps|
    ensures |Tickets(ps[k..])| == |ps| - k
    decreases |ps| - k
  {
    if k < |ps| {
      TailCount(ps, k + 1, unused);
      assert Tickets(ps[k..]) == {ps[k]} + Tickets(ps[k + 1..]);
      assert ps[k] !in ps[k + 1..];
    }
  }

  lemma {:induction false} NewerIsBehind(ps: seq<Ticket>, live: seq<Ticket>, k: nat, now: int, unused: nat)
    requires live == Live(ps, now) && OldestFirst(live, unused) && k < |live|
    ensures Newer(ps, live[k], now) == |live| - k - 1
  {
    forall q
      ensures q in ps && q.expires > now && q.id > live[k].id <==> q in live[k + 1..]
    {
      LiveExactly(ps, now, q);
      if q in live && q.id > live[k].id {
        var i :| 0 <= i < |live| && live[i] == q;
        assert i > k && live[k + 1..][i - k - 1] == q;
      }
      if q in live[k + 1..] {
        var i :| 0 <= i < |live| - k - 1 && live[k + 1..][i] == q;
        assert live[i + k + 1] == q;
      }
    }
    assert (set q | q in ps && q.expires > now && q.id > live[k].id) == Tickets(live[k + 1..]);
    TailCount(live, k + 1, unused);
  }

  lemma {:induction false} AllowExactly(w: World, key: Key, now: int, p: Ticket)
    requires OldestFirst(w.passes, w.unused)
    ensures
      var c := Allow(key, now);
      p in Apply(w, c).passes <==> IsMade(w, c, p) || (p in w.passes && Outlives(w, c, p))
  {
    var live := Live(w.passes, now);
    LiveExactly(w.passes, now, p);
    LiveOldestFirst(w.passes, now, w.unused);
    var kept := Newest(live, MAX_PASSES - 1);
    if p in live {
      var k :| 0 <= k < |live| && live[k] == p;
      NewerIsBehind(w.passes, live, k, now, w.unused);
      KeptIffNear(live, k, w.unused);
    }
    forall q | q in kept
      ensures q in live
    {
    }
  }

  lemma {:induction false} KeptIffNear(live: seq<Ticket>, k: nat, unused: nat)
    requires OldestFirst(live, unused) && k < |live|
    ensures live[k] in Newest(live, MAX_PASSES - 1) <==> |live| - k - 1 < MAX_PASSES - 1
  {
    var kept := Newest(live, MAX_PASSES - 1);
    var n := |live| - |kept|;
    assert forall i :: 0 <= i < |kept| ==> kept[i] == live[n + i];
    if k >= n {
      assert kept[k - n] == live[k];
    }
  }

  lemma {:induction false} PassStep(w: World, c: Call, p: Ticket)
    requires OldestFirst(w.passes, w.unused)
    ensures p in Apply(w, c).passes <==> IsMade(w, c, p) || (p in w.passes && Outlives(w, c, p))
    ensures OldestFirst(Apply(w, c).passes, Apply(w, c).unused)
  {
    match c
    case Ask(_, _) =>
    case Answered(_) =>
    case Allow(key, now) =>
      AllowExactly(w, key, now, p);
      LiveOldestFirst(w.passes, now, w.unused);
    case Read(id) =>
      WithoutExactly(w.passes, id, p);
      WithoutOldestFirst(w.passes, id, w.unused);
      if p in w.passes && p.id == id {
        var i :| 0 <= i < |w.passes| && w.passes[i] == p;
        assert Holds(w.passes, id);
      }
  }

  /** Call `i` made the pass, and it outlived every one since. */
  ghost predicate HeldSince(cs: seq<Call>, i: nat, p: Ticket) {
    && i < |cs| && IsMade(After(cs[..i]), cs[i], p)
    && forall j: nat :: i < j < |cs| ==> Outlives(After(cs[..j]), cs[j], p)
  }

  ghost predicate Held(cs: seq<Call>, p: Ticket) {
    exists i: nat :: HeldSince(cs, i, p)
  }

  lemma {:induction false} HeldNext(init: seq<Call>, c: Call, p: Ticket)
    ensures Held(init + [c], p) <==> IsMade(After(init), c, p) || (Held(init, p) && Outlives(After(init), c, p))
  {
    var cs := init + [c];
    assert cs[..|init|] == init;
    assert forall j: nat :: j < |init| ==> cs[..j] == init[..j] && cs[j] == init[j];
    if IsMade(After(init), c, p) {
      assert HeldSince(cs, |init|, p);
    }
    if i: nat :| HeldSince(init, i, p) && Outlives(After(init), c, p) {
      assert HeldSince(cs, i, p);
    }
    if i: nat :| HeldSince(cs, i, p) && i < |init| {
      assert HeldSince(init, i, p);
    }
  }

  /**
   Over every run a pass is held exactly if some call granted it and none since has spent it,
   found it expired when another was granted, or pushed it out with 49 newer ones in time.
   */
  lemma {:induction false} HeldExactly(cs: seq<Call>, p: Ticket)
    ensures OldestFirst(After(cs).passes, After(cs).unused)
    ensures p in After(cs).passes <==> Held(cs, p)
  {
    if cs != [] {
      var init, c := cs[..|cs| - 1], cs[|cs| - 1];
      assert init + [c] == cs;
      HeldExactly(init, p);
      PassStep(After(init), c, p);
      HeldNext(init, c, p);
    }
  }

  /** And a read succeeds exactly on such a pass. */
  lemma {:induction false} ReadExactly(cs: seq<Call>, id: nat)
    ensures
      var w := After(cs);
      After(cs + [Read(id)]).spent == w.spent + if exists p :: Held(cs, p) && p.id == id then [id] else []
  {
    var w := After(cs);
    assert (cs + [Read(id)])[..|cs|] == cs;
    if Holds(w.passes, id) {
      var i :| 0 <= i < |w.passes| && w.passes[i].id == id;
      HeldExactly(cs, w.passes[i]);
      assert Held(cs, w.passes[i]);
    } else {
      forall p | Held(cs, p)
        ensures p.id != id
      {
        HeldExactly(cs, p);
        var i :| 0 <= i < |w.passes| && w.passes[i] == p;
      }
      assert w.spent + [] == w.spent;
    }
  }
}
