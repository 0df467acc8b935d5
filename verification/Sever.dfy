/**
 Severing links before a worktree is deleted (mc/agent_worktree.py): a walk over the
 tree with a worklist (a stack in the source; here any entry of it may be next), where
 listing a directory, telling a link, or removing one may fail.

 `Severed` and `Sound` say which links go and what the answer is; the method is
 proved against them. The lemmas after it say when the answer is right, and what a
 delete that follows links can reach afterwards.
 */
module Sever {
  type Name = nat
  type Path = seq<Name>

  datatype Kind = File | Dir | Link(target: Path)

  type Tree = map<Path, Kind>

  /**
   What goes wrong: directories that cannot be listed; links that cannot be removed, or
   are back at once; and tests that fail, which the source takes for a no: whether an
   entry is a link (`probe`), and whether a removed link is still there (`blind`).
   */
  datatype Faults = Faults(scan: set<Path>, unlink: set<Path>, sticky: set<Path>, probe: set<Path>, blind: set<Path>)

  /** A link at `p` stays, and the walk does not know. */
  predicate Overlooked(f: Faults, p: Path) {
    p in f.probe || (p !in f.unlink && p in f.sticky && p in f.blind)
  }

  predicate Under(root: Path, p: Path) {
    root <= p
  }

  function Parent(p: Path): Path
    requires p != []
  {
    p[..|p| - 1]
  }

  /** Entries are in directories; a link is never listed through. */
  predicate WellFormed(t: Tree) {
    forall p :: p in t && p != [] ==> Parent(p) in t && t[Parent(p)].Dir?
  }

  predicate IsLink(t: Tree, p: Path) {
    p in t && t[p].Link?
  }

  predicate IsDir(t: Tree, p: Path) {
    p in t && t[p].Dir?
  }

  /** Every directory from the root down to `p`, itself not included, can be listed. */
  predicate Listed(root: Path, p: Path, f: Faults) {
    Under(root, p) && forall n :: |root| <= n < |p| ==> p[..n] !in f.scan
  }

  predicate Found(t: Tree, root: Path, p: Path, f: Faults) {
    IsLink(t, p) && p != root && Listed(root, p, f)
  }

  predicate Removable(t: Tree, p: Path, f: Faults) {
    IsLink(t, p) && p !in f.probe && p !in f.unlink && p !in f.sticky
  }

  /** A link that stays, as the walk has seen. */
  predicate Stuck(t: Tree, p: Path, f: Faults) {
    IsLink(t, p) && p !in f.probe && (p in f.unlink || (p in f.sticky && p !in f.blind))
  }

  /** The links that are gone afterwards. */
  function Severed(t: Tree, root: Path, f: Faults): set<Path> {
    set p | p in t && Found(t, root, p, f) && Removable(t, p, f)
  }

  /** The walk listed everything and removed every link, as far as it knows. */
  predicate Sound(t: Tree, root: Path, f: Faults) {
    && IsDir(t, root)
    && (forall d :: d in t && IsDir(t, d) && Listed(root, d, f) ==> d !in f.scan)
    && (forall p :: p in t && Found(t, root, p, f) ==> !Stuck(t, p, f))
  }

  // ----- one directory ----------------------------------------------------------------

  predicate Child(t: Tree, d: Path, p: Path) {
    p in t && p != [] && Parent(p) == d
  }

  /** `t'` is `t` with the entries in `dealt` dealt with: of those, the removable links are gone. */
  ghost predicate Dealt(t': Tree, t: Tree, dealt: set<Path>, f: Faults) {
    && (forall p :: p in t' <==> p in t && !(p in dealt && Removable(t, p, f)))
    && (forall p :: p in t' ==> t'[p] == t[p])
  }

  predicate NoneStuck(t: Tree, dealt: set<Path>, f: Faults) {
    forall p :: p in dealt ==> !Stuck(t, p, f)
  }

  function Children(t: Tree, d: Path): set<Path> {
    set p | p in t && Child(t, d, p)
  }

  // ----- the walk -----------------------------------------------------------------------

  /** Every entry of the directories in `seen` that could be listed. */
  function EntriesOf(t: Tree, seen: set<Path>, f: Faults): set<Path> {
    set p | p in t && p != [] && Parent(p) in seen && Parent(p) !in f.scan
  }

  /** `seen` are the directories popped, `work` those still to come. */
  ghost predicate Walk(t: Tree, root: Path, f: Faults, seen: set<Path>, work: set<Path>) {
    && seen !! work && root in seen + work
    && (forall d :: d in seen + work ==> IsDir(t, d) && Listed(root, d, f))
    && (forall p :: p in EntriesOf(t, seen, f) && IsDir(t, p) ==> p in seen + work)
    && (forall d :: d in seen + work && d != root ==> d in EntriesOf(t, seen, f))
  }

  predicate AllScanned(seen: set<Path>, f: Faults) {
    forall d :: d in seen ==> d !in f.scan
  }

  lemma {:induction false} EntriesNext(t: Tree, seen: set<Path>, f: Faults, d: Path)
    requires d !in seen
    ensures EntriesOf(t, seen + {d}, f) == EntriesOf(t, seen, f) + if d in f.scan then {} else Children(t, d)
    ensures EntriesOf(t, seen, f) !! Children(t, d)
  {
  }

  lemma {:induction false} ListedChild(root: Path, p: Path, f: Faults)
    requires p != [] && Listed(root, Parent(p), f) && Parent(p) !in f.scan
    ensures Listed(root, p, f)
  {
    var d := Parent(p);
    assert p[..|root|] == d[..|root|];
    forall n | |root| <= n < |p|
      ensures p[..n] !in f.scan
    {
      assert n < |d| ==> p[..n] == d[..n];
    }
  }

  lemma {:induction false} WalkNext(
      t: Tree, root: Path, f: Faults, seen: set<Path>, work: set<Path>, d: Path, dirs: set<Path>)
    requires Walk(t, root, f, seen, work) && d in work
    requires forall p :: p in dirs <==> d !in f.scan && p in Children(t, d) && IsDir(t, p)
    ensures Walk(t, root, f, seen + {d}, work - {d} + dirs)
  {
    EntriesNext(t, seen, f, d);
    forall p | p in dirs
      ensures p !in seen + work && Listed(root, p, f)
    {
      assert Parent(p) == d && d !in seen;
      assert p == root ==> |p| == |d| + 1;
      ListedChild(root, p, f);
    }
  }

  lemma {:induction false} WalkReaches(t: Tree, root: Path, f: Faults, seen: set<Path>, p: Path)
    requires WellFormed(t) && Walk(t, root, f, seen, {}) && p in t && p != root && Listed(root, p, f)
    ensures p in EntriesOf(t, seen, f)
    decreases |p|
  {
    var d := Parent(p);
    assert d == p[..|p| - 1] && d !in f.scan;
    if d != root {
      ListedParent(root, p, f);
      WalkReaches(t, root, f, seen, d);
    }
  }

  lemma {:induction false} ListedParent(root: Path, p: Path, f: Faults)
    requires Listed(root, p, f) && |p| > |root|
    ensures Listed(root, Parent(p), f)
  {
    var d := Parent(p);
    assert root == p[..|root|] == d[..|root|];
    forall n | |root| <= n < |d|
      ensures d[..n] !in f.scan
    {
      assert d[..n] == p[..n];
    }
  }

  /** When the work is done, the entries dealt with are exactly those that could be listed from the root. */
  lemma {:induction false} WalkDone(t: Tree, root: Path, f: Faults, seen: set<Path>)
    requires WellFormed(t) && Walk(t, root, f, seen, {})
    ensures forall p :: p in EntriesOf(t, seen, f) <==> p in t && p != root && Listed(root, p, f)
    ensures forall d :: d in seen <==> IsDir(t, d) && Listed(root, d, f)
  {
    forall p | p in t && p != root && Listed(root, p, f)
      ensures p in EntriesOf(t, seen, f)
    {
      WalkReaches(t, root, f, seen, p);
    }
    forall p | p in EntriesOf(t, seen, f)
      ensures p != root && Listed(root, p, f)
    {
      assert Parent(p) in seen && Listed(root, Parent(p), f);
      ListedChild(root, p, f);
    }
  }

  predicate VisitSound(t: Tree, cur: Path, f: Faults) {
    cur !in f.scan && NoneStuck(t, Children(t, cur), f)
  }

  predicate WalkSound(t: Tree, seen: set<Path>, f: Faults) {
    AllScanned(seen, f) && NoneStuck(t, EntriesOf(t, seen, f), f)
  }

  lemma {:induction false} WalkSoundNext(t: Tree, seen: set<Path>, f: Faults, cur: Path)
    requires cur !in seen
    ensures WalkSound(t, seen + {cur}, f) == (WalkSound(t, seen, f) && VisitSound(t, cur, f))
  {
    EntriesNext(t, seen, f, cur);
  }

  /** What the walk has done when it ends. */
  lemma {:induction false} WalkSevers(t: Tree, t': Tree, root: Path, f: Faults, seen: set<Path>)
    requires WellFormed(t) && Walk(t, root, f, seen, {}) && Dealt(t', t, EntriesOf(t, seen, f), f)
    ensures WalkSound(t, seen, f) == Sound(t, root, f)
    ensures forall p :: p in t' <==> p in t && p !in Severed(t, root, f)
  {
    WalkDone(t, root, f, seen);
  }

  /** Below something that is not a directory there is nothing. */
  lemma {:induction false} NothingBelow(t: Tree, root: Path, p: Path)
    requires WellFormed(t) && !IsDir(t, root) && p in t && Under(root, p)
    ensures p == root
    decreases |p|
  {
    if p != root {
      var d := Parent(p);
      assert p[..|root|] == d[..|root|];
      NothingBelow(t, root, d);
    }
  }

  class FileSystem {
    var nodes: Tree

    constructor (nodes: Tree)
      ensures this.nodes == nodes
    {
      this.nodes := nodes;
    }

    /** One entry of a listing: was it dealt with, and is it a directory to descend into? */
    method Entry(e: Path, f: Faults, ghost t: Tree, ghost dealt: set<Path>) returns (ok: bool, dir: bool)
      requires e in nodes && e !in dealt && Dealt(nodes, t, dealt, f)
      modifies this
      ensures Dealt(nodes, t, dealt + {e}, f)
      ensures ok == !Stuck(t, e, f)
      ensures dir == IsDir(t, e)
    {
      assert nodes[e] == t[e];
      ok, dir := true, false;
      if nodes[e].Link? && e !in f.probe {
        if e in f.unlink {
          ok := false;
        } else if e in f.sticky {
          ok := e in f.blind;
        } else {
          nodes := nodes - {e};
        }
      } else if nodes[e].Dir? {
        dir := true;
      }
    }

    /** The loop over a listing, none of whose entries has been dealt with. */
    method Entries(all: set<Path>, f: Faults, ghost t: Tree, ghost before: set<Path>)
      returns (ok: bool, dirs: set<Path>)
      requires Dealt(nodes, t, before, f) && before !! all && forall p :: p in all ==> p in t
      modifies this
      ensures Dealt(nodes, t, before + all, f)
      ensures ok == NoneStuck(t, all, f)
      ensures forall p :: p in dirs <==> p in all && IsDir(t, p)
    {
      var todo := all;
      ghost var dealt := before;
      ok, dirs := true, {};
      while todo != {}
        invariant todo <= all && forall p :: p in dealt <==> p in before || (p in all && p !in todo)
        invariant Dealt(nodes, t, dealt, f)
        invariant ok == forall p :: p in all && p !in todo ==> !Stuck(t, p, f)
        invariant forall p :: p in dirs <==> p in all && p !in todo && IsDir(t, p)
        decreases |todo|
      {
        var e :| e in todo;
        var fine, dir := Entry(e, f, t, dealt);
        todo := todo - {e};
        ok := ok && fine;
        if dir {
          dirs := dirs + {e};
        }
        dealt := dealt + {e};
      }
    }

    /** One turn of the walk. */
    method Visit(cur: Path, f: Faults, ghost t: Tree, ghost seen: set<Path>) returns (ok: bool, dirs: set<Path>)
      requires cur !in seen && Dealt(nodes, t, EntriesOf(t, seen, f), f)
      modifies this
      ensures Dealt(nodes, t, EntriesOf(t, seen + {cur}, f), f)
      ensures ok == VisitSound(t, cur, f)
      ensures forall p :: p in dirs <==> cur !in f.scan && p in Children(t, cur) && IsDir(t, p)
    {
      EntriesNext(t, seen, f, cur);
      if cur in f.scan {
        return false, {};
      }
      var listing := Children(nodes, cur);
      assert listing == Children(t, cur);
      ok, dirs := Entries(listing, f, t, EntriesOf(t, seen, f));
    }

    /** `sever_links`. */
    method SeverLinks(root: Path, f: Faults) returns (ok: bool)
      requires WellFormed(nodes)
      modifies this
      ensures ok == Sound(old(nodes), root, f)
      ensures forall p :: p in nodes <==> p in old(nodes) && p !in Severed(old(nodes), root, f)
      ensures forall p :: p in nodes ==> nodes[p] == old(nodes)[p]
    {
      ghost var t := nodes;
      if root !in nodes || !nodes[root].Dir? {
        forall p | p in t && Under(root, p)
          ensures p == root
        {
          NothingBelow(t, root, p);
        }
        return false;
      }
      ok := true;
      var work := {root};
      ghost var seen: set<Path> := {};
      ghost var left := t.Keys;
      while work != {}
        invariant Walk(t, root, f, seen, work)
        invariant Dealt(nodes, t, EntriesOf(t, seen, f), f)
        invariant ok == WalkSound(t, seen, f)
        invariant left == t.Keys - seen
        decreases left
      {
        var cur :| cur in work;
        var fine, dirs := Visit(cur, f, t, seen);
        WalkNext(t, root, f, seen, work, cur, dirs);
        WalkSoundNext(t, seen, f, cur);
        work := work - {cur} + dirs;
        seen := seen + {cur};
        left := left - {cur};
        ok := ok && fine;
      }
      WalkSevers(t, nodes, root, f, seen);
    }

    /**
     `_remove_locked`, once its owner may remove the worktree: archive, sever, and only
     then delete. The delete takes what it takes, of what it can reach from the root,
     following links: it may leave files behind, and still the answer is yes. `failed`:
     the last attempt raised, after the delete.
     */
    method Remove(root: Path, archived: bool, force: bool, f: Faults, took: set<Path>, failed: bool) returns (ok: bool)
      requires WellFormed(nodes)
      requires forall p :: p in took ==> CanReach(Swept(nodes, root, f), root, p)
      modifies this
      ensures ok == ((archived || force) && Sound(old(nodes), root, f) && !failed)
      ensures
        var severed := if archived || force then Severed(old(nodes), root, f) else {};
        var deleted := if (archived || force) && Sound(old(nodes), root, f) then took else {};
        forall p :: p in nodes <==> p in old(nodes) && p !in severed && p !in deleted
      ensures forall p :: p in nodes ==> nodes[p] == old(nodes)[p]
      ensures NoneOverlooked(old(nodes), root, f) ==>
        forall p :: p in old(nodes) && !Under(root, p) ==> p in nodes
    {
      if !archived && !force {
        return false;
      }
      ghost var t := nodes;
      ok := SeverLinks(root, f);
      if ok {
        TakesOnlyTheTree(t, root, f, took);
        nodes := map p | p in nodes && p !in took :: nodes[p];
        ok := !failed;
      }
    }
  }

  // ----- what it is good for ----------------------------------------------------------------

  /** Only links go, and only below the root. */
  lemma {:induction false} OnlyLinksGo(t: Tree, root: Path, f: Faults, p: Path)
    requires p in Severed(t, root, f)
    ensures IsLink(t, p) && Under(root, p) && p != root
  {
  }

  lemma {:induction false} SoundListsAll(t: Tree, root: Path, f: Faults, p: Path)
    requires WellFormed(t) && IsDir(t, root) && p in t && Under(root, p)
    requires forall d :: d in t && IsDir(t, d) && Listed(root, d, f) ==> d !in f.scan
    ensures Listed(root, p, f)
    decreases |p|
  {
    if p != root {
      var d := Parent(p);
      assert p[..|root|] == d[..|root|];
      SoundListsAll(t, root, f, d);
      ListedChild(root, p, f);
    }
  }

  predicate AllListed(t: Tree, root: Path, f: Faults) {
    IsDir(t, root) && forall d :: d in t && IsDir(t, d) && Under(root, d) ==> d !in f.scan
  }

  /** A link under the root that is there after the walk. */
  predicate Left(t: Tree, root: Path, f: Faults, p: Path) {
    IsLink(t, p) && Under(root, p) && p !in Severed(t, root, f)
  }

  predicate NoLinkLeft(t: Tree, root: Path, f: Faults) {
    forall p :: p in t ==> !Left(t, root, f, p)
  }

  predicate NoneOverlooked(t: Tree, root: Path, f: Faults) {
    forall p :: p in t && IsLink(t, p) && Under(root, p) ==> !Overlooked(f, p)
  }

  /** The answer is yes exactly if every directory of the tree was listed and any link left in it was overlooked. */
  lemma {:induction false} OkExact(t: Tree, root: Path, f: Faults)
    requires WellFormed(t)
    ensures Sound(t, root, f) <==>
      AllListed(t, root, f) && forall p :: p in t && Left(t, root, f, p) ==> Overlooked(f, p)
  {
    if IsDir(t, root) && forall d :: d in t && IsDir(t, d) && Listed(root, d, f) ==> d !in f.scan {
      forall p | p in t && Under(root, p)
        ensures Listed(root, p, f)
      {
        SoundListsAll(t, root, f, p);
      }
    }
  }

  /** The answer is yes exactly if everything was listed and no link is left at any depth. */
  predicate AnswerIsRight(t: Tree, root: Path, f: Faults) {
    Sound(t, root, f) <==> AllListed(t, root, f) && NoLinkLeft(t, root, f)
  }

  /** Links can be overlooked in listed directories only. */
  ghost predicate TestsWork(f: Faults) {
    forall p :: p != [] && Overlooked(f, p) ==> Parent(p) in f.scan
  }

  function Prefixes(p: Path): set<Path> {
    set n | 0 <= n <= |p| :: p[..n]
  }

  /** The directories on the way to `p`, and a link there. */
  function Chain(p: Path): Tree {
    map q | q in Prefixes(p) :: if q == p then Link([]) else Dir
  }

  lemma {:induction false} PrefixesAre(p: Path, q: Path)
    ensures q in Prefixes(p) <==> q <= p
  {
    if q <= p {
      assert p[..|q|] == q;
    }
  }

  lemma {:induction false} ChainHasLink(p: Path)
    requires p != []
    ensures WellFormed(Chain(p)) && IsLink(Chain(p), p) && IsDir(Chain(p), Parent(p))
    ensures forall q :: q in Chain(p) && Under(Parent(p), q) ==> q == p || q == Parent(p)
  {
    PrefixesAre(p, p);
    PrefixesAre(p, Parent(p));
    forall q | q in Chain(p)
      ensures q != [] ==> Parent(q) in Chain(p) && Chain(p)[Parent(q)].Dir?
      ensures Under(Parent(p), q) ==> q == p || q == Parent(p)
    {
      PrefixesAre(p, q);
      if q != [] {
        PrefixesAre(p, Parent(q));
      }
    }
  }

  /** An entry of a directory that is listed and not searchable is passed over, and the answer is yes. */
  lemma {:induction false} OverlookedIsWrong(f: Faults, p: Path)
    requires p != [] && Overlooked(f, p) && Parent(p) !in f.scan
    ensures WellFormed(Chain(p)) && !AnswerIsRight(Chain(p), Parent(p), f)
  {
    ChainHasLink(p);
    OkExact(Chain(p), Parent(p), f);
    assert Left(Chain(p), Parent(p), f, p);
  }

  lemma {:induction false} RightWhenTestsWork(t: Tree, root: Path, f: Faults)
    requires WellFormed(t) && TestsWork(f)
    ensures AnswerIsRight(t, root, f)
  {
    OkExact(t, root, f);
    if AllListed(t, root, f) {
      forall p | p in t && Left(t, root, f, p)
        ensures !Overlooked(f, p)
      {
        if p != root {
          assert Parent(p)[..|root|] == p[..|root|];
        }
      }
    }
  }

  /**
   In every tree the answer is yes exactly if every directory was listed and no link
   is left, if and only if no test of an entry of a listed directory fails.
   */
  lemma {:induction false} OkIffNoLinkLeft(f: Faults)
    ensures (forall t, root :: WellFormed(t) ==> AnswerIsRight(t, root, f)) <==> TestsWork(f)
  {
    if TestsWork(f) {
      forall t, root | WellFormed(t)
        ensures AnswerIsRight(t, root, f)
      {
        RightWhenTestsWork(t, root, f);
      }
    } else {
      var p :| p != [] && Overlooked(f, p) && Parent(p) !in f.scan;
      OverlookedIsWrong(f, p);
    }
  }

  /** What a delete of `from` that follows links gets to, through at most `n` of them. */
  ghost predicate Reaches(t: Tree, from: Path, q: Path, n: nat)
    decreases n
  {
    Under(from, q) || (n > 0 && exists l :: IsLink(t, l) && Under(from, l) && Reaches(t, t[l].target, q, n - 1))
  }

  ghost predicate CanReach(t: Tree, from: Path, q: Path) {
    exists n: nat :: Reaches(t, from, q, n)
  }

  /** The tree as the walk leaves it. */
  function Swept(t: Tree, root: Path, f: Faults): Tree {
    map p | p in t && p !in Severed(t, root, f) :: t[p]
  }

  predicate PointsInside(t: Tree, root: Path) {
    forall l :: l in t && IsLink(t, l) && Under(root, l) ==> Under(root, t[l].target)
  }

  lemma {:induction false} InsideStaysInside(t: Tree, root: Path, from: Path, q: Path, n: nat)
    requires PointsInside(t, root) && Under(root, from) && Reaches(t, from, q, n)
    ensures Under(root, q)
    decreases n
  {
    if !Under(from, q) {
      var l :| IsLink(t, l) && Under(from, l) && Reaches(t, t[l].target, q, n - 1);
      InsideStaysInside(t, root, t[l].target, q, n - 1);
    }
  }

  /** A delete that follows links stays inside the root exactly if all links there point inside. */
  lemma {:induction false} DeleteStaysInsideIff(t: Tree, root: Path)
    ensures (forall q :: CanReach(t, root, q) ==> Under(root, q)) <==> PointsInside(t, root)
  {
    if PointsInside(t, root) {
      forall q | CanReach(t, root, q)
        ensures Under(root, q)
      {
        var n: nat :| Reaches(t, root, q, n);
        InsideStaysInside(t, root, root, q, n);
      }
    } else {
      var l :| l in t && IsLink(t, l) && Under(root, l) && !Under(root, t[l].target);
      assert Reaches(t, t[l].target, t[l].target, 0);
      assert Reaches(t, root, t[l].target, 1);
    }
  }

  /** After a walk that answered yes with no link overlooked, even such a delete reaches the tree only. */
  lemma {:induction false} DeleteReachesOnlyTheTree(t: Tree, root: Path, f: Faults, q: Path)
    requires WellFormed(t) && Sound(t, root, f) && NoneOverlooked(t, root, f)
    requires CanReach(Swept(t, root, f), root, q)
    ensures Under(root, q)
  {
    OkExact(t, root, f);
    forall l | IsLink(Swept(t, root, f), l) && Under(root, l)
      ensures false
    {
      assert Left(t, root, f, l);
    }
    DeleteStaysInsideIff(Swept(t, root, f), root);
  }

  lemma {:induction false} TakesOnlyTheTree(t: Tree, root: Path, f: Faults, took: set<Path>)
    requires WellFormed(t) && Sound(t, root, f)
    requires forall p :: p in took ==> CanReach(Swept(t, root, f), root, p)
    ensures NoneOverlooked(t, root, f) ==> forall p :: p in took ==> Under(root, p)
  {
    if NoneOverlooked(t, root, f) {
      forall p | p in took
        ensures Under(root, p)
      {
        DeleteReachesOnlyTheTree(t, root, f, p);
      }
    }
  }

  /** A link that the walk left behind lets it reach the link's target. */
  lemma {:induction false} LeftLinkReachesItsTarget(t: Tree, root: Path, f: Faults, p: Path)
    requires p in t && Left(t, root, f, p)
    ensures CanReach(Swept(t, root, f), root, t[p].target)
  {
    var t' := Swept(t, root, f);
    assert Reaches(t', t'[p].target, t'[p].target, 0);
    assert Reaches(t', root, t[p].target, 1);
  }
}
