/** The operations of blk-cgroup.c on the groups of BlkgTree. */
module BlkgQueues {
  import opened BlkgTree
  import opened Lists
  import opened Options

  /** How many of g and its ancestors have no blkg on the queue. */
  ghost function MissingUp(s: State, q: nat, g: nat): nat
    requires Tree(s.groups, s.parent, s.depth) && g in s.groups
    decreases s.depth[g]
  {
    (if g in At(s.lists, q) then 0 else 1) + if g in s.parent then MissingUp(s, q, s.parent[g]) else 0
  }

  lemma {:induction false} OneFewer(s: State, t: State, q: nat, x: nat, g: nat)
    requires Tree(s.groups, s.parent, s.depth) && Tree(t.groups, t.parent, t.depth) && g in s.groups && x in s.groups
    requires t.groups == s.groups && t.parent == s.parent && t.depth == s.depth
    requires Above(s, x, g) && x !in At(s.lists, q) && At(t.lists, q) == [x] + At(s.lists, q)
    ensures MissingUp(t, q, g) == MissingUp(s, q, g) - 1
    decreases s.depth[g]
  {
    if g in s.parent && g != x {
      OneFewer(s, t, q, x, s.parent[g]);
    }
    if g == x && g in s.parent {
      SameAbove(s, t, q, x, s.parent[g]);
    }
  }

  /** A blkg further down does not count for the ancestors above it. */
  lemma {:induction false} SameAbove(s: State, t: State, q: nat, x: nat, g: nat)
    requires Tree(s.groups, s.parent, s.depth) && Tree(t.groups, t.parent, t.depth) && g in s.groups && x in s.groups
    requires t.groups == s.groups && t.parent == s.parent && t.depth == s.depth
    requires s.depth[g] < s.depth[x] && At(t.lists, q) == [x] + At(s.lists, q)
    ensures MissingUp(t, q, g) == MissingUp(s, q, g)
    decreases s.depth[g]
  {
    if g in s.parent {
      SameAbove(s, t, q, x, s.parent[g]);
    }
  }

  lemma {:induction false} AboveTrans(s: State, p: nat, m: nat, g: nat)
    requires Tree(s.groups, s.parent, s.depth) && g in s.groups && m in s.groups && Above(s, p, m) && Above(s, m, g)
    ensures Above(s, p, g)
    decreases s.depth[g]
  {
    if m != g {
      AboveTrans(s, p, m, s.parent[g]);
    }
  }

  /** x is the nearest of g's ancestors that has a blkg on the queue. */
  ghost predicate Nearest(s: State, q: nat, g: nat, x: nat)
    requires Tree(s.groups, s.parent, s.depth) && g in s.groups
    decreases s.depth[g]
  {
    g in s.parent && if s.parent[g] in At(s.lists, q) then x == s.parent[g] else Nearest(s, q, s.parent[g], x)
  }

  ghost predicate NoneAbove(s: State, q: nat, g: nat)
    requires Tree(s.groups, s.parent, s.depth) && g in s.groups
    decreases s.depth[g]
  {
    g !in At(s.lists, q) && (g in s.parent ==> NoneAbove(s, q, s.parent[g]))
  }

  /** Why a blkcg has no blkg on the queue after blkg_lookup_create: the first one missing could not be made. */
  ghost predicate Blocked(s: State, q: nat, g: nat, refused: set<nat>)
    requires Tree(s.groups, s.parent, s.depth) && g in s.groups
  {
    exists x :: x in s.groups && Above(s, x, g) && x !in At(s.lists, q)
              && (q in s.dying || !s.groups[x].online || x in refused)
  }

  /** The list of the queue has only grown, by blkgs of g and its ancestors. */
  ghost predicate Grown(s: State, t: State, q: nat, g: nat)
    requires Tree(s.groups, s.parent, s.depth) && g in s.groups
  {
    && (forall r :: r != q ==> At(t.lists, r) == At(s.lists, r))
    && |At(s.lists, q)| <= |At(t.lists, q)| && At(t.lists, q)[|At(t.lists, q)| - |At(s.lists, q)|..] == At(s.lists, q)
    && (forall x :: x in At(t.lists, q) && x !in At(s.lists, q) ==> x in s.groups && Above(s, x, g))
  }

  /** Nothing is half torn down: a blkcg without pins has no blkgs and has put back its pin on its parent. */
  ghost predicate AtRest(s: State) {
    forall g :: g in s.groups && s.groups[g].pin == 0 ==> At(s.owned, g) == [] &&
                                                          (g in s.parent ==> s.groups[g].released)
  }

  class Blkcgs {
    var groups: map<nat, Blkcg>
    var parent: map<nat, nat>
    ghost var depth: map<nat, nat>
    var lists: map<nat, seq<nat>>
    var owned: map<nat, seq<nat>>
    var dying: set<nat>
    var rootBlkg: map<nat, nat>

    ghost function Now(): State
      reads this
    {
      State(groups, parent, depth, lists, owned, dying)
    }

    /** blkg_create. `refused`: the blkcgs for which memory or a tree node cannot be had. */
    method BlkgCreate(q: nat, g: nat, refused: set<nat>) returns (ok: bool)
      requires Ok(Now()) && g in groups
      modifies this`lists, this`owned
      ensures Ok(Now())
      ensures ok <==> Enabled(old(Now()), Create(q, g)) && g !in refused
      ensures ok <==> q !in dying && groups[g].online && g !in refused && g !in old(At(lists, q))
                      && (g in parent ==> parent[g] in old(At(lists, q)))
      ensures ok ==> lists == old(lists)[q := [g] + old(At(lists, q))] &&
                     owned == old(owned)[g := [q] + old(At(owned, g))]
      ensures Now() == if ok then After(old(Now()), Create(q, g)) else old(Now())
    {
      hide Ok;
      TreeOf(Now());
      if q in dying {
        return false;
      }
      if !groups[g].online {
        return false;
      }
      if g in refused {
        return false;
      }
      if g in parent && parent[g] !in At(lists, q) {
        return false;
      }
      if g in At(lists, q) {
        return false;
      }
      CreateKeeps(Now(), q, g);
      owned := owned[g := [q] + At(owned, g)];
      lists := lists[q := [g] + At(lists, q)];
      return true;
    }

    /** The topmost of g and its ancestors to be created, and the blkg closest to g so far. */
    method FirstMissing(q: nat, g: nat) returns (pos: nat, closest: Option<nat>)
      requires Ok(Now()) && g in groups && g !in At(lists, q)
      ensures Tree(groups, parent, depth)
      ensures pos in groups && Above(Now(), pos, g) && pos !in At(lists, q) &&
            (pos in parent ==> parent[pos] in At(lists, q))
      ensures match closest
              case Some(x) => x in groups && Nearest(Now(), q, g, x)
              case None => NoneAbove(Now(), q, g)
    {
      TreeOf(Now());
      pos := g;
      while pos in parent && parent[pos] !in At(lists, q)
        invariant pos in groups && Above(Now(), pos, g) && pos !in At(lists, q)
        invariant forall x :: Nearest(Now(), q, pos, x) ==> Nearest(Now(), q, g, x)
        invariant NoneAbove(Now(), q, pos) ==> NoneAbove(Now(), q, g)
        decreases depth[pos]
      {
        AboveTrans(Now(), parent[pos], pos, g);
        pos := parent[pos];
      }
      closest := if pos in parent then Some(parent[pos]) else None;
    }

    /** blkg_lookup_create: creates the missing blkgs from the root side down, as far as that goes, and returns the one
        asked for or the closest there is. */
    method BlkgLookupCreate(q: nat, g: nat, refused: set<nat>) returns (r: Option<nat>)
      requires Ok(Now()) && g in groups
      modifies this`lists, this`owned
      ensures Ok(Now()) && Tree(groups, parent, depth) && Grown(old(Now()), Now(), q, g)
      ensures g in At(lists, q) ==> r == Some(g)
      ensures g !in At(lists, q) ==> Blocked(Now(), q, g, refused)
      ensures g !in At(lists, q) ==> (r.Some? && Nearest(Now(), q, g, r.value))
                                     || (NoneAbove(Now(), q, g) &&
                                         r == if q in rootBlkg then Some(rootBlkg[q]) else None)
    {
      hide Ok, Grown, Blocked, Nearest, NoneAbove, MissingUp, Above;
      TreeOf(Now());
      GrownSelf(Now(), q, g);
      if g in At(lists, q) {
        return Some(g);
      }
      while true
        invariant Ok(Now()) && g !in At(lists, q) && Grown(old(Now()), Now(), q, g)
        invariant Tree(groups, parent, depth)
        decreases MissingUp(Now(), q, g)
      {
        var pos, closest := FirstMissing(q, g);
        var ret := if closest.Some? then closest else if q in rootBlkg then Some(rootBlkg[q]) else None;
        ghost var before := Now();
        var ok := BlkgCreate(q, pos, refused);
        if !ok {
          BlockedAt(Now(), q, g, pos, refused);
          return ret;
        }
        OneFewer(before, Now(), q, pos, g);
        AboveSame(old(Now()), before, pos, g);
        GrownMore(old(Now()), before, Now(), q, g, pos);
        if pos == g {
          return Some(g);
        }
      }
    }

    /** blkg_destroy */
    method BlkgDestroy(q: nat, g: nat)
      requires Ok(Now()) && Tree(groups, parent, depth) && Enabled(Now(), Destroy(q, g))
      modifies this`lists, this`owned
      ensures Ok(Now()) && Now() == After(old(Now()), Destroy(q, g))
      ensures |At(lists, q)| < |At(old(lists), q)| && |At(owned, g)| < |At(old(owned), g)|
      ensures g !in At(lists, q) && q !in At(owned, g)
      ensures (forall r :: r != q ==> At(lists, r) == At(old(lists), r)) &&
            (forall h :: h != g ==> At(owned, h) == At(old(owned), h))
    {
      hide Ok, Unlinked;
      DestroyKeeps(Now(), q, g);
      Shorter(Now(), q, g);
      OffBoth(Now(), q, g);
      ghost var before := Now();
      lists := lists[q := Unlinked(At(lists, q), g)];
      owned := owned[g := Unlinked(At(owned, g), q)];
      AtChange(before.lists, q, Unlinked(At(before.lists, q), g), lists);
      AtChange(before.owned, g, Unlinked(At(before.owned, g), q), owned);
    }

    /** Others have run meanwhile. */
    method Yield(after: State)
      modifies this`groups, this`parent, this`depth, this`lists, this`owned, this`dying
      ensures Now() == after
    {
      groups, parent, depth := after.groups, after.parent, after.depth;
      lists, owned, dying := after.lists, after.owned, after.dying;
    }

    /** blkg_destroy_all: empties the list of a queue from its head, `batch` blkgs at a time; in between the lock is
        dropped, at the states `unlocked`, and the others leave the states `turns`. */
    method BlkgDestroyAll(q: nat, batch: nat, turns: seq<State>) returns (ghost unlocked: seq<State>)
      requires Ok(Now()) && 1 <= batch && forall i :: 0 <= i < |turns| ==> Ok(turns[i])
      modifies this
      ensures Ok(Now()) && At(lists, q) == [] && rootBlkg == old(rootBlkg) - {q}
      ensures InBatches(old(Now()), q, batch, turns, unlocked)
      ensures var s := Resumed(old(Now()), turns, unlocked, |unlocked|);
              |At(s.lists, q)| < batch && Shed(s, Now(), q, |At(s.lists, q)|)
    {
      hide Ok, Shed, InBatches;
      var rest := turns;
      var count := batch;
      unlocked := [];
      ghost var s := Now();
      NoneShed(s, q);
      NoBatches(s, q, batch, turns);
      while At(lists, q) != []
        invariant Ok(Now()) && 1 <= count <= batch && rootBlkg == old(rootBlkg) && rest == Waiting(turns, |unlocked|)
        invariant InBatches(old(Now()), q, batch, turns, unlocked)
        invariant s == Resumed(old(Now()), turns, unlocked, |unlocked|) && Ok(s) && Shed(s, Now(), q, batch - count)
        decreases |rest|, |At(lists, q)|
      {
        var g := At(lists, q)[0];
        HeadLinked(Now(), q);
        ghost var mid := Now();
        if q in At(owned, g) {
          BlkgDestroy(q, g);
        }
        OneShed(s, mid, q, batch - count);
        count := count - 1;
        if count == 0 {
          OneBatch(old(Now()), q, batch, turns, unlocked, Now());
          unlocked := unlocked + [Now()];
          count := batch;
          if rest != [] {
            Yield(rest[0]);
            rest := rest[1..];
          }
          s := Now();
          NoneShed(s, q);
        }
      }
      ShedLeft(s, Now(), q, batch - count);
      rootBlkg := rootBlkg - {q};
    }

    /** blkcg_destroy_blkgs. `turns`: how many queue locks are had until one is busy, or the CPU is wanted, and what the
        others leave then. The blkcg's own lock is dropped at the states `unlocked`. */
    method BlkcgDestroyBlkgs(g: nat, turns: seq<Busy>) returns (ghost unlocked: seq<State>)
      requires Ok(Now()) && Unpinned(Now(), g)
      requires forall i :: 0 <= i < |turns| ==> Ok(turns[i].after) && Unpinned(turns[i].after, g)
      modifies this`groups, this`parent, this`depth, this`lists, this`owned, this`dying
      ensures Ok(Now()) && Unpinned(Now(), g) && At(owned, g) == []
      ensures InTurns(old(Now()), g, turns, unlocked)
      ensures var s := Resumed(old(Now()), Left(turns), unlocked, |unlocked|);
              && Cleared(s, Now(), g, |At(s.owned, g)|)
              && (|unlocked| < |turns| ==> |At(s.owned, g)| <= turns[|unlocked|].had)
    {
      hide Ok, Cleared, InTurns, Unpinned;
      var rest, had := turns, 0;
      unlocked := [];
      ghost var s := Now();
      NoneCleared(s, g);
      NoTurns(s, g, turns);
      while At(owned, g) != []
        invariant Ok(Now()) && Unpinned(Now(), g) && |unlocked| <= |turns| && rest == turns[|unlocked|..]
        invariant InTurns(old(Now()), g, turns, unlocked) && (rest != [] ==> had <= rest[0].had)
        invariant s == Resumed(old(Now()), Left(turns), unlocked, |unlocked|) && Ok(s) && Cleared(s, Now(), g, had)
        decreases |rest|, |At(owned, g)|
      {
        if rest != [] && had == rest[0].had {
          OneTurn(old(Now()), g, turns, unlocked, Now());
          unlocked := unlocked + [Now()];
          Yield(rest[0].after);
          rest, had := rest[1..], 0;
          s := Now();
          NoneCleared(s, g);
          continue;
        }
        var q := At(owned, g)[0];
        OwnedLinked(Now(), g);
        ghost var mid := Now();
        BlkgDestroy(q, g);
        StillUnpinned(mid, Now(), g);
        OneCleared(s, mid, g, had);
        had := had + 1;
      }
      ClearedLeft(s, Now(), g, had);
    }

    /** The reference count goes down by one of g's own pins. */
    method DropPin(g: nat, base: bool)
      requires Ok(Now()) && Tree(groups, parent, depth) && Enabled(Now(), if base then DropBase(g) else DropExt(g))
      modifies this`groups
      ensures Ok(Now()) && Now() == After(old(Now()), if base then DropBase(g) else DropExt(g))
    {
      hide Ok;
      if base {
        DropBaseKeeps(Now(), g);
        groups := groups[g := groups[g].(phase := Offline, pin := groups[g].pin - 1)];
      } else {
        PinKeeps(Now(), g, -1);
        groups := groups[g := groups[g].(ext := groups[g].ext - 1, pin := groups[g].pin - 1)];
      }
    }

    /** ... or by the pin that a torn down child of g's parent held. */
    method DropChildPin(g: nat)
      requires Ok(Now()) && Tree(groups, parent, depth) && Enabled(Now(), DropChild(g))
      modifies this`groups
      ensures Ok(Now()) && Now() == After(old(Now()), DropChild(g))
    {
      hide Ok;
      DropChildKeeps(Now(), g);
      var p := parent[g];
      groups := groups[g := groups[g].(released := true)];
      groups := groups[p := groups[p].(pin := groups[p].pin - 1)];
    }

    /** blkcg_unpin_online: puts back a pin of g, its base pin or one of writeback. The blkcgs that this leaves without
        pins, all on the way from g to the root, lose their blkgs and put back their pins on their parents; nothing else
        changes. */
    method BlkcgUnpinOnline(g: nat, base: bool) returns (ghost gone: set<nat>)
      requires Ok(Now()) && Tree(groups, parent, depth) && Enabled(Now(), if base then DropBase(g) else DropExt(g)) &&
            AtRest(Now())
      modifies this`groups, this`parent, this`depth, this`lists, this`owned, this`dying
      ensures Ok(Now()) && AtRest(Now()) && Rewound(old(Now()), Now(), g, base, gone)
      ensures forall h :: h in gone <==> h in groups && h in old(groups) && 0 < old(groups)[h].pin && groups[h].pin == 0
      ensures forall h :: h in gone ==> Above(old(Now()), h, g)
    {
      hide Ok, Tree, Rewound, AtRest, AtRestBut, Enabled, Rewinding, Came, TornDown;
      ghost var s := Now();
      OwnPinHeld(s, g, base);
      DropPin(g, base);
      FirstRewound(s, Now(), g, base);
      var b := g;
      gone := {};
      while groups[b].pin == 0
        invariant Ok(Now()) && AtRestBut(Now(), b) && Rewinding(s, Now(), g, base, gone, b)
        invariant b in groups && b in depth && b !in gone && !groups[b].released
        decreases depth[b]
      {
        ghost var mid := Now();
        var last := TearDown(b);
        if last {
          LastRewound(s, mid, Now(), g, base, gone, b);
          gone := gone + {b};
          break;
        }
        NextRewound(s, mid, Now(), g, base, gone, b);
        gone := gone + {b};
        b := parent[b];
      }
      if b !in gone {
        WayEnded(s, Now(), g, base, gone, b);
        RestAll(Now(), b);
      }
      GoneExactly(s, Now(), g, base, gone, b);
    }

    /** One round of it: g has no pin left. `last`: g is the root. */
    method TearDown(g: nat) returns (last: bool)
      requires Ok(Now()) && Unpinned(Now(), g) && AtRestBut(Now(), g) && !groups[g].released
      modifies this`groups, this`parent, this`depth, this`lists, this`owned, this`dying
      ensures Ok(Now()) && (last <==> g !in parent) && TornDown(old(Now()), Now(), g)
      ensures last ==> AtRest(Now())
      ensures !last ==> parent[g] in groups && !groups[parent[g]].released && AtRestBut(Now(), parent[g])
    {
      hide Ok, Tree;
      TreeOf(Now());
      ZeroPin(Now(), g);
      ghost var unlocked := BlkcgDestroyBlkgs(g, []);
      ClearedAll(old(Now()), Now(), g);
      TreeOf(Now());
      last := g !in parent;
      if !last {
        ParentOf(Now(), g);
        DropChildPin(g);
        TreeOf(Now());
      }
    }

    /** blkcg_css_online pins the parent. */
    method BlkcgCssOnline(g: nat)
      requires Ok(Now()) && Tree(groups, parent, depth) && Enabled(Now(), CssOnline(g))
      modifies this`groups
      ensures Ok(Now()) && Now() == After(old(Now()), CssOnline(g))
      ensures g in groups && groups[g].online && groups[g].phase == Live
      ensures g in parent ==> parent[g] in groups && parent[g] != g
                              && groups[parent[g]].pin == old(groups)[parent[g]].pin + 1
    {
      hide Ok;
      OnlineKeeps(Now(), g);
      groups := groups[g := groups[g].(phase := Live, online := true)];
      if g in parent {
        BlkcgPinOnline(parent[g]);
      }
    }

    method BlkcgPinOnline(g: nat)
      requires g in groups
      modifies this`groups
      ensures groups == old(groups)[g := old(groups[g]).(pin := old(groups[g].pin) + 1)]
    {
      groups := groups[g := groups[g].(pin := groups[g].pin + 1)];
    }
  }

  lemma {:induction false} AboveSame(s: State, t: State, p: nat, g: nat)
    requires Tree(s.groups, s.parent, s.depth) && Tree(t.groups, t.parent, t.depth) && g in s.groups
    requires t.groups == s.groups && t.parent == s.parent && t.depth == s.depth
    ensures Above(s, p, g) == Above(t, p, g)
    decreases s.depth[g]
  {
    if g in s.parent {
      AboveSame(s, t, p, s.parent[g]);
    }
  }

  lemma GrownMore(s: State, m: State, t: State, q: nat, g: nat, x: nat)
    requires Tree(s.groups, s.parent, s.depth) && g in s.groups && Grown(s, m, q, g)
    requires x in s.groups && Above(s, x, g) && t.lists == m.lists[q := [x] + At(m.lists, q)]
    ensures Grown(s, t, q, g)
  {
    AtChange(m.lists, q, [x] + At(m.lists, q), t.lists);
  }

  lemma GrownSelf(s: State, q: nat, g: nat)
    requires Tree(s.groups, s.parent, s.depth) && g in s.groups
    ensures Grown(s, s, q, g)
  {
  }

  lemma BlockedAt(s: State, q: nat, g: nat, x: nat, refused: set<nat>)
    requires Tree(s.groups, s.parent, s.depth) && g in s.groups && x in s.groups && Above(s, x, g) &&
          x !in At(s.lists, q)
    requires q in s.dying || !s.groups[x].online || x in refused
    ensures Blocked(s, q, g, refused)
  {
  }

  ghost predicate Unpinned(s: State, g: nat) {
    g in s.groups && s.groups[g].pin == 0
  }

  ghost predicate AtRestBut(s: State, b: nat) {
    forall g :: g in s.groups && g != b && s.groups[g].pin == 0 ==> At(s.owned, g) == [] &&
                                                                    (g in s.parent ==> s.groups[g].released)
  }

  // ----- tearing down, and what it leaves alone -----

  /** Unlinking the head of a list leaves the rest. */
  lemma UnlinkedHead(list: seq<nat>)
    requires list != [] && NoDup(list)
    ensures Unlinked(list, list[0]) == list[1..]
  {
    UnlinkedAbsent(list[1..], list[0]);
  }

  /** The state when the lock is had for the i-th time: what the others have left, or nobody has come. */
  ghost function Resumed(s: State, turns: seq<State>, unlocked: seq<State>, i: nat): State
    requires i <= |unlocked|
  {
    if i == 0 then s else if i <= |turns| then turns[i - 1] else unlocked[i - 1]
  }

  ghost function Waiting(turns: seq<State>, n: nat): seq<State> {
    if n <= |turns| then turns[n..] else []
  }

  // A queue's list, from its head:

  /** The first n blkgs of the queue are gone from its list and from those of their blkcgs; nothing else has changed. */
  ghost predicate Shed(s: State, t: State, q: nat, n: nat) {
    && n <= |At(s.lists, q)| && t == s.(lists := t.lists, owned := t.owned)
    && (forall r :: At(t.lists, r) == if r == q then At(s.lists, q)[n..] else At(s.lists, r))
    && (forall h :: At(t.owned, h) == if h in At(s.lists, q)[..n] then Unlinked(At(s.owned, h), q) else At(s.owned, h))
  }

  lemma NoneShed(s: State, q: nat)
    ensures Shed(s, s, q, 0)
  {
  }

  lemma OneShed(s: State, m: State, q: nat, n: nat)
    requires Ok(s) && Ok(m) && Shed(s, m, q, n) && At(m.lists, q) != [] && Tree(m.groups, m.parent, m.depth)
    requires Enabled(m, Destroy(q, At(m.lists, q)[0]))
    ensures Shed(s, After(m, Destroy(q, At(m.lists, q)[0])), q, n + 1)
  {
    hide Ordered, Pinned, Phased, Housed, Unlinked, Tree;
    var list, g := At(s.lists, q), At(m.lists, q)[0];
    var t := After(m, Destroy(q, g));
    assert NoDup(list) && NoDup(At(m.lists, q));
    assert g == list[n] && list[..n + 1] == list[..n] + [g] && g !in list[..n];
    UnlinkedHead(At(m.lists, q));
    AtChange(m.lists, q, Unlinked(At(m.lists, q), g), t.lists);
    AtChange(m.owned, g, Unlinked(At(m.owned, g), q), t.owned);
  }

  lemma ShedLeft(s: State, t: State, q: nat, n: nat)
    requires Shed(s, t, q, n) && At(t.lists, q) == []
    ensures n == |At(s.lists, q)|
  {
  }

  /** Whenever the lock is dropped the books are in order, and just one batch has gone since it was had. */
  ghost predicate InBatches(s: State, q: nat, batch: nat, turns: seq<State>, unlocked: seq<State>) {
    forall i :: 0 <= i < |unlocked| ==> Ok(unlocked[i]) && Shed(Resumed(s, turns, unlocked, i), unlocked[i], q, batch)
  }

  lemma NoBatches(s: State, q: nat, batch: nat, turns: seq<State>)
    ensures InBatches(s, q, batch, turns, [])
  {
  }

  lemma OneBatch(s: State, q: nat, batch: nat, turns: seq<State>, unlocked: seq<State>, t: State)
    requires InBatches(s, q, batch, turns, unlocked) && Ok(t)
    requires Shed(Resumed(s, turns, unlocked, |unlocked|), t, q, batch)
    ensures InBatches(s, q, batch, turns, unlocked + [t])
  {
    hide Ok, Shed;
    forall i | 0 <= i <= |unlocked| ensures Resumed(s, turns, unlocked + [t], i) == Resumed(s, turns, unlocked, i) {
    }
  }

  // A blkcg's list, from its head:

  /** `had` times a queue's lock is had, then not, and the others leave the state `after`. */
  datatype Busy = Busy(had: nat, after: State)

  ghost function Left(turns: seq<Busy>): seq<State> {
    seq(|turns|, i requires 0 <= i < |turns| => turns[i].after)
  }

  /** The first n blkgs of g are gone from its list and from those of their queues; nothing else has changed. */
  ghost predicate Cleared(s: State, t: State, g: nat, n: nat) {
    && n <= |At(s.owned, g)| && t == s.(lists := t.lists, owned := t.owned)
    && (forall h :: At(t.owned, h) == if h == g then At(s.owned, g)[n..] else At(s.owned, h))
    && (forall q :: At(t.lists, q) == if q in At(s.owned, g)[..n] then Unlinked(At(s.lists, q), g) else At(s.lists, q))
  }

  lemma NoneCleared(s: State, g: nat)
    ensures Cleared(s, s, g, 0)
  {
  }

  lemma OneCleared(s: State, m: State, g: nat, n: nat)
    requires Ok(s) && Ok(m) && Cleared(s, m, g, n) && At(m.owned, g) != [] && Tree(m.groups, m.parent, m.depth)
    requires Enabled(m, Destroy(At(m.owned, g)[0], g))
    ensures Cleared(s, After(m, Destroy(At(m.owned, g)[0], g)), g, n + 1)
  {
    hide Ordered, Pinned, Phased, Housed, Unlinked, Tree;
    var list, q := At(s.owned, g), At(m.owned, g)[0];
    var t := After(m, Destroy(q, g));
    assert NoDup(list) && NoDup(At(m.owned, g));
    assert q == list[n] && list[..n + 1] == list[..n] + [q] && q !in list[..n];
    UnlinkedHead(At(m.owned, g));
    AtChange(m.lists, q, Unlinked(At(m.lists, q), g), t.lists);
    AtChange(m.owned, g, Unlinked(At(m.owned, g), q), t.owned);
  }

  lemma ClearedLeft(s: State, t: State, g: nat, n: nat)
    requires Cleared(s, t, g, n) && At(t.owned, g) == []
    ensures n == |At(s.owned, g)|
  {
  }

  lemma StillUnpinned(s: State, t: State, g: nat)
    requires Unpinned(s, g) && t.groups == s.groups
    ensures Unpinned(t, g)
  {
  }

  /** Whenever the lock is dropped the books are in order, and just those have gone since it was had whose queues' locks
      were had too. */
  ghost predicate InTurns(s: State, g: nat, turns: seq<Busy>, unlocked: seq<State>) {
    && |unlocked| <= |turns|
    && (forall i :: 0 <= i < |unlocked| ==>
          && Ok(unlocked[i]) && At(unlocked[i].owned, g) != []
          && Cleared(Resumed(s, Left(turns), unlocked, i), unlocked[i], g, turns[i].had))
  }

  lemma NoTurns(s: State, g: nat, turns: seq<Busy>)
    ensures InTurns(s, g, turns, [])
  {
  }

  lemma OneTurn(s: State, g: nat, turns: seq<Busy>, unlocked: seq<State>, t: State)
    requires InTurns(s, g, turns, unlocked) && |unlocked| < |turns| && Ok(t) && At(t.owned, g) != []
    requires Cleared(Resumed(s, Left(turns), unlocked, |unlocked|), t, g, turns[|unlocked|].had)
    ensures InTurns(s, g, turns, unlocked + [t])
  {
    hide Ok, Cleared, Left;
    forall i | 0 <= i <= |unlocked|
      ensures Resumed(s, Left(turns), unlocked + [t], i) == Resumed(s, Left(turns), unlocked, i)
    {
    }
  }

  /** With all its blkgs gone g is on no queue's list. */
  lemma ClearedAll(s: State, t: State, g: nat)
    requires Ok(s) && Cleared(s, t, g, |At(s.owned, g)|)
    ensures t == s.(lists := t.lists, owned := t.owned)
    ensures forall h :: At(t.owned, h) == if h == g then [] else At(s.owned, h)
    ensures forall q :: At(t.lists, q) == Unlinked(At(s.lists, q), g)
  {
    hide Ordered, Pinned, Phased, Housed, Unlinked;
    forall q ensures At(t.lists, q) == Unlinked(At(s.lists, q), g) {
      if q !in At(s.owned, g) {
        UnlinkedAbsent(At(s.lists, q), g);
      }
    }
  }

  /** All blkgs of g are gone, and its pin on its parent has been put back. */
  ghost predicate TornDown(s: State, t: State, g: nat) {
    && t.parent == s.parent && t.depth == s.depth && t.dying == s.dying && g in s.groups
    && (g in s.parent ==> s.parent[g] in s.groups && s.parent[g] != g)
    && t.groups == (if g !in s.parent then s.groups else
                      var p := s.parent[g];
                      s.groups[g := s.groups[g].(released := true)][p := s.groups[p].(pin := s.groups[p].pin - 1)])
    && (forall h :: At(t.owned, h) == if h == g then [] else At(s.owned, h))
    && (forall q :: At(t.lists, q) == Unlinked(At(s.lists, q), g))
  }

  /** The list without the blkgs of the blkcgs in `gone`. */
  function Purged(list: seq<nat>, gone: set<nat>): seq<nat> {
    if list == [] then [] else (if list[0] in gone then [] else [list[0]]) + Purged(list[1..], gone)
  }

  lemma {:induction false} PurgedHas(list: seq<nat>, gone: set<nat>)
    ensures forall x :: x in Purged(list, gone) <==> x in list && x !in gone
  {
    if list != [] {
      PurgedHas(list[1..], gone);
      assert forall x :: x in list <==> x == list[0] || x in list[1..];
    }
  }

  lemma {:induction false} PurgedNone(list: seq<nat>)
    ensures Purged(list, {}) == list
  {
    if list != [] {
      PurgedNone(list[1..]);
    }
  }

  lemma {:induction false} PurgedMore(list: seq<nat>, gone: set<nat>, x: nat)
    requires NoDup(list) && x !in gone
    ensures Unlinked(Purged(list, gone), x) == Purged(list, gone + {x})
  {
    if list != [] {
      var rest := Purged(list[1..], gone);
      PurgedMore(list[1..], gone, x);
      if list[0] == x {
        PurgedHas(list[1..], gone);
        assert x !in list[1..];
        assert ([x] + rest)[1..] == rest;
        UnlinkedAbsent(rest, x);
      } else if list[0] in gone {
        assert [] + rest == rest && [] + Purged(list[1..], gone + {x}) == Purged(list[1..], gone + {x});
      } else {
        assert ([list[0]] + rest)[1..] == rest;
      }
    }
  }

  /** A torn down child has put back its pin on h. */
  ghost predicate LostChild(s: State, gone: set<nat>, h: nat) {
    exists c :: c in gone && c in s.parent && s.parent[c] == h
  }

  /** What has become of h, once g has put back one of its own pins and the blkcgs in `gone` are torn down. */
  ghost function Rest(s: State, g: nat, base: bool, gone: set<nat>, h: nat): Blkcg
    requires h in s.groups
  {
    var b := s.groups[h];
    b.(pin := b.pin - (if h == g then 1 else 0) - (if LostChild(s, gone, h) then 1 else 0),
       phase := if h == g && base then Offline else b.phase,
       ext := if h == g && !base && 0 < b.ext then b.ext - 1 else b.ext,
       released := b.released || (h in gone && h in s.parent))
  }

  ghost predicate Rewound(s: State, t: State, g: nat, base: bool, gone: set<nat>) {
    && t.parent == s.parent && t.depth == s.depth && t.dying == s.dying
    && t.groups.Keys == s.groups.Keys && (forall h :: h in s.groups && h in t.groups ==>
          t.groups[h] == Rest(s, g, base, gone, h))
    && Emptied(s, t, gone)
  }

  ghost predicate Emptied(s: State, t: State, gone: set<nat>) {
    && (forall h :: At(t.owned, h) == if h in gone then [] else At(s.owned, h))
    && (forall q :: At(t.lists, q) == Purged(At(s.lists, q), gone))
  }

  /** On the way up: `gone` are torn down, and b is the next to look at. */
  ghost predicate Rewinding(s: State, t: State, g: nat, base: bool, gone: set<nat>, b: nat) {
    && Ok(s) && Rewound(s, t, g, base, gone) && g in s.groups && (base ==> s.groups[g].phase == Live)
    && b in s.groups && b in t.groups && b in s.depth && b in t.depth
    && Tree(s.groups, s.parent, s.depth)
    && Above(s, b, g) && b !in gone && 0 < s.groups[b].pin && !t.groups[b].released
    && (b == g || LostChild(s, gone, b))
    && (forall h :: h in gone ==> h in s.groups && h in t.groups && h in s.depth && s.depth[b] < s.depth[h]
                                  && Above(s, h, g) && 0 < s.groups[h].pin && t.groups[h].pin == 0)
    && (forall h :: LostChild(s, gone, h) ==> h in gone || h == b)
    && (g in gone || g == b)
  }

  lemma FirstRewound(s: State, t: State, g: nat, base: bool)
    requires Ok(s) && Tree(s.groups, s.parent, s.depth) && AtRest(s)
    requires Enabled(s, if base then DropBase(g) else DropExt(g)) &&
          t == After(s, if base then DropBase(g) else DropExt(g))
    requires g in s.groups && 0 < s.groups[g].pin && !s.groups[g].released
    ensures Rewinding(s, t, g, base, {}, g) && AtRestBut(t, g)
    ensures g in t.groups && g in t.depth && !t.groups[g].released
  {
    hide Ok, Emptied, LostChild;
    NoneEmptied(s, t);
    NoneLost(s);
  }

  lemma NoneEmptied(s: State, t: State)
    requires t.lists == s.lists && t.owned == s.owned
    ensures Emptied(s, t, {})
  {
    hide Purged;
    forall q ensures Purged(At(s.lists, q), {}) == At(s.lists, q) {
      PurgedNone(At(s.lists, q));
    }
  }

  lemma NoneLost(s: State)
    ensures forall h :: !LostChild(s, {}, h)
  {
  }

  lemma Purging(s: State, m: State, t: State, gone: set<nat>, b: nat)
    requires Ok(s) && b !in gone && Emptied(s, m, gone) && TornDown(m, t, b)
    ensures Emptied(s, t, gone + {b})
  {
    hide Ordered, Pinned, Phased, Housed, Purged, Unlinked;
    forall q ensures At(t.lists, q) == Purged(At(s.lists, q), gone + {b}) {
      PurgedMore(At(s.lists, q), gone, b);
    }
  }

  /** One more is torn down: only it and its parent change. */
  lemma RewoundMore(s: State, m: State, t: State, g: nat, base: bool, gone: set<nat>, b: nat)
    requires Ok(s) && Rewound(s, m, g, base, gone) && TornDown(m, t, b) && b !in gone && b in s.groups && b in m.groups
    requires !m.groups[b].released
    requires b in s.parent ==> s.parent[b] in s.groups && s.parent[b] !in gone && !LostChild(s, gone, s.parent[b])
    ensures Rewound(s, t, g, base, gone + {b})
  {
    hide Ok, Emptied, LostChild, Purged, Unlinked;
    Purging(s, m, t, gone, b);
    forall h | h in s.groups && h in t.groups ensures t.groups[h] == Rest(s, g, base, gone + {b}, h) {
      Lose(s, gone, b, h);
      assert m.groups[h] == Rest(s, g, base, gone, h);
    }
  }

  lemma Lose(s: State, gone: set<nat>, b: nat, h: nat)
    ensures LostChild(s, gone + {b}, h) <==> LostChild(s, gone, h) || (b in s.parent && s.parent[b] == h)
  {
    if b in s.parent && s.parent[b] == h {
      assert b in gone + {b};
    }
  }

  lemma NotYetLost(s: State, t: State, g: nat, base: bool, gone: set<nat>, b: nat)
    requires Rewinding(s, t, g, base, gone, b) && b in s.parent
    ensures s.parent[b] in s.groups && s.parent[b] != g && s.parent[b] !in gone && !LostChild(s, gone, s.parent[b])
    ensures s.parent[b] in s.depth && s.depth[s.parent[b]] < s.depth[b] && Above(s, s.parent[b], g)
  {
    hide Ok, Rewound;
    TreeOf(s);
    Higher(s, b, g);
    AboveTrans(s, s.parent[b], b, g);
  }

  lemma {:induction false} Higher(s: State, p: nat, g: nat)
    requires Tree(s.groups, s.parent, s.depth) && g in s.groups && Above(s, p, g)
    ensures p in s.groups && p in s.depth && g in s.depth && s.depth[p] <= s.depth[g]
    decreases s.depth[g]
  {
    if p != g {
      Higher(s, p, s.parent[g]);
    }
  }

  lemma NextRewound(s: State, m: State, t: State, g: nat, base: bool, gone: set<nat>, b: nat)
    requires Rewinding(s, m, g, base, gone, b) && Ok(m) && TornDown(m, t, b) && m.groups[b].pin == 0 && b in t.parent
    requires t.parent[b] in t.groups && !t.groups[t.parent[b]].released
    ensures Rewinding(s, t, g, base, gone + {b}, t.parent[b]) && t.parent[b] in t.depth &&
          t.depth[t.parent[b]] < m.depth[b]
    ensures t.parent[b] !in gone + {b}
  {
    hide Ok, Emptied, Above, LostChild, Rest, Unlinked, Tree;
    NotYetLost(s, m, g, base, gone, b);
    RewoundMore(s, m, t, g, base, gone, b);
    forall h ensures LostChild(s, gone + {b}, h) <==> LostChild(s, gone, h) || s.parent[b] == h {
      Lose(s, gone, b, h);
    }
    ParentPinned(s, m, g, base, gone, b);
  }

  lemma ParentPinned(s: State, m: State, g: nat, base: bool, gone: set<nat>, b: nat)
    requires Rewinding(s, m, g, base, gone, b) && Ok(m) && m.groups[b].pin == 0 && b in s.parent
    ensures s.parent[b] in s.groups && 0 < s.groups[s.parent[b]].pin
  {
    hide Ok, Emptied, Above, LostChild;
    ZeroPin(m, b);
    assert m.groups[b] == Rest(s, g, base, gone, b);
    ParentOf(s, b);
  }

  lemma LastRewound(s: State, m: State, t: State, g: nat, base: bool, gone: set<nat>, b: nat)
    requires Rewinding(s, m, g, base, gone, b) && TornDown(m, t, b) && m.groups[b].pin == 0 && b !in t.parent
    ensures Came(s, t, g, base, gone + {b}, b)
  {
    hide Ok, Emptied, Above, LostChild, Rest, Unlinked;
    RewoundMore(s, m, t, g, base, gone, b);
    forall h ensures LostChild(s, gone + {b}, h) <==> LostChild(s, gone, h) {
      Lose(s, gone, b, h);
    }
  }

  /** The way up has ended: at b, which still has pins or was the root. */
  ghost predicate Came(s: State, t: State, g: nat, base: bool, gone: set<nat>, b: nat) {
    && Tree(s.groups, s.parent, s.depth) && g in s.groups && Rewound(s, t, g, base, gone)
    && (forall h :: h in gone ==> h in s.groups && h in t.groups && Above(s, h, g) && 0 < s.groups[h].pin &&
                                  t.groups[h].pin == 0)
    && (forall h :: LostChild(s, gone, h) ==> h in gone || h == b)
    && (g in gone || g == b) && (b in gone || (b in t.groups && t.groups[b].pin != 0))
  }

  lemma WayEnded(s: State, t: State, g: nat, base: bool, gone: set<nat>, b: nat)
    requires Rewinding(s, t, g, base, gone, b) && t.groups[b].pin != 0
    ensures Came(s, t, g, base, gone, b)
  {
    hide Ok, Above, LostChild, Rewound;
  }

  lemma RestAll(t: State, b: nat)
    requires AtRestBut(t, b) && b in t.groups && t.groups[b].pin != 0
    ensures AtRest(t)
  {
  }

  lemma GoneExactly(s: State, t: State, g: nat, base: bool, gone: set<nat>, b: nat)
    requires Came(s, t, g, base, gone, b)
    ensures Rewound(s, t, g, base, gone)
    ensures forall h :: h in gone <==> h in s.groups && h in t.groups && 0 < s.groups[h].pin && t.groups[h].pin == 0
    ensures forall h :: h in gone ==> Above(s, h, g)
  {
    hide Above, LostChild, Emptied;
  }

  lemma Shorter(s: State, q: nat, g: nat)
    requires Ok(s) && Enabled(s, Destroy(q, g))
    ensures |Unlinked(At(s.lists, q), g)| < |At(s.lists, q)| && |Unlinked(At(s.owned, g), q)| < |At(s.owned, g)|
  {
    hide Ordered, Pinned, Phased, Housed;
    UnlinkedSize(At(s.lists, q), g);
    UnlinkedSize(At(s.owned, g), q);
  }

  lemma {:induction false} UnlinkedSize(list: seq<nat>, x: nat)
    requires x in list
    ensures |Unlinked(list, x)| == |list| - 1
  {
    if list[0] != x {
      UnlinkedSize(list[1..], x);
    }
  }

  lemma OffBoth(s: State, q: nat, g: nat)
    requires Ok(s)
    ensures g !in Unlinked(At(s.lists, q), g) && q !in Unlinked(At(s.owned, g), q)
  {
    hide Tree, Unlinked, NoDup, Ordered, Pinned, Phased, Housed;
    UnlinkedHas(At(s.lists, q), g);
    UnlinkedHas(At(s.owned, g), q);
  }

  /** The blkg at the head of a queue's list is linked on its blkcg's list, and may be destroyed. */
  lemma HeadLinked(s: State, q: nat)
    requires Ok(s) && At(s.lists, q) != []
    ensures var g := At(s.lists, q)[0];
            Tree(s.groups, s.parent, s.depth) && q in At(s.owned, g) && Enabled(s, Destroy(q, g))
  {
    hide Ordered, Pinned, Phased;
    var g := At(s.lists, q)[0];
    assert g in At(s.lists, q);
    assert At(s.owned, g) != [];
  }

  lemma OwnedLinked(s: State, g: nat)
    requires Ok(s) && At(s.owned, g) != [] && Unpinned(s, g)
    ensures Tree(s.groups, s.parent, s.depth) && Enabled(s, Destroy(At(s.owned, g)[0], g))
  {
    hide Ordered, Pinned, Phased;
    var q := At(s.owned, g)[0];
    assert q in At(s.owned, g);
  }

  lemma OwnPinHeld(s: State, g: nat, base: bool)
    requires Ok(s) && Tree(s.groups, s.parent, s.depth) && Enabled(s, if base then DropBase(g) else DropExt(g))
    ensures g in s.groups && 0 < s.groups[g].pin && !s.groups[g].released
  {
    hide Linked, Ordered, Housed;
  }

  lemma ZeroPin(s: State, g: nat)
    requires Ok(s) && g in s.groups && s.groups[g].pin == 0
    ensures s.groups[g].phase == Offline
  {
    hide Linked, Ordered, Housed, Phased;
  }

  lemma ParentOf(s: State, g: nat)
    requires Ok(s) && g in s.parent && Holds(s.groups[g])
    ensures s.parent[g] in s.groups && s.parent[g] != g && s.depth[s.parent[g]] < s.depth[g]
    ensures 0 < s.groups[s.parent[g]].pin && !s.groups[s.parent[g]].released
  {
    hide Linked, Ordered, Housed;
    HolderPins(s, g);
  }

  lemma TreeOf(s: State)
    requires Ok(s)
    ensures Tree(s.groups, s.parent, s.depth) && forall g :: g in s.groups ==> g in s.depth
  {
  }
}
