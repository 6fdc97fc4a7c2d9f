/** Hierarchical I/O statistics of block cgroup groups: 64-bit counters propagated upwards by deltas. The model follows
    one of the counters of a blkg_iostat; all are updated alike. */
module IoStat {
  import opened Sums

  const WORD := 0x1_0000_0000_0000_0000

  /** `parent`: for every group but the roots. */
  datatype Tree = Tree(nodes: set<nat>, parent: map<nat, nat>, depth: map<nat, nat>)

  ghost predicate Wf(t: Tree) {
    && (forall b :: b in t.parent ==> b in t.nodes && t.parent[b] in t.nodes)
    && (forall b :: b in t.nodes ==> b in t.depth)
    && (forall b :: b in t.parent ==> t.depth[b] == t.depth[t.parent[b]] + 1)
  }

  datatype Cell = Cell(blkg: nat, cpu: nat)

  /** iostat.cur and iostat.last by group, and the per-CPU cur and last. */
  datatype Stats = Stats(cur: map<nat, nat>, last: map<nat, nat>, pcur: map<Cell, nat>, plast: map<Cell, nat>)

  function At<K(==)>(m: map<K, nat>, k: K): nat {
    if k in m then m[k] else 0
  }

  lemma AtChange<K(!new)>(m: map<K, nat>, k: K, v: nat, n: map<K, nat>)
    requires n == m[k := v]
    ensures forall j :: At(n, j) == if j == k then v else At(m, j)
  {
  }

  ghost predicate Words(s: Stats) {
    && (forall b :: At(s.cur, b) < WORD && At(s.last, b) < WORD)
    && (forall x :: At(s.pcur, x) < WORD && At(s.plast, x) < WORD)
  }

  function Add(x: nat, y: nat): nat { (x + y) % WORD }

  function Sub(x: nat, y: nat): nat { (x - y) % WORD }

  // ----- one flush step -----

  /** Per-CPU delta to the group. */
  function Collected(s: Stats, x: Cell): Stats {
    var delta := Sub(At(s.pcur, x), At(s.plast, x));
    s.(cur := s.cur[x.blkg := Add(At(s.cur, x.blkg), delta)], plast := s.plast[x := Add(At(s.plast, x), delta)])
  }

  /** The group's delta to its parent. */
  function PassedUp(s: Stats, b: nat, p: nat): Stats {
    var delta := Sub(At(s.cur, b), At(s.last, b));
    s.(cur := s.cur[p := Add(At(s.cur, p), delta)], last := s.last[b := Add(At(s.last, b), delta)])
  }

  /** Groups below a root do not add to it. */
  predicate Propagates(t: Tree, b: nat) {
    b in t.parent && t.parent[b] in t.parent
  }

  function Flushed(t: Tree, s: Stats, x: Cell): Stats {
    var c := Collected(s, x);
    if Propagates(t, x.blkg) then PassedUp(c, x.blkg, t.parent[x.blkg]) else c
  }

  // ----- what the deltas keep -----

  ghost function Row(m: map<Cell, nat>, cpus: set<nat>, b: nat): map<nat, nat> {
    map i | i in cpus :: At(m, Cell(b, i))
  }

  ghost function CpuSum(m: map<Cell, nat>, cpus: set<nat>, b: nat): nat {
    Sum(Row(m, cpus, b))
  }

  ghost function Children(t: Tree, b: nat): set<nat> {
    set c | c in t.parent && t.parent[c] == b
  }

  ghost function Only(m: map<nat, nat>, of: set<nat>): map<nat, nat> {
    map c | c in of :: At(m, c)
  }

  ghost function SumOver(m: map<nat, nat>, of: set<nat>): nat {
    Sum(Only(m, of))
  }

  predicate Same(x: int, y: int) {
    (x - y) % WORD == 0
  }

  /** What a group shows is what it has taken from its CPUs and from its children. */
  ghost predicate Kept(t: Tree, cpus: set<nat>, s: Stats) {
    Words(s) && forall b :: b in t.parent ==> Same(At(s.cur, b),
        CpuSum(s.plast, cpus, b) + SumOver(s.last, Children(t, b)))
  }

  lemma CollectExact(x: nat, y: nat)
    requires x < WORD && y < WORD
    ensures Add(y, Sub(x, y)) == x
  {
  }

  lemma CpuSumChange(m: map<Cell, nat>, cpus: set<nat>, x: Cell, v: nat, b: nat)
    ensures CpuSum(m[x := v], cpus, b) == CpuSum(m, cpus, b) + if x.blkg == b && x.cpu in cpus then v - At(m, x) else 0
  {
    var was, now := Row(m, cpus, b), Row(m[x := v], cpus, b);
    if x.blkg == b && x.cpu in cpus {
      assert now == was[x.cpu := v];
      SumChange(was, x.cpu, v);
    } else {
      assert now == was;
    }
  }

  lemma SumOverChange(m: map<nat, nat>, of: set<nat>, c: nat, v: nat)
    ensures SumOver(m[c := v], of) == SumOver(m, of) + if c in of then v - At(m, c) else 0
  {
    var was, now := Only(m, of), Only(m[c := v], of);
    if c in of {
      assert now == was[c := v];
      SumChange(was, c, v);
    } else {
      assert now == was;
    }
  }

  /** Adding the same delta on both sides. */
  lemma DeltaSame(cur: nat, total: nat, x: nat, y: nat)
    requires Same(cur, total)
    ensures Same(Add(cur, Sub(x, y)), total + x - y)
  {
  }

  lemma CollectKeeps(t: Tree, cpus: set<nat>, s: Stats, x: Cell)
    requires Kept(t, cpus, s) && x.cpu in cpus
    ensures Kept(t, cpus, Collected(s, x))
  {
    hide CpuSum, SumOver, Same, Add, Sub;
    var c := Collected(s, x);
    AtChange(s.cur, x.blkg, At(c.cur, x.blkg), c.cur);
    AtChange(s.plast, x, At(c.plast, x), c.plast);
    CollectExact(At(s.pcur, x), At(s.plast, x));
    forall b | b in t.parent ensures Same(At(c.cur, b), CpuSum(c.plast, cpus, b) + SumOver(c.last, Children(t, b))) {
      CpuSumChange(s.plast, cpus, x, At(s.pcur, x), b);
      if b == x.blkg {
        DeltaSame(At(s.cur, b), CpuSum(s.plast, cpus, b) + SumOver(s.last, Children(t, b)), At(s.pcur, x),
            At(s.plast, x));
      }
    }
    AddSmall(At(s.cur, x.blkg), Sub(At(s.pcur, x), At(s.plast, x)));
  }

  lemma AddSmall(x: nat, y: nat)
    ensures Add(x, y) < WORD
  {
  }

  lemma PassUpKeeps(t: Tree, cpus: set<nat>, s: Stats, b: nat)
    requires Wf(t) && Kept(t, cpus, s) && Propagates(t, b)
    ensures Kept(t, cpus, PassedUp(s, b, t.parent[b]))
    ensures At(PassedUp(s, b, t.parent[b]).last, b) == At(s.cur, b)
  {
    hide CpuSum, SumOver, Same, Add, Sub;
    var p := t.parent[b];
    var u := PassedUp(s, b, p);
    AtChange(s.cur, p, At(u.cur, p), u.cur);
    AtChange(s.last, b, At(u.last, b), u.last);
    CollectExact(At(s.cur, b), At(s.last, b));
    forall g | g in t.parent ensures Same(At(u.cur, g), CpuSum(u.plast, cpus, g) + SumOver(u.last, Children(t, g))) {
      SumOverChange(s.last, Children(t, g), b, At(s.cur, b));
      if g == p {
        DeltaSame(At(s.cur, g), CpuSum(s.plast, cpus, g) + SumOver(s.last, Children(t, g)), At(s.cur, b),
            At(s.last, b));
      }
    }
    AddSmall(At(s.cur, p), Sub(At(s.cur, b), At(s.last, b)));
  }

  /** Every flush step, in whatever order, keeps it. */
  lemma FlushKeeps(t: Tree, cpus: set<nat>, s: Stats, x: Cell)
    requires Wf(t) && Kept(t, cpus, s) && x.cpu in cpus
    ensures Kept(t, cpus, Flushed(t, s, x))
  {
    hide Kept, Collected, PassedUp;
    CollectKeeps(t, cpus, s, x);
    if Propagates(t, x.blkg) {
      PassUpKeeps(t, cpus, Collected(s, x), x.blkg);
    }
  }

  // ----- flushing in passes, children before parents -----

  function FlushAll(t: Tree, s: Stats, order: seq<nat>, cpu: nat): Stats {
    if order == [] then s else
      Flushed(t, FlushAll(t, s, order[..|order| - 1], cpu), Cell(order[|order| - 1], cpu))
  }

  ghost predicate ChildrenFirst(t: Tree, order: seq<nat>) {
    forall i, j :: 0 <= i < j < |order| && order[j] in t.parent ==> t.parent[order[j]] != order[i]
  }

  /** The group's parent has all of it. */
  predicate Clean(t: Tree, s: Stats, b: nat) {
    Propagates(t, b) ==> At(s.last, b) == At(s.cur, b)
  }

  predicate Taken(s: Stats, x: Cell) {
    At(s.plast, x) == At(s.pcur, x)
  }

  lemma FlushTouches(t: Tree, s: Stats, x: Cell)
    requires Wf(t) && Words(s)
    ensures var r := Flushed(t, s, x);
            r.pcur == s.pcur && Taken(r, x) && Clean(t, r, x.blkg)
            && (forall y :: Taken(s, y) ==> Taken(r, y))
            && (forall b :: b != x.blkg && Clean(t, s, b) && (x.blkg in t.parent ==> b != t.parent[x.blkg]) ==>
                  Clean(t, r, b))
  {
    hide Add, Sub;
    var c := Collected(s, x);
    CollectExact(At(s.pcur, x), At(s.plast, x));
    AtChange(s.cur, x.blkg, At(c.cur, x.blkg), c.cur);
    AtChange(s.plast, x, At(c.plast, x), c.plast);
    if Propagates(t, x.blkg) {
      var b, p := x.blkg, t.parent[x.blkg];
      var u := PassedUp(c, b, p);
      AddSmall(At(s.cur, b), Sub(At(s.pcur, x), At(s.plast, x)));
      CollectExact(At(c.cur, b), At(c.last, b));
      AtChange(c.cur, p, At(u.cur, p), u.cur);
      AtChange(c.last, b, At(u.last, b), u.last);
    }
  }

  lemma {:induction false} PassKeeps(t: Tree, cpus: set<nat>, s: Stats, order: seq<nat>, cpu: nat)
    requires Wf(t) && Kept(t, cpus, s) && cpu in cpus
    ensures Kept(t, cpus, FlushAll(t, s, order, cpu))
  {
    hide Kept, Flushed;
    if order != [] {
      PassKeeps(t, cpus, s, order[..|order| - 1], cpu);
      FlushKeeps(t, cpus, FlushAll(t, s, order[..|order| - 1], cpu), Cell(order[|order| - 1], cpu));
    }
  }

  /** A pass with children before parents leaves every group of it clean. */
  lemma {:induction false} PassCleans(t: Tree, cpus: set<nat>, s: Stats, order: seq<nat>, cpu: nat)
    requires Wf(t) && Kept(t, cpus, s) && cpu in cpus && ChildrenFirst(t, order)
    ensures var r := FlushAll(t, s, order, cpu);
            r.pcur == s.pcur && (forall b :: b in order ==> Clean(t, r, b) && Taken(r, Cell(b, cpu)))
            && (forall y :: Taken(s, y) ==> Taken(r, y))
  {
    hide Flushed, Clean, Taken, Words;
    if order != [] {
      var n := |order| - 1;
      var before := FlushAll(t, s, order[..n], cpu);
      PassCleans(t, cpus, s, order[..n], cpu);
      PassKeeps(t, cpus, s, order[..n], cpu);
      FlushTouches(t, before, Cell(order[n], cpu));
      forall b | b in order ensures b == order[n] || b in order[..n] {
        var i :| 0 <= i < |order| && order[i] == b;
        assert i < n ==> order[..n][i] == b;
      }
    }
  }

  /** One pass for each CPU, each in an order of its own. */
  datatype Pass = Pass(order: seq<nat>, cpu: nat)

  function FlushPasses(t: Tree, s: Stats, ps: seq<Pass>): Stats {
    if ps == [] then s else
      var p := ps[|ps| - 1];
      FlushAll(t, FlushPasses(t, s, ps[..|ps| - 1]), p.order, p.cpu)
  }

  ghost predicate Complete(t: Tree, cpus: set<nat>, p: Pass) {
    p.cpu in cpus && ChildrenFirst(t, p.order) && forall b :: b in t.parent ==> b in p.order
  }

  lemma {:induction false} PassesClean(t: Tree, cpus: set<nat>, s: Stats, ps: seq<Pass>)
    requires Wf(t) && Kept(t, cpus, s) && forall i :: 0 <= i < |ps| ==> Complete(t, cpus, ps[i])
    ensures var r := FlushPasses(t, s, ps);
            Kept(t, cpus, r) && r.pcur == s.pcur
            && (forall i, b :: 0 <= i < |ps| && b in t.parent ==> Taken(r, Cell(b, ps[i].cpu)))
            && (ps != [] ==> forall b :: b in t.parent ==> Clean(t, r, b))
  {
    hide Kept, Clean, Taken;
    if ps != [] {
      var n := |ps| - 1;
      PassesClean(t, cpus, s, ps[..n]);
      PassKeeps(t, cpus, FlushPasses(t, s, ps[..n]), ps[n].order, ps[n].cpu);
      PassCleans(t, cpus, FlushPasses(t, s, ps[..n]), ps[n].order, ps[n].cpu);
      assert forall i :: 0 <= i < n ==> ps[..n][i] == ps[i];
    }
  }

  // ----- the naive sum -----

  /** x lies in the subtree of b. */
  ghost predicate Below(t: Tree, b: nat, x: nat)
    requires Wf(t) && x in t.nodes
    decreases t.depth[x]
  {
    x == b || (x in t.parent && Below(t, b, t.parent[x]))
  }

  ghost function Subtree(t: Tree, b: nat): set<nat>
    requires Wf(t)
  {
    set x | x in t.nodes && Below(t, b, x)
  }

  ghost function Own(t: Tree, cpus: set<nat>, s: Stats): map<nat, nat> {
    map b | b in t.nodes :: CpuSum(s.pcur, cpus, b)
  }

  /** What all CPUs have counted for all groups of the subtree. */
  ghost function Naive(t: Tree, cpus: set<nat>, s: Stats, b: nat): nat
    requires Wf(t)
  {
    SumOver(Own(t, cpus, s), Subtree(t, b))
  }

  lemma {:induction false} BelowDepth(t: Tree, b: nat, x: nat)
    requires Wf(t) && x in t.nodes && b in t.nodes && Below(t, b, x)
    ensures t.depth[b] <= t.depth[x] && (t.depth[b] == t.depth[x] ==> b == x)
    decreases t.depth[x]
  {
    if x != b {
      BelowDepth(t, b, t.parent[x]);
    }
  }

  /** A group has one ancestor at each depth. */
  lemma {:induction false} OneAncestor(t: Tree, b: nat, c: nat, x: nat)
    requires Wf(t) && x in t.nodes && b in t.nodes && c in t.nodes && Below(t, b, x) && Below(t, c, x) &&
          t.depth[b] == t.depth[c]
    ensures b == c
    decreases t.depth[x]
  {
    BelowDepth(t, b, x);
    BelowDepth(t, c, x);
    if x != b && x != c {
      OneAncestor(t, b, c, t.parent[x]);
    }
  }

  lemma {:induction false} ViaChild(t: Tree, b: nat, x: nat) returns (c: nat)
    requires Wf(t) && x in t.nodes && Below(t, b, x) && x != b
    ensures c in Children(t, b) && c in t.nodes && Below(t, c, x)
    decreases t.depth[x]
  {
    if t.parent[x] == b {
      c := x;
    } else {
      c := ViaChild(t, b, t.parent[x]);
    }
  }

  lemma {:induction false} BelowTrans(t: Tree, b: nat, c: nat, x: nat)
    requires Wf(t) && x in t.nodes && c in t.nodes && Below(t, b, c) && Below(t, c, x)
    ensures Below(t, b, x)
    decreases t.depth[x]
  {
    if x != c {
      BelowTrans(t, b, c, t.parent[x]);
    }
  }

  /** The groups below one of `of`. */
  ghost function Under(t: Tree, of: set<nat>): set<nat>
    requires Wf(t)
  {
    set x, c | c in of && x in t.nodes && Below(t, c, x) :: x
  }

  lemma SubtreeSplits(t: Tree, b: nat)
    requires Wf(t) && b in t.nodes
    ensures Subtree(t, b) == {b} + Under(t, Children(t, b)) && b !in Under(t, Children(t, b))
    ensures forall c :: c in Children(t, b) ==> Subtree(t, c) < Subtree(t, b)
  {
    forall x ensures x in Subtree(t, b) <==> x in {b} + Under(t, Children(t, b)) {
      if x in Subtree(t, b) && x != b {
        var c := ViaChild(t, b, x);
      }
      if x in Under(t, Children(t, b)) {
        var c :| c in Children(t, b) && Below(t, c, x);
        BelowTrans(t, b, c, x);
      }
    }
    forall c | c in Children(t, b) ensures !Below(t, c, b) {
      if Below(t, c, b) {
        BelowDepth(t, c, b);
      }
    }
    forall c | c in Children(t, b) ensures Subtree(t, c) < Subtree(t, b) {
      forall x | x in Subtree(t, c) ensures x in Subtree(t, b) {
        BelowTrans(t, b, c, x);
      }
      assert b in Subtree(t, b) && b !in Subtree(t, c);
    }
  }

  lemma {:induction false} SumOverUnion(m: map<nat, nat>, a: set<nat>, b: set<nat>)
    requires a !! b
    ensures SumOver(m, a + b) == SumOver(m, a) + SumOver(m, b)
    decreases |b|
  {
    if b == {} {
      assert a + b == a && Only(m, b) == map[];
    } else {
      var x :| x in b;
      SumOverUnion(m, a, b - {x});
      SumOverAdd(m, a + (b - {x}), x);
      SumOverAdd(m, b - {x}, x);
      assert a + (b - {x}) + {x} == a + b && b - {x} + {x} == b;
    }
  }

  lemma SumOverAdd(m: map<nat, nat>, a: set<nat>, x: nat)
    requires x !in a
    ensures SumOver(m, a + {x}) == SumOver(m, a) + At(m, x)
  {
    SumInsert(Only(m, a), x, At(m, x));
    assert Only(m, a + {x}) == Only(m, a)[x := At(m, x)];
  }

  /** The subtrees of different children do not meet. */
  lemma UnderSplits(t: Tree, b: nat, of: set<nat>, c: nat)
    requires Wf(t) && of <= Children(t, b) && c in Children(t, b) && c !in of
    ensures Under(t, of + {c}) == Under(t, of) + Subtree(t, c) && Under(t, of) !! Subtree(t, c)
  {
    forall x | x in Under(t, of) ensures x !in Subtree(t, c) {
      var d :| d in of && Below(t, d, x);
      if Below(t, c, x) {
        OneAncestor(t, c, d, x);
      }
    }
  }

  lemma {:induction false} SumsSame(m: map<nat, nat>, n: map<nat, nat>, of: set<nat>)
    requires forall c :: c in of ==> Same(At(m, c), At(n, c))
    ensures Same(SumOver(m, of), SumOver(n, of))
    decreases |of|
  {
    hide Same, SumOver;
    if of == {} {
      SumOverNothing(m);
      SumOverNothing(n);
      SameSelf(0);
    } else {
      var x :| x in of;
      SumsSame(m, n, of - {x});
      SumOverAdd(m, of - {x}, x);
      SumOverAdd(n, of - {x}, x);
      assert of - {x} + {x} == of;
      SameAdd(SumOver(m, of - {x}), SumOver(n, of - {x}), At(m, x), At(n, x));
    }
  }

  lemma SameSelf(x: nat)
    ensures Same(x, x)
  {
  }

  lemma SameAdd(a: nat, b: nat, x: nat, y: nat)
    requires Same(a, b) && Same(x, y)
    ensures Same(a + x, b + y)
  {
  }

  ghost function Naives(t: Tree, cpus: set<nat>, s: Stats): map<nat, nat>
    requires Wf(t)
  {
    map b | b in t.nodes :: Naive(t, cpus, s, b)
  }

  lemma {:induction false} NaiveUnder(t: Tree, cpus: set<nat>, s: Stats, b: nat, of: set<nat>)
    requires Wf(t) && of <= Children(t, b)
    ensures SumOver(Own(t, cpus, s), Under(t, of)) == SumOver(Naives(t, cpus, s), of)
    decreases |of|
  {
    hide Own, SumOver, Below;
    if of == {} {
      assert Under(t, of) == {};
      SumOverNothing(Own(t, cpus, s));
      SumOverNothing(Naives(t, cpus, s));
    } else {
      var c :| c in of;
      NaiveUnder(t, cpus, s, b, of - {c});
      UnderSplits(t, b, of - {c}, c);
      SumOverUnion(Own(t, cpus, s), Under(t, of - {c}), Subtree(t, c));
      SumOverAdd(Naives(t, cpus, s), of - {c}, c);
      assert of - {c} + {c} == of;
    }
  }

  lemma SumOverNothing(m: map<nat, nat>)
    ensures SumOver(m, {}) == 0
  {
    assert Only(m, {}) == map[];
  }

  lemma NaiveSplits(t: Tree, cpus: set<nat>, s: Stats, b: nat)
    requires Wf(t) && b in t.nodes
    ensures Naive(t, cpus, s, b) == CpuSum(s.pcur, cpus, b) + SumOver(Naives(t, cpus, s), Children(t, b))
  {
    hide CpuSum, SumOver, Below, Subtree, Under;
    SubtreeSplits(t, b);
    SumOverUnion(Own(t, cpus, s), Under(t, Children(t, b)), {b});
    SumOverNothing(Own(t, cpus, s));
    SumOverAdd(Own(t, cpus, s), {}, b);
    assert {} + {b} == {b};
    NaiveUnder(t, cpus, s, b, Children(t, b));
    assert {b} + Under(t, Children(t, b)) == Under(t, Children(t, b)) + {b};
  }

  /** Nothing is waiting to be flushed. */
  ghost predicate Settled(t: Tree, cpus: set<nat>, s: Stats) {
    forall b :: b in t.parent ==> Clean(t, s, b) && forall i :: i in cpus ==> Taken(s, Cell(b, i))
  }

  lemma CpuSumSettled(t: Tree, cpus: set<nat>, s: Stats, b: nat)
    requires Settled(t, cpus, s) && b in t.parent
    ensures CpuSum(s.plast, cpus, b) == CpuSum(s.pcur, cpus, b)
  {
    hide Sum;
    forall i | i in cpus ensures At(s.plast, Cell(b, i)) == At(s.pcur, Cell(b, i)) {
      assert Taken(s, Cell(b, i));
    }
    assert Row(s.plast, cpus, b) == Row(s.pcur, cpus, b);
  }

  lemma SameChain(cur: nat, own: nat, last: nat, naive: nat)
    requires Same(cur, own + last) && Same(last, naive)
    ensures Same(cur, own + naive)
  {
  }

  /** With everything flushed, a group shows the naive sum over its subtree. */
  lemma {:induction false} ShowsNaive(t: Tree, cpus: set<nat>, s: Stats, b: nat)
    requires Wf(t) && Kept(t, cpus, s) && Settled(t, cpus, s) && b in t.parent
    ensures Same(At(s.cur, b), Naive(t, cpus, s, b))
    decreases Subtree(t, b)
  {
    hide CpuSum, SumOver, Below, Subtree, Naive, Same, Own;
    SubtreeSplits(t, b);
    NaiveSplits(t, cpus, s, b);
    CpuSumSettled(t, cpus, s, b);
    forall c | c in Children(t, b) ensures Same(At(s.last, c), At(Naives(t, cpus, s), c)) {
      ShowsNaive(t, cpus, s, c);
      assert Clean(t, s, c);
    }
    SumsSame(s.last, Naives(t, cpus, s), Children(t, b));
    SameChain(At(s.cur, b), CpuSum(s.pcur, cpus, b), SumOver(s.last, Children(t, b)),
        SumOver(Naives(t, cpus, s), Children(t, b)));
  }

  /** One pass over each CPU, children before parents, makes every group show the naive sum, whatever was flushed
      before in whatever order; nothing of what the CPUs have counted changes. */
  lemma FlushShowsNaive(t: Tree, cpus: set<nat>, s: Stats, ps: seq<Pass>, b: nat)
    requires Wf(t) && Kept(t, cpus, s) && b in t.parent && ps != []
    requires forall i :: 0 <= i < |ps| ==> Complete(t, cpus, ps[i])
    requires forall cpu :: cpu in cpus ==> exists i :: 0 <= i < |ps| && ps[i].cpu == cpu
    ensures var r := FlushPasses(t, s, ps);
            r.pcur == s.pcur && Settled(t, cpus, r) && At(r.cur, b) == Naive(t, cpus, s, b) % WORD
  {
    hide Kept, Clean, Taken, CpuSum, SumOver, Complete;
    var r := FlushPasses(t, s, ps);
    PassesClean(t, cpus, s, ps);
    assert Settled(t, cpus, r);
    ShowsNaive(t, cpus, r, b);
    assert Naive(t, cpus, r, b) == Naive(t, cpus, s, b) by {
      assert Own(t, cpus, r) == Own(t, cpus, s);
    }
    KeptWords(t, cpus, r);
    SameWord(At(r.cur, b), Naive(t, cpus, r, b));
  }

  lemma KeptWords(t: Tree, cpus: set<nat>, s: Stats)
    requires Kept(t, cpus, s)
    ensures Words(s)
  {
  }

  lemma SameWord(x: nat, y: nat)
    requires x < WORD && Same(x, y)
    ensures x == y % WORD
  {
  }

  /** Two states that show the same. */
  ghost predicate Alike(s: Stats, r: Stats) {
    && (forall b :: At(s.cur, b) == At(r.cur, b) && At(s.last, b) == At(r.last, b))
    && (forall x :: At(s.pcur, x) == At(r.pcur, x) && At(s.plast, x) == At(r.plast, x))
  }

  lemma NoDelta(x: nat, y: nat)
    requires y < WORD
    ensures Add(y, Sub(x, x)) == y
  {
  }

  /** Flushing again, anywhere, changes nothing. */
  lemma FlushAgain(t: Tree, cpus: set<nat>, s: Stats, x: Cell)
    requires Wf(t) && Words(s) && Settled(t, cpus, s) && x.blkg in t.parent && x.cpu in cpus
    ensures Alike(s, Flushed(t, s, x))
  {
    hide Add, Sub, Settled;
    SettledAt(t, cpus, s, x);
    var c := Collected(s, x);
    NoDelta(At(s.pcur, x), At(s.cur, x.blkg));
    NoDelta(At(s.pcur, x), At(s.plast, x));
    AtChange(s.cur, x.blkg, At(c.cur, x.blkg), c.cur);
    AtChange(s.plast, x, At(c.plast, x), c.plast);
    if Propagates(t, x.blkg) {
      var b, p := x.blkg, t.parent[x.blkg];
      var u := PassedUp(c, b, p);
      NoDelta(At(c.cur, b), At(c.cur, p));
      NoDelta(At(c.cur, b), At(c.last, b));
      AtChange(c.cur, p, At(u.cur, p), u.cur);
      AtChange(c.last, b, At(u.last, b), u.last);
    }
  }

  lemma SettledAt(t: Tree, cpus: set<nat>, s: Stats, x: Cell)
    requires Settled(t, cpus, s) && x.blkg in t.parent && x.cpu in cpus
    ensures Taken(s, x) && Clean(t, s, x.blkg)
  {
    assert Taken(s, Cell(x.blkg, x.cpu));
  }

  // ----- the counters in place -----

  lemma NothingKept(t: Tree, cpus: set<nat>)
    ensures Kept(t, cpus, Stats(map[], map[], map[], map[]))
  {
    hide Row, Only;
    forall b ensures CpuSum(map[], cpus, b) == 0 && SumOver(map[], Children(t, b)) == 0 {
      NothingSummed(cpus, b, Children(t, b));
    }
  }

  lemma NothingSummed(cpus: set<nat>, b: nat, of: set<nat>)
    ensures CpuSum(map[], cpus, b) == 0 && SumOver(map[], of) == 0
  {
    Nothing(Row(map[], cpus, b));
    Nothing(Only(map[], of));
  }

  class Counters {
    const t: Tree
    var cur: map<nat, nat>
    var last: map<nat, nat>
    var pcur: map<Cell, nat>
    var plast: map<Cell, nat>

    ghost function Now(): Stats
      reads this
    {
      Stats(cur, last, pcur, plast)
    }

    constructor (t: Tree, ghost cpus: set<nat>)
      requires Wf(t)
      ensures this.t == t && Kept(t, cpus, Now())
    {
      this.t, cur, last, pcur, plast := t, map[], map[], map[], map[];
      new;
      NothingKept(t, cpus);
    }

    /** An I/O is counted on one CPU. */
    method Count(x: Cell, n: nat, ghost cpus: set<nat>)
      requires Kept(t, cpus, Now())
      modifies this`pcur
      ensures Kept(t, cpus, Now()) && pcur == old(pcur)[x := Add(At(old(pcur), x), n)]
    {
      hide CpuSum, SumOver, Same;
      AtChange(pcur, x, Add(At(pcur, x), n), pcur[x := Add(At(pcur, x), n)]);
      pcur := pcur[x := Add(At(pcur, x), n)];
    }

    method CollectFrom(x: Cell)
      modifies this`cur, this`plast
      ensures Now() == Collected(old(Now()), x)
    {
      var delta := At(pcur, x);
      delta := Sub(delta, At(plast, x));
      cur := cur[x.blkg := Add(At(cur, x.blkg), delta)];
      plast := plast[x := Add(At(plast, x), delta)];
    }

    method PassUp(b: nat, p: nat)
      requires b != p
      modifies this`cur, this`last
      ensures Now() == PassedUp(old(Now()), b, p)
    {
      var delta := At(cur, b);
      delta := Sub(delta, At(last, b));
      cur := cur[p := Add(At(cur, p), delta)];
      last := last[b := Add(At(last, b), delta)];
    }

    /** blkcg_rstat_flush of one CPU for the groups of one cgroup. */
    method RstatFlush(groups: seq<nat>, cpu: nat, ghost cpus: set<nat>)
      requires Wf(t) && Kept(t, cpus, Now()) && cpu in cpus
      modifies this`cur, this`last, this`plast
      ensures Kept(t, cpus, Now()) && Now() == FlushAll(t, old(Now()), groups, cpu)
    {
      hide Kept, Collected, PassedUp;
      PassKeeps(t, cpus, Now(), groups, cpu);
      var i := 0;
      while i < |groups|
        invariant 0 <= i <= |groups| && Now() == FlushAll(t, old(Now()), groups[..i], cpu)
      {
        assert groups[..i + 1][..i] == groups[..i];
        var b := groups[i];
        CollectFrom(Cell(b, cpu));
        if b in t.parent && t.parent[b] in t.parent {
          PassUp(b, t.parent[b]);
        }
        i := i + 1;
      }
      assert groups[..i] == groups;
    }
  }

  lemma {:induction false} Nothing(m: map<nat, nat>)
    requires forall k :: k in m ==> m[k] == 0
    ensures Sum(m) == 0
    decreases m.Keys
  {
    if m != map[] {
      var k :| k in m && Sum(m) == m[k] + Sum(m - {k});
      Nothing(m - {k});
    }
  }
}
