/** Finite families of bags and their total, in whatever order the members are taken. */
module Bags {

  ghost function Without<T>(m: map<nat, T>, k: nat): map<nat, T> {
    m - {k}
  }

  ghost function Total<T>(m: map<nat, multiset<T>>): multiset<T>
    decreases m.Keys
  {
    if m == map[] then multiset{} else
      var k :| k in m;
      m[k] + Total(Without(m, k))
  }

  lemma {:induction false} TotalRemove<T>(m: map<nat, multiset<T>>, k: nat)
    requires k in m
    ensures Total(m) == m[k] + Total(Without(m, k))
    decreases m.Keys
  {
    var c :| c in m && Total(m) == m[c] + Total(Without(m, c));
    if c != k {
      TotalRemove(Without(m, c), k);
      TotalRemove(Without(m, k), c);
      assert Without(Without(m, c), k) == Without(Without(m, k), c);
    }
  }

  lemma TotalInsert<T>(m: map<nat, multiset<T>>, k: nat, b: multiset<T>)
    requires k !in m
    ensures Total(m[k := b]) == Total(m) + b
  {
    TotalRemove(m[k := b], k);
    assert Without(m[k := b], k) == m;
  }
}

/** The descriptor nodes of one virtqueue: a free list and one chain per outstanding buffer. */
module DescPool {
  import opened Bags
  import opened Lists

  /** `out` maps the head of every outstanding buffer to its chain of nodes, head first. */
  datatype Pool = Pool(num: nat, free: seq<nat>, out: map<nat, seq<nat>>)

  ghost predicate Disjoint(s: seq<nat>, t: seq<nat>) {
    forall x :: x in s ==> x !in t
  }

  ghost predicate Owned(p: Pool, x: nat) {
    x in p.free || exists id :: id in p.out && x in p.out[id]
  }

  /** Free list and chains split the nodes 0..num-1, each node in exactly one place. */
  ghost predicate Partition(p: Pool) {
    && NoDup(p.free)
    && (forall x :: x in p.free ==> x < p.num)
    && (forall id :: id in p.out ==> p.out[id] != [] && p.out[id][0] == id && NoDup(p.out[id]))
    && (forall id, x :: id in p.out && x in p.out[id] ==> x < p.num)
    && (forall id :: id in p.out ==> Disjoint(p.out[id], p.free))
    && (forall id, id' :: id in p.out && id' in p.out && id != id' ==> Disjoint(p.out[id], p.out[id']))
    && (forall x: nat :: x < p.num ==> Owned(p, x))
  }

  ghost function Take(p: Pool, k: nat): Pool
    requires 0 < k <= |p.free|
  {
    Pool(p.num, p.free[k..], p.out[p.free[0] := p.free[..k]])
  }

  ghost function Give(p: Pool, id: nat): Pool
    requires id in p.out
  {
    Pool(p.num, p.out[id] + p.free, Without(p.out, id))
  }

  ghost function Fresh(num: nat): Pool {
    Pool(num, seq(num, i => i), map[])
  }

  lemma FreshPartition(num: nat)
    ensures Partition(Fresh(num))
  {
    var p := Fresh(num);
    forall x: nat | x < num ensures Owned(p, x) { assert p.free[x] == x; }
  }

  lemma TakeKeepsPartition(p: Pool, k: nat)
    requires Partition(p) && 0 < k <= |p.free|
    ensures Partition(Take(p, k)) && p.free[0] !in p.out
  {
    hide Owned, Disjoint;
    HeadNotOut(p);
    TakeDisjoint(p, k);
    assert forall x :: x in p.free[k..] || x in p.free[..k] ==> x in p.free;
    forall x: nat | x < p.num ensures Owned(Take(p, k), x) {
      TakeOwns(p, k, x);
    }
  }

  lemma HeadNotOut(p: Pool)
    requires Partition(p) && p.free != []
    ensures p.free[0] !in p.out
  {
    hide Owned;
    assert p.free[0] in p.free;
    assert forall id :: id in p.out ==> p.out[id][0] in p.out[id];
  }

  lemma TakeDisjoint(p: Pool, k: nat)
    requires NoDup(p.free) && 0 < k <= |p.free| && p.free[0] !in p.out
    requires forall id :: id in p.out ==> Disjoint(p.out[id], p.free)
    requires forall id, id' :: id in p.out && id' in p.out && id != id' ==> Disjoint(p.out[id], p.out[id'])
    ensures var q := Take(p, k);
            && (forall id :: id in q.out ==> Disjoint(q.out[id], q.free))
            && (forall id, id' :: id in q.out && id' in q.out && id != id' ==> Disjoint(q.out[id], q.out[id']))
  {
    assert forall x :: x in p.free[k..] ==> x in p.free;
    assert forall x :: x in p.free[..k] ==> x in p.free;
    assert Disjoint(p.free[..k], p.free[k..]);
  }

  lemma TakeOwns(p: Pool, k: nat, x: nat)
    requires 0 < k <= |p.free| && p.free[0] !in p.out && Owned(p, x)
    ensures Owned(Take(p, k), x)
  {
    var q := Take(p, k);
    if x in p.free {
      var i :| 0 <= i < |p.free| && p.free[i] == x;
      if i < k { assert q.out[p.free[0]][i] == x; } else { assert q.free[i - k] == x; }
    } else {
      var id :| id in p.out && x in p.out[id];
      assert id in q.out && q.out[id] == p.out[id];
    }
  }

  lemma GiveKeepsPartition(p: Pool, id: nat)
    requires Partition(p) && id in p.out
    ensures Partition(Give(p, id))
  {
    var q := Give(p, id);
    var chain := p.out[id];
    assert forall x :: x in q.free <==> x in chain || x in p.free;
    assert NoDup(q.free) by {
      forall i, j | 0 <= i < j < |q.free| ensures q.free[i] != q.free[j] {
        if i < |chain| <= j { assert q.free[i] in chain && q.free[j] in p.free; }
      }
    }
    forall x: nat | x < q.num ensures Owned(q, x) {
      assert Owned(p, x);
      if x !in q.free {
        var o :| o in p.out && x in p.out[o];
        assert o in q.out && q.out[o] == p.out[o];
      }
    }
  }

  lemma ChainFits(p: Pool, id: nat)
    requires Partition(p) && id in p.out
    ensures 0 < |p.out[id]| <= p.num - |p.free|
  {
    GiveKeepsPartition(p, id);
    NodesConserved(Give(p, id));
  }

  lemma BesideFree(p: Pool, id: nat)
    requires Partition(p) && id in p.out
    ensures forall x :: x in p.out[id] ==> x !in p.free
  {
    assert Disjoint(p.out[id], p.free);
  }

  // ----- counting -----

  ghost function ChainNodes(out: map<nat, seq<nat>>): nat
    decreases out.Keys
  {
    if out == map[] then 0 else
      var id :| id in out;
      |out[id]| + ChainNodes(Without(out, id))
  }

  ghost function Elements(s: seq<nat>): set<nat> {
    set x | x in s
  }

  lemma {:induction false} NoDupSize(s: seq<nat>)
    requires NoDup(s)
    ensures |Elements(s)| == |s|
  {
    if s != [] {
      var last := |s| - 1;
      NoDupSize(s[..last]);
      assert s == s[..last] + [s[last]];
      assert Elements(s) == Elements(s[..last]) + {s[last]};
    }
  }

  ghost function Nodes(n: nat): (s: set<nat>)
    ensures |s| == n && forall x: nat :: x in s <==> x < n
  {
    if n == 0 then {} else Nodes(n - 1) + {n - 1}
  }

  /** The free count and the lengths of all outstanding chains add up to the ring size. */
  lemma {:induction false} NodesConserved(p: Pool)
    requires Partition(p)
    ensures |p.free| + ChainNodes(p.out) == p.num
    decreases p.out.Keys
  {
    if p.out == map[] {
      NoDupSize(p.free);
      assert forall x: nat :: x in Nodes(p.num) ==> Owned(p, x);
      assert Elements(p.free) == Nodes(p.num);
    } else {
      var id :| id in p.out && ChainNodes(p.out) == |p.out[id]| + ChainNodes(Without(p.out, id));
      GiveKeepsPartition(p, id);
      NodesConserved(Give(p, id));
    }
  }

  // ----- the chains as they are threaded through the `next` fields -----

  /** Following `next` from each node of `chain` but the last reaches the following node. */
  ghost predicate Linked(next: seq<nat>, chain: seq<nat>) {
    && (forall i :: 0 <= i < |chain| ==> chain[i] < |next|)
    && (forall i, j :: 0 <= i < j < |chain| && j == i + 1 ==> next[chain[i]] == chain[j])
  }

  lemma LinkedStep(next: seq<nat>, chain: seq<nat>, i: nat)
    requires Linked(next, chain) && i < |chain|
    ensures chain[i] < |next| && (i + 1 < |chain| ==> next[chain[i]] == chain[i + 1])
  {
  }

  lemma LinkedWithin(next: seq<nat>, chain: seq<nat>)
    requires Linked(next, chain)
    ensures forall i :: 0 <= i < |chain| ==> chain[i] < |next|
  {
  }

  /** `next` and `freeHead` represent the pool. */
  ghost predicate Threaded(next: seq<nat>, freeHead: nat, p: Pool) {
    && |next| == p.num
    && Linked(next, p.free)
    && (p.free != [] ==> freeHead == p.free[0])
    && (forall id :: id in p.out ==> Linked(next, p.out[id]))
  }

  /** What a chain looks like; its last `next` field is free to be overwritten. */
  lemma ChainLinks(next: seq<nat>, freeHead: nat, p: Pool, id: nat, x: nat)
    requires Partition(p) && Threaded(next, freeHead, p) && id in p.out
    ensures var chain := p.out[id];
            && 0 < |chain| <= p.num && chain[0] == id && Linked(next, chain)
            && Linked(next[chain[|chain| - 1] := x], chain)
  {
    ChainFits(p, id);
    assert NoDup(p.out[id]);
  }

  /** Taking k nodes moves the head along the list and leaves every link alone. */
  lemma TakeThreaded(next: seq<nat>, freeHead: nat, p: Pool, k: nat, newHead: nat)
    requires Partition(p) && Threaded(next, freeHead, p) && 0 < k <= |p.free|
    requires newHead == next[p.free[k - 1]]
    ensures Partition(Take(p, k)) && Threaded(next, newHead, Take(p, k))
  {
    TakeKeepsPartition(p, k);
    var q := Take(p, k);
    assert forall i :: 0 <= i < |q.free| ==> q.free[i] == p.free[i + k];
    assert forall i :: 0 <= i < k ==> p.free[..k][i] == p.free[i];
    forall id | id in q.out ensures Linked(next, q.out[id]) {
      if id != p.free[0] { assert q.out[id] == p.out[id]; }
    }
  }

  /** Writing the old head into the last node of a chain puts the whole chain in front of the list. */
  lemma GiveThreaded(next: seq<nat>, freeHead: nat, p: Pool, id: nat)
    requires Partition(p) && Threaded(next, freeHead, p) && id in p.out
    ensures var last := p.out[id][|p.out[id]| - 1];
            last < |next| && Partition(Give(p, id)) && Threaded(next[last := freeHead], id, Give(p, id))
  {
    GiveKeepsPartition(p, id);
    var chain := p.out[id];
    var last := chain[|chain| - 1];
    assert last in chain;
    var next' := next[last := freeHead];
    var q := Give(p, id);
    assert last !in p.free;
    forall i, j | 0 <= i < j < |q.free| && j == i + 1 ensures next'[q.free[i]] == q.free[j] {
      if i >= |chain| { assert q.free[i] in p.free; }
      else if i < |chain| - 1 { assert chain[i] != last; }
    }
    forall o | o in q.out ensures Linked(next', q.out[o]) {
      assert q.out[o] == p.out[o];
      assert Disjoint(p.out[o], chain);
      forall i, j | 0 <= i < j < |p.out[o]| && j == i + 1 ensures next'[p.out[o][i]] == p.out[o][j] {
        assert p.out[o][i] in p.out[o];
      }
    }
  }
}
