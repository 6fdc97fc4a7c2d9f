/** Where the tracker's own objects wait for use: a global pool, a list to be freed, and one small list per CPU. */
module ObjPools {
  import opened Bags
  import opened Numbers
  import opened Options

  const POOL_SIZE := 1024
  const POOL_PERCPU_SIZE := 64
  const BATCH_SIZE := 16
  const FREE_WORK_MAX := 1024

  /** Lists and counters, and the objects handed out (`tracked`). `minLevel`, `poolSize`: the levels between which the
      pool is kept. */
  datatype State = State(pool: seq<nat>, toFree: seq<nat>, percpu: map<nat, seq<nat>>, tracked: multiset<nat>,
                         poolFree: int, nrToFree: int, objFree: map<nat, int>, used: int,
                         allocs: int, frees: int, cache: bool, poolSize: nat, minLevel: nat)

  ghost function Waiting(percpu: map<nat, seq<nat>>): map<nat, multiset<nat>> {
    map c | c in percpu :: multiset(percpu[c])
  }

  /** All objects of the per-CPU lists. */
  ghost function PerCpu(percpu: map<nat, seq<nat>>): multiset<nat> {
    Total(Waiting(percpu))
  }

  ghost function All(s: State): multiset<nat> {
    multiset(s.pool) + multiset(s.toFree) + PerCpu(s.percpu) + s.tracked
  }

  /** The counters say how long the lists are. */
  ghost predicate Counted(s: State) {
    && s.poolFree == |s.pool| && s.nrToFree == |s.toFree|
    && (forall c :: c in s.percpu <==> c in s.objFree)
    && (forall c :: c in s.percpu && c in s.objFree ==> s.objFree[c] == |s.percpu[c]|)
  }

  ghost predicate Bounded(s: State) {
    && (forall c :: c in s.percpu ==> |s.percpu[c]| <= POOL_PERCPU_SIZE)
    && |s.toFree| <= FREE_WORK_MAX + BATCH_SIZE
    && BATCH_SIZE <= s.poolSize && s.minLevel <= s.poolSize
  }

  ghost predicate Tallied(s: State) {
    && s.used == |s.tracked| + |PerCpu(s.percpu)|
    && (s.cache ==> |All(s)| == s.allocs - s.frees)
  }

  /** Before the cache exists only the pool is in use. */
  ghost predicate Early(s: State) {
    !s.cache ==> s.toFree == [] && forall c :: c in s.percpu ==> s.percpu[c] == []
  }

  ghost predicate Ok(s: State) {
    Counted(s) && Bounded(s) && Tallied(s) && Early(s)
  }

  /** n objects have come back: to be freed, with a batch of the pool's as there is room for them, if the pool holds
      more than it should; else to the pool. */
  ghost predicate Shed(s: State, t: State, n: nat) {
    if s.cache && s.poolSize < |s.pool| && |s.toFree| < FREE_WORK_MAX then
      var more := if |s.toFree| + n < FREE_WORK_MAX then BATCH_SIZE else 0;
      |t.pool| == |s.pool| - more && |t.toFree| == |s.toFree| + n + more
    else |t.pool| == |s.pool| + n && t.toFree == s.toFree
  }

  /** As many objects to be freed as it takes to fill the pool to `level`, or all there are, have gone there. */
  ghost predicate Refilled(s: State, t: State, level: nat) {
    var n := |s.toFree| - |t.toFree|;
    0 <= n && t.toFree == s.toFree[n..] && |t.pool| == |s.pool| + n && (0 < n ==> |t.pool| <= level)
  }

  lemma NoneRefilled(s: State, level: nat)
    ensures Refilled(s, s, level)
  {
  }

  lemma OneRefilled(s: State, m: State, t: State, level: nat, x: nat)
    requires Refilled(s, m, level) && |m.pool| < level && [x] + t.toFree == m.toFree && |t.pool| == |m.pool| + 1
    ensures Refilled(s, t, level)
  {
    assert t.toFree == m.toFree[1..];
  }

  /** Of the objects `mem` all but `rest` have been added to what there was. */
  ghost predicate Filled(all: multiset<nat>, s: State, mem: seq<nat>, rest: seq<nat>) {
    && |rest| <= |mem| && rest == mem[|mem| - |rest|..]
    && All(s) == all + multiset(mem[..|mem| - |rest|])
  }

  // ----- moving single objects -----

  function PopPool(s: State): State
    requires s.pool != []
  {
    s.(pool := s.pool[1..], poolFree := s.poolFree - 1)
  }

  function PushPool(s: State, x: nat): State {
    s.(pool := [x] + s.pool, poolFree := s.poolFree + 1)
  }

  function PopToFree(s: State): State
    requires s.toFree != []
  {
    s.(toFree := s.toFree[1..], nrToFree := s.nrToFree - 1)
  }

  function PushToFree(s: State, x: nat): State {
    s.(toFree := [x] + s.toFree, nrToFree := s.nrToFree + 1)
  }

  predicate OnCpu(s: State, c: nat) {
    c in s.percpu && c in s.objFree
  }

  function PopCpu(s: State, c: nat): State
    requires OnCpu(s, c) && s.percpu[c] != []
  {
    s.(percpu := s.percpu[c := s.percpu[c][1..]], objFree := s.objFree[c := s.objFree[c] - 1])
  }

  function PushCpu(s: State, c: nat, x: nat): State
    requires OnCpu(s, c)
  {
    s.(percpu := s.percpu[c := [x] + s.percpu[c]], objFree := s.objFree[c := s.objFree[c] + 1])
  }

  lemma Front(q: seq<nat>)
    requires q != []
    ensures multiset(q) == multiset{q[0]} + multiset(q[1..])
  {
    assert q == [q[0]] + q[1..];
  }

  lemma FrontAdded(x: nat, q: seq<nat>)
    ensures multiset([x] + q) == multiset{x} + multiset(q)
  {
  }

  lemma PerCpuSplit(percpu: map<nat, seq<nat>>, c: nat)
    requires c in percpu
    ensures PerCpu(percpu) == multiset(percpu[c]) + Total(Waiting(percpu - {c}))
  {
    TotalRemove(Waiting(percpu), c);
    assert Without(Waiting(percpu), c) == Waiting(percpu - {c});
  }

  lemma PerCpuChange(percpu: map<nat, seq<nat>>, c: nat, q: seq<nat>)
    requires c in percpu
    ensures PerCpu(percpu[c := q]) + multiset(percpu[c]) == PerCpu(percpu) + multiset(q)
  {
    hide PerCpu, Waiting;
    PerCpuSplit(percpu, c);
    PerCpuSplit(percpu[c := q], c);
    assert percpu[c := q] - {c} == percpu - {c};
  }

  /** What two states hold differs by one object. */
  ghost predicate Gains(s: State, t: State, x: nat) {
    All(t) == All(s) + multiset{x} && t.tracked == s.tracked
  }

  lemma PoolMoves(s: State, x: nat)
    requires Counted(s)
    ensures Gains(s, PushPool(s, x), x) && Counted(PushPool(s, x)) && PushPool(s, x).percpu == s.percpu
    ensures s.pool != [] ==> Gains(PopPool(s), s, s.pool[0]) && Counted(PopPool(s)) && PopPool(s).percpu == s.percpu
  {
    hide PerCpu;
    FrontAdded(x, s.pool);
    if s.pool != [] {
      Front(s.pool);
    }
  }

  lemma ToFreeMoves(s: State, x: nat)
    requires Counted(s)
    ensures Gains(s, PushToFree(s, x), x) && Counted(PushToFree(s, x)) && PushToFree(s, x).percpu == s.percpu
    ensures s.toFree != [] ==> Gains(PopToFree(s), s, s.toFree[0]) && Counted(PopToFree(s)) &&
                               PopToFree(s).percpu == s.percpu
  {
    hide PerCpu;
    FrontAdded(x, s.toFree);
    if s.toFree != [] {
      Front(s.toFree);
    }
  }

  lemma Cancel(a: multiset<nat>, b: multiset<nat>, q: multiset<nat>)
    requires a + q == b + q
    ensures a == b
  {
    forall y ensures a[y] == b[y] {
      assert (a + q)[y] == (b + q)[y];
    }
  }

  lemma PushCpuMoves(s: State, c: nat, x: nat)
    requires Counted(s) && OnCpu(s, c)
    ensures var t := PushCpu(s, c, x);
            Gains(s, t, x) && Counted(t) && |PerCpu(t.percpu)| == |PerCpu(s.percpu)| + 1
  {
    hide PerCpu;
    var q := s.percpu[c];
    FrontAdded(x, q);
    PerCpuChange(s.percpu, c, [x] + q);
    Cancel(PerCpu(s.percpu[c := [x] + q]), PerCpu(s.percpu) + multiset{x}, multiset(q));
  }

  lemma PopCpuMoves(s: State, c: nat)
    requires Counted(s) && OnCpu(s, c) && s.percpu[c] != []
    ensures var t := PopCpu(s, c);
            Gains(t, s, s.percpu[c][0]) && Counted(t) && |PerCpu(t.percpu)| == |PerCpu(s.percpu)| - 1
  {
    hide PerCpu;
    var q := s.percpu[c];
    Front(q);
    PerCpuChange(s.percpu, c, q[1..]);
    Cancel(PerCpu(s.percpu), PerCpu(s.percpu[c := q[1..]]) + multiset{q[0]}, multiset(q[1..]));
  }

  /** The lists and the objects in hand make up `all`. */
  ghost predicate Holding(all: multiset<nat>, s: State, hand: multiset<nat>) {
    all == All(s) + hand
  }

  lemma PutDown(all: multiset<nat>, s: State, t: State, x: nat, rest: multiset<nat>)
    requires Holding(all, s, rest + multiset{x}) && Gains(s, t, x)
    ensures Holding(all, t, rest)
  {
    hide All;
  }

  lemma PickUp(all: multiset<nat>, s: State, t: State, x: nat, hand: multiset<nat>)
    requires Holding(all, s, hand) && Gains(t, s, x)
    ensures Holding(all, t, hand + multiset{x})
  {
    hide All;
  }

  /** An object is handed out, or given back. */
  lemma HandedOut(all: multiset<nat>, s: State, x: nat, rest: multiset<nat>)
    requires Holding(all, s, rest + multiset{x})
    ensures Holding(all, s.(tracked := s.tracked + multiset{x}), rest)
  {
    hide PerCpu;
  }

  lemma GivenBack(all: multiset<nat>, s: State, x: nat, hand: multiset<nat>)
    requires Holding(all, s, hand) && x in s.tracked
    ensures Holding(all, s.(tracked := s.tracked - multiset{x}), hand + multiset{x})
  {
    hide PerCpu;
    assert s.tracked == s.tracked - multiset{x} + multiset{x};
  }

  lemma LastOne(objs: seq<nat>)
    requires objs != []
    ensures multiset(objs) == multiset(objs[..|objs| - 1]) + multiset{objs[|objs| - 1]}
  {
    assert objs == objs[..|objs| - 1] + [objs[|objs| - 1]];
  }

  lemma PushedBack(objs: seq<nat>, x: nat)
    ensures multiset(objs + [x]) == multiset(objs) + multiset{x}
  {
  }

  class Pools {
    var objPool: seq<nat>
    var objToFree: seq<nat>
    var freeObjs: map<nat, seq<nat>>
    var objPoolFree: int
    var objNrToFree: int
    var objFree: map<nat, int>
    var objPoolUsed: int
    var allocs: int
    var frees: int
    var objCache: bool
    var poolSize: nat
    var poolMinLevel: nat
    ghost var tracked: multiset<nat>

    ghost function Now(): State
      reads this
    {
      State(objPool, objToFree, freeObjs, tracked, objPoolFree, objNrToFree, objFree, objPoolUsed,
            allocs, frees, objCache, poolSize, poolMinLevel)
    }

    /** debug_objects_early_init: all static objects are in the pool. */
    constructor (statics: seq<nat>, cpus: set<nat>, poolSize: nat, minLevel: nat)
      requires BATCH_SIZE <= poolSize && minLevel <= poolSize
      ensures Ok(Now()) && All(Now()) == multiset(statics) && tracked == multiset{} && !objCache
      ensures objPool == statics && freeObjs.Keys == cpus && allocs == frees == objPoolUsed == 0
      ensures this.poolSize == poolSize && poolMinLevel == minLevel
    {
      objPool, objToFree, objPoolFree, objNrToFree := statics, [], |statics|, 0;
      freeObjs, objFree := map c | c in cpus :: [], map c | c in cpus :: 0;
      objPoolUsed, allocs, frees, objCache, tracked := 0, 0, 0, false, multiset{};
      this.poolSize, poolMinLevel := poolSize, minLevel;
      new;
      NoneOnCpus(freeObjs);
    }

    method TakeFromPool() returns (x: nat)
      requires Counted(Now()) && objPool != []
      modifies this`objPool, this`objPoolFree
      ensures Counted(Now()) && Gains(Now(), old(Now()), x) && [x] + objPool == old(objPool)
    {
      hide Counted, Gains;
      PoolMoves(Now(), 0);
      x := objPool[0];
      objPool := objPool[1..];
      objPoolFree := objPoolFree - 1;
    }

    method PutToPool(x: nat)
      requires Counted(Now())
      modifies this`objPool, this`objPoolFree
      ensures Counted(Now()) && Gains(old(Now()), Now(), x) && |objPool| == |old(objPool)| + 1
    {
      hide Counted, Gains;
      PoolMoves(Now(), x);
      objPool := [x] + objPool;
      objPoolFree := objPoolFree + 1;
    }

    method TakeFromToFree() returns (x: nat)
      requires Counted(Now()) && objToFree != []
      modifies this`objToFree, this`objNrToFree
      ensures Counted(Now()) && Gains(Now(), old(Now()), x) && [x] + objToFree == old(objToFree)
    {
      hide Counted, Gains;
      ToFreeMoves(Now(), 0);
      x := objToFree[0];
      objToFree := objToFree[1..];
      objNrToFree := objNrToFree - 1;
    }

    method PutToFree(x: nat)
      requires Counted(Now())
      modifies this`objToFree, this`objNrToFree
      ensures Counted(Now()) && Gains(old(Now()), Now(), x) && |objToFree| == |old(objToFree)| + 1
    {
      hide Counted, Gains;
      ToFreeMoves(Now(), x);
      objToFree := [x] + objToFree;
      objNrToFree := objNrToFree + 1;
    }

    method TakeFromCpu(cpu: nat) returns (x: nat)
      requires Counted(Now()) && cpu in freeObjs && freeObjs[cpu] != []
      modifies this`freeObjs, this`objFree
      ensures Counted(Now()) && Gains(Now(), old(Now()), x) && |PerCpu(freeObjs)| == |PerCpu(old(freeObjs))| - 1
      ensures x == old(freeObjs)[cpu][0] && freeObjs == old(freeObjs)[cpu := old(freeObjs)[cpu][1..]]
    {
      hide Gains, PerCpu;
      PopCpuMoves(Now(), cpu);
      x := freeObjs[cpu][0];
      freeObjs := freeObjs[cpu := freeObjs[cpu][1..]];
      objFree := objFree[cpu := objFree[cpu] - 1];
    }

    method PutToCpu(cpu: nat, x: nat)
      requires Counted(Now()) && cpu in freeObjs
      modifies this`freeObjs, this`objFree
      ensures Counted(Now()) && Gains(old(Now()), Now(), x) && |PerCpu(freeObjs)| == |PerCpu(old(freeObjs))| + 1
      ensures freeObjs == old(freeObjs)[cpu := [x] + old(freeObjs)[cpu]]
    {
      hide Gains, PerCpu;
      PushCpuMoves(Now(), cpu, x);
      freeObjs := freeObjs[cpu := [x] + freeObjs[cpu]];
      objFree := objFree[cpu := objFree[cpu] + 1];
    }

    /** alloc_object, up to the linking into a bucket. */
    method AllocObject(cpu: nat) returns (obj: Option<nat>)
      requires Ok(Now()) && cpu in freeObjs
      modifies this`objPool, this`objPoolFree, this`freeObjs, this`objFree, this`objPoolUsed, this`tracked
      ensures Ok(Now()) && All(Now()) == All(old(Now())) && forall c :: c in freeObjs <==> c in old(freeObjs)
      ensures obj.Some? ==> tracked == old(tracked) + multiset{obj.value}
      ensures obj.None? ==> Now() == old(Now()) && objPool == [] && (objCache ==> freeObjs[cpu] == [])
      ensures objCache && old(freeObjs)[cpu] != [] ==>
                obj == Some(old(freeObjs)[cpu][0]) && objPool == old(objPool)
                && freeObjs == old(freeObjs)[cpu := old(freeObjs)[cpu][1..]]
      ensures !(objCache && old(freeObjs)[cpu] != []) && old(objPool) != [] ==>
                var n := if objCache then Min(BATCH_SIZE, |old(objPool)| - 1) else 0;
                && obj == Some(old(objPool)[0]) && objPool == old(objPool)[1 + n..]
                && freeObjs == old(freeObjs)[cpu := freeObjs[cpu]] && |freeObjs[cpu]| == |old(freeObjs)[cpu]| + n
    {
      hide Ok, All;
      if objCache && freeObjs[cpu] != [] {
        var x := AllocCached(cpu);
        return Some(x);
      }
      if objPool == [] {
        return None;
      }
      var x := AllocPooled(cpu);
      return Some(x);
    }

    method AllocCached(cpu: nat) returns (x: nat)
      requires Ok(Now()) && cpu in freeObjs && objCache && freeObjs[cpu] != []
      modifies this`freeObjs, this`objFree, this`tracked
      ensures Ok(Now()) && All(Now()) == All(old(Now())) && tracked == old(tracked) + multiset{x}
      ensures x == old(freeObjs)[cpu][0] && freeObjs == old(freeObjs)[cpu := old(freeObjs)[cpu][1..]]
    {
      hide Counted, All, PerCpu, Gains, Holding;
      ghost var s := Now();
      StartHolding(s);
      x := TakeFromCpu(cpu);
      PickUp(All(s), s, Now(), x, multiset{});
      assert multiset{} + multiset{x} == multiset{x};
      Finish(All(s), x);
    }

    method AllocPooled(cpu: nat) returns (x: nat)
      requires Ok(Now()) && cpu in freeObjs && objPool != [] && (objCache ==> freeObjs[cpu] == [])
      modifies this`objPool, this`objPoolFree, this`freeObjs, this`objFree, this`objPoolUsed, this`tracked
      ensures Ok(Now()) && All(Now()) == All(old(Now())) && tracked == old(tracked) + multiset{x}
      ensures var n := if objCache then Min(BATCH_SIZE, |old(objPool)| - 1) else 0;
              && x == old(objPool)[0] && objPool == old(objPool)[1 + n..]
              && cpu in freeObjs && freeObjs == old(freeObjs)[cpu := freeObjs[cpu]]
              && |freeObjs[cpu]| == |old(freeObjs)[cpu]| + n
    {
      hide Counted, All, PerCpu, Gains, Holding, Bounded, Early, Tallied;
      ghost var s := Now();
      x := TakeUsed();
      if objCache {
        LookAhead(cpu, All(s), x);
      } else {
        assert freeObjs == freeObjs[cpu := freeObjs[cpu]];
      }
      Finish(All(s), x);
      Allocated(s, Now(), cpu, x);
    }

    method TakeUsed() returns (x: nat)
      requires Counted(Now()) && objPool != []
      modifies this`objPool, this`objPoolFree, this`objPoolUsed
      ensures Counted(Now()) && Holding(All(old(Now())), Now(), multiset{x}) && objPoolUsed == old(objPoolUsed) + 1
      ensures x == old(objPool)[0] && objPool == old(objPool)[1..]
    {
      hide Counted, All, Gains, Holding;
      ghost var s := Now();
      StartHolding(s);
      x := TakeFromPool();
      PickUp(All(s), s, Now(), x, multiset{});
      assert multiset{} + multiset{x} == multiset{x};
      objPoolUsed := objPoolUsed + 1;
      HoldingUsed(All(s), Now(), multiset{x}, objPoolUsed - 1);
    }

    /** Moves a batch from the pool to the CPU's list. */
    method LookAhead(cpu: nat, ghost all: multiset<nat>, ghost x: nat)
      requires Counted(Now()) && cpu in freeObjs && freeObjs[cpu] == [] && Holding(all, Now(), multiset{x})
      modifies this`objPool, this`objPoolFree, this`freeObjs, this`objFree, this`objPoolUsed
      ensures Counted(Now()) && Holding(all, Now(), multiset{x})
      ensures objPoolUsed - |PerCpu(freeObjs)| == old(objPoolUsed - |PerCpu(freeObjs)|)
      ensures cpu in freeObjs && freeObjs == old(freeObjs)[cpu := freeObjs[cpu]]
      ensures |freeObjs[cpu]| == Min(BATCH_SIZE, |old(objPool)|) && objPool == old(objPool)[|freeObjs[cpu]|..]
    {
      hide Counted, All, PerCpu, Gains, Holding;
      var i := 0;
      while i < BATCH_SIZE
        invariant 0 <= i <= BATCH_SIZE && Counted(Now()) && Holding(all, Now(), multiset{x})
        invariant objPoolUsed - |PerCpu(freeObjs)| == old(objPoolUsed - |PerCpu(freeObjs)|)
        invariant cpu in freeObjs && |freeObjs[cpu]| == i <= |old(objPool)|
        invariant freeObjs == old(freeObjs)[cpu := freeObjs[cpu]] && objPool == old(objPool)[i..]
      {
        if objPool == [] {
          break;
        }
        ghost var s := Now();
        var obj2 := TakeFromPool();
        PickUp(all, s, Now(), obj2, multiset{x});
        s := Now();
        PutToCpu(cpu, obj2);
        PutDown(all, s, Now(), obj2, multiset{x});
        objPoolUsed := objPoolUsed + 1;
        HoldingUsed(all, Now(), multiset{x}, objPoolUsed - 1);
        i := i + 1;
      }
    }

    /** The object in hand becomes a tracked one. */
    ghost method Finish(all: multiset<nat>, x: nat)
      requires Counted(Now()) && Holding(all, Now(), multiset{x})
      modifies this`tracked
      ensures Counted(Now()) && All(Now()) == all && tracked == old(tracked) + multiset{x}
    {
      hide All;
      assert multiset{} + multiset{x} == multiset{x};
      HandedOut(all, Now(), x, multiset{});
      tracked := tracked + multiset{x};
    }

    // ----- giving objects back -----

    /** Pulls a batch out of the CPU's list. */
    method TakeBatch(cpu: nat, ghost all: multiset<nat>, ghost obj: nat) returns (objs: seq<nat>)
      requires Counted(Now()) && cpu in freeObjs && Holding(all, Now(), multiset{obj})
      modifies this`freeObjs, this`objFree
      ensures Counted(Now()) && Holding(all, Now(), multiset{obj} + multiset(objs))
      ensures |objs| == Min(BATCH_SIZE, |old(freeObjs)[cpu]|) && |PerCpu(freeObjs)| == |PerCpu(old(freeObjs))| - |objs|
      ensures freeObjs == old(freeObjs)[cpu := old(freeObjs)[cpu][|objs|..]]
    {
      hide Counted, All, PerCpu, Gains, Holding;
      objs := [];
      assert multiset{obj} + multiset(objs) == multiset{obj};
      while |objs| < BATCH_SIZE
        invariant Counted(Now()) && Holding(all, Now(), multiset{obj} + multiset(objs)) && |objs| <= BATCH_SIZE
        invariant |PerCpu(freeObjs)| == |PerCpu(old(freeObjs))| - |objs| && |objs| <= |old(freeObjs)[cpu]|
        invariant freeObjs == old(freeObjs)[cpu := old(freeObjs)[cpu][|objs|..]]
      {
        if freeObjs[cpu] == [] {
          break;
        }
        ghost var s := Now();
        var x := TakeFromCpu(cpu);
        PickUp(all, s, Now(), x, multiset{obj} + multiset(objs));
        PushedBack(objs, x);
        assert multiset{obj} + multiset(objs) + multiset{x} == multiset{obj} + multiset(objs + [x]);
        objs := objs + [x];
      }
    }

    /** Puts a batch on the global free list, or into the pool. */
    method PutBatch(objs: seq<nat>, toFree: bool, ghost all: multiset<nat>)
      requires Counted(Now()) && Holding(all, Now(), multiset(objs))
      modifies this`objPool, this`objPoolFree, this`objToFree, this`objNrToFree, this`objPoolUsed
      ensures Counted(Now()) && Holding(all, Now(), multiset{}) && objPoolUsed == old(objPoolUsed) - |objs|
      ensures |objToFree| == |old(objToFree)| + (if toFree then |objs| else 0) &&
            (!toFree ==> objToFree == old(objToFree))
      ensures |objPool| == |old(objPool)| + if toFree then 0 else |objs|
    {
      hide Counted, All, PerCpu, Gains, Holding;
      var n := |objs|;
      assert objs[..n] == objs;
      while n != 0
        invariant 0 <= n <= |objs| && Counted(Now()) && Holding(all, Now(), multiset(objs[..n]))
        invariant objPoolUsed == old(objPoolUsed) - (|objs| - n)
        invariant |objToFree| == |old(objToFree)| + (if toFree then |objs| - n else 0) &&
              (!toFree ==> objToFree == old(objToFree))
        invariant |objPool| == |old(objPool)| + if toFree then 0 else |objs| - n
      {
        n := n - 1;
        LastOne(objs[..n + 1]);
        assert objs[..n + 1][..n] == objs[..n];
        ghost var s := Now();
        if toFree {
          PutToFree(objs[n]);
        } else {
          PutToPool(objs[n]);
        }
        PutDown(all, s, Now(), objs[n], multiset(objs[..n]));
        objPoolUsed := objPoolUsed - 1;
        HoldingUsed(all, Now(), multiset(objs[..n]), objPoolUsed + 1);
      }
      assert multiset(objs[..0]) == multiset{};
    }

    /** One more batch goes from the pool to the free list; the pool cannot run out meanwhile. */
    method TrimPool(ghost all: multiset<nat>)
      requires Counted(Now()) && Holding(all, Now(), multiset{}) && BATCH_SIZE < |objPool|
      modifies this`objPool, this`objPoolFree, this`objToFree, this`objNrToFree
      ensures Counted(Now()) && Holding(all, Now(), multiset{}) && |objToFree| == |old(objToFree)| + BATCH_SIZE
      ensures |objPool| == |old(objPool)| - BATCH_SIZE
    {
      hide Counted, All, PerCpu, Gains, Holding;
      var i := 0;
      while i < BATCH_SIZE
        invariant 0 <= i <= BATCH_SIZE && Counted(Now()) && Holding(all, Now(), multiset{})
        invariant |objPool| == |old(objPool)| - i && |objToFree| == |old(objToFree)| + i
      {
        assert objPool != [];
        ghost var s := Now();
        var x := TakeFromPool();
        PickUp(all, s, Now(), x, multiset{});
        s := Now();
        PutToFree(x);
        PutDown(all, s, Now(), x, multiset{});
        i := i + 1;
      }
    }

    /** __free_object with the global lock held: `objs` is the batch pulled out of the CPU's list. */
    method FreeGlobally(obj: nat, objs: seq<nat>, ghost all: multiset<nat>)
      requires Counted(Now()) && Holding(all, Now(), multiset{obj} + multiset(objs)) && |objs| <= BATCH_SIZE
      requires BATCH_SIZE <= poolSize && |objToFree| <= FREE_WORK_MAX + BATCH_SIZE
      modifies this`objPool, this`objPoolFree, this`objToFree, this`objNrToFree, this`objPoolUsed
      ensures Counted(Now()) && All(Now()) == all && objPoolUsed == old(objPoolUsed) - 1 - |objs|
      ensures |objToFree| <= FREE_WORK_MAX + BATCH_SIZE && (!objCache ==> objToFree == old(objToFree))
      ensures Shed(old(Now()), Now(), 1 + |objs|)
    {
      hide All, PerCpu, Gains, Holding;
      var work := objPoolFree > poolSize && objCache && objNrToFree < FREE_WORK_MAX;
      PushedBack(objs, obj);
      assert multiset(objs + [obj]) == multiset{obj} + multiset(objs);
      PutBatch(objs + [obj], work, all);
      if work && objPoolFree > poolSize && objNrToFree < FREE_WORK_MAX {
        TrimPool(all);
      }
      NothingHeld(all, Now());
    }

    /** __free_object */
    method FreeObject(obj: nat, cpu: nat)
      requires Ok(Now()) && obj in tracked && cpu in freeObjs
      modifies this`objPool, this`objPoolFree, this`objToFree, this`objNrToFree, this`objPoolUsed
      modifies this`freeObjs, this`objFree, this`tracked
      ensures Ok(Now()) && All(Now()) == All(old(Now())) && tracked == old(tracked) - multiset{obj}
      ensures forall c :: c in freeObjs <==> c in old(freeObjs)
      ensures objCache && |old(freeObjs)[cpu]| < POOL_PERCPU_SIZE ==>
                freeObjs == old(freeObjs)[cpu := [obj] + old(freeObjs)[cpu]]
                && objPool == old(objPool) && objToFree == old(objToFree)
      ensures objCache && POOL_PERCPU_SIZE <= |old(freeObjs)[cpu]| ==>
                freeObjs == old(freeObjs)[cpu := old(freeObjs)[cpu][BATCH_SIZE..]]
                && Shed(old(Now()), Now(), 1 + BATCH_SIZE)
      ensures !objCache ==> freeObjs == old(freeObjs) && Shed(old(Now()), Now(), 1)
    {
      hide All, PerCpu, Gains, Holding, Early, Tallied;
      ghost var s := Now();
      StartHolding(s);
      GivenBack(All(s), s, obj, multiset{});
      assert multiset{} + multiset{obj} == multiset{obj};
      tracked := tracked - multiset{obj};
      assert Counted(Now());
      if objCache && objFree[cpu] < POOL_PERCPU_SIZE {
        ghost var h := Now();
        PutToCpu(cpu, obj);
        assert multiset{obj} == multiset{} + multiset{obj};
        PutDown(All(s), h, Now(), obj, multiset{});
        NothingHeld(All(s), Now());
        FreedToCpu(s, Now(), cpu, obj);
        return;
      }
      var objs := [];
      assert multiset{obj} == multiset{obj} + multiset(objs);
      assert freeObjs == freeObjs[cpu := freeObjs[cpu]];
      if objCache {
        objs := TakeBatch(cpu, All(s), obj);
      }
      FreeGlobally(obj, objs, All(s));
      FreedGlobally(s, Now(), cpu, obj, |objs|);
    }

    // ----- refilling and emptying -----

    /** Moves objects from the global free list to the pool until that holds `level`. */
    method Reuse(level: nat)
      requires Ok(Now())
      modifies this`objPool, this`objPoolFree, this`objToFree, this`objNrToFree
      ensures Ok(Now()) && All(Now()) == All(old(Now())) && (objToFree == [] || level <= |objPool|)
      ensures Refilled(old(Now()), Now(), level)
    {
      hide Counted, All, PerCpu, Gains, Holding, Refilled;
      ghost var s := Now();
      StartHolding(s);
      PoolCount(Now());
      NoneRefilled(s, level);
      while objNrToFree != 0 && objPoolFree < level
        invariant Counted(Now()) && Holding(All(s), Now(), multiset{}) && objNrToFree == |objToFree| <= |s.toFree|
        invariant objPoolFree == |objPool| && Refilled(s, Now(), level)
        decreases objNrToFree
      {
        ghost var m, h := Now(), Now();
        var x := TakeFromToFree();
        PickUp(All(s), h, Now(), x, multiset{});
        h := Now();
        PutToPool(x);
        PutDown(All(s), h, Now(), x, multiset{});
        PoolCount(Now());
        OneRefilled(s, m, Now(), level, x);
      }
      NothingHeld(All(s), Now());
      assert |objToFree| == 0 ==> objToFree == [];
    }

    /** New objects of the cache go to the pool. */
    method AddBatch(objs: seq<nat>)
      requires Ok(Now()) && objCache
      modifies this`objPool, this`objPoolFree, this`allocs
      ensures Ok(Now()) && All(Now()) == All(old(Now())) + multiset(objs)
      ensures allocs == old(allocs) + |objs| && |objPool| == |old(objPool)| + |objs|
    {
      hide Counted, All, PerCpu, Gains, Holding, Bounded, Tallied, Early;
      ghost var s := Now();
      ghost var all := All(s) + multiset(objs);
      assert Holding(all, s, multiset(objs)) by { NewInHand(s, multiset(objs)); }
      var cnt := |objs|;
      assert objs[..cnt] == objs;
      while cnt != 0
        invariant 0 <= cnt <= |objs| && Counted(Now()) && Holding(all, Now(), multiset(objs[..cnt]))
        invariant allocs == s.allocs + |objs| - cnt && |objPool| == |s.pool| + |objs| - cnt
      {
        cnt := cnt - 1;
        LastOne(objs[..cnt + 1]);
        assert objs[..cnt + 1][..cnt] == objs[..cnt];
        ghost var h := Now();
        PutToPool(objs[cnt]);
        PutDown(all, h, Now(), objs[cnt], multiset(objs[..cnt]));
        allocs := allocs + 1;
        HoldingAllocs(all, Now(), multiset(objs[..cnt]), allocs - 1);
      }
      assert multiset(objs[..0]) == multiset{};
      NothingHeld(all, Now());
      AddedOk(s, Now(), objs);
    }

    /** fill_pool. `mem`: the objects that the cache still has to give. */
    method FillPool(mem: seq<nat>) returns (rest: seq<nat>)
      requires Ok(Now())
      modifies this`objPool, this`objPoolFree, this`objToFree, this`objNrToFree, this`allocs
      ensures Ok(Now()) && Filled(All(old(Now())), Now(), mem, rest)
      ensures poolMinLevel <= |objPool| || rest == [] || !objCache
      ensures |rest| < |mem| ==> objCache && objToFree == [] && |objPool| < poolMinLevel + BATCH_SIZE
      ensures rest == mem ==> Refilled(old(Now()), Now(), poolMinLevel)
    {
      hide Ok, Counted, All, Filled, Refilled;
      OkCounts(Now());
      rest := mem;
      NoneFilled(All(Now()), Now(), mem);
      NoneRefilled(Now(), poolMinLevel);
      if objPoolFree >= poolMinLevel {
        return;
      }
      Reuse(poolMinLevel);
      OkCounts(Now());
      NoneFilled(All(old(Now())), Now(), mem);
      if !objCache {
        return;
      }
      while objPoolFree < poolMinLevel
        invariant Ok(Now()) && Filled(All(old(Now())), Now(), mem, rest) && objPoolFree == |objPool|
        invariant |rest| <= |mem| && (objToFree == [] || poolMinLevel <= |objPool|)
        invariant |rest| < |mem| ==> objToFree == [] && |objPool| < poolMinLevel + BATCH_SIZE
        invariant rest == mem ==> Refilled(old(Now()), Now(), poolMinLevel)
        decreases |rest|
      {
        var cnt := if |rest| < BATCH_SIZE then |rest| else BATCH_SIZE;
        if cnt == 0 {
          return;
        }
        ghost var s := Now();
        AddBatch(rest[..cnt]);
        OkCounts(Now());
        MoreFilled(All(old(Now())), s, Now(), mem, rest, cnt);
        rest := rest[cnt..];
      }
    }

    /** free_obj_work, when it gets the lock: refills the pool, or frees everything on the free list. */
    method FreeObjWork() returns (out: seq<nat>)
      requires Ok(Now())
      modifies this`objPool, this`objPoolFree, this`objToFree, this`objNrToFree, this`frees
      ensures Ok(Now()) && All(Now()) + multiset(out) == All(old(Now())) && frees == old(frees) + |out|
      ensures old(poolSize <= |objPool|) ==> objToFree == [] && out == old(objToFree)
      ensures old(|objPool| < poolSize) ==> out == [] && (objToFree == [] || poolSize <= |objPool|)
      ensures old(|objPool| < poolSize) ==> Refilled(old(Now()), Now(), poolSize)
    {
      hide Ok, All;
      OkCounts(Now());
      out := [];
      if objPoolFree >= poolSize {
        out := objToFree;
        EmptiedOk(Now());
        frees := frees + objNrToFree;
        objToFree, objNrToFree := [], 0;
        return;
      }
      Reuse(poolSize);
    }

    /** object_cpu_offline: the dead CPU's list is freed. */
    method ObjectCpuOffline(cpu: nat) returns (out: seq<nat>)
      requires Ok(Now()) && cpu in freeObjs && cpu in objFree && objCache
      modifies this`freeObjs, this`objFree, this`objPoolUsed, this`frees
      ensures Ok(Now()) && All(Now()) + multiset(out) == All(old(Now())) && tracked == old(tracked)
      ensures out == old(freeObjs)[cpu] && freeObjs == old(freeObjs)[cpu := []]
    {
      hide Ok, All;
      OfflineOk(Now(), cpu);
      out := freeObjs[cpu];
      freeObjs := freeObjs[cpu := []];
      objPoolUsed := objPoolUsed - objFree[cpu];
      frees := frees + objFree[cpu];
      objFree := objFree[cpu := 0];
    }

    /** debug_objects_replace_static_objects: `made` are new objects, one for each static one; `news` are those that
        take the places of the ones in use. */
    method ReplaceStaticObjects(made: seq<nat>) returns (ok: bool, news: seq<nat>)
      requires Ok(Now()) && !objCache && |objPool| + |tracked| == POOL_SIZE && allocs == frees == 0
      modifies this`objPool, this`allocs, this`objCache, this`tracked
      ensures ok <==> POOL_SIZE <= |made|
      ensures ok ==> Ok(Now()) && objCache && All(Now()) == multiset(made[..POOL_SIZE]) && allocs == POOL_SIZE
      ensures ok ==> |news| == |old(tracked)| <= POOL_SIZE && news == made[..|news|] && tracked == multiset(news)
      ensures !ok ==> Now() == old(Now())
    {
      hide Ok, All;
      if |made| < POOL_SIZE {
        return false, [];
      }
      var objects := made[..POOL_SIZE];
      OkCounts(Now());
      allocs := allocs + POOL_SIZE;
      var cnt := POOL_SIZE - objPoolFree;
      Replaced(old(Now()), objects);
      news := objects[..cnt];
      tracked := multiset(news);
      objPool := objects[cnt..];
      objCache := true;
      ok := true;
    }
  }

  /** The books are in order again after an object has come from the pool, and perhaps a batch for the CPU. */
  lemma Allocated(s: State, t: State, c: nat, x: nat)
    requires Ok(s) && c in s.percpu && (s.cache ==> s.percpu[c] == []) && Counted(t) && All(t) == All(s)
    requires t.tracked == s.tracked + multiset{x} && t.used - |PerCpu(t.percpu)| == s.used + 1 - |PerCpu(s.percpu)|
    requires c in t.percpu && t.percpu == s.percpu[c := t.percpu[c]] &&
          (if s.cache then |t.percpu[c]| <= BATCH_SIZE else t.percpu == s.percpu)
    requires t == s.(pool := t.pool, poolFree := t.poolFree, percpu := t.percpu, objFree := t.objFree, used := t.used,
          tracked := t.tracked)
    ensures Ok(t)
  {
    hide Counted, All, PerCpu;
  }

  lemma FreedToCpu(s: State, t: State, c: nat, x: nat)
    requires Ok(s) && c in s.percpu && |s.percpu[c]| < POOL_PERCPU_SIZE && s.cache && Counted(t) && All(t) == All(s)
    requires x in s.tracked && t.tracked == s.tracked - multiset{x} && |PerCpu(t.percpu)| == |PerCpu(s.percpu)| + 1
    requires t.percpu == s.percpu[c := [x] + s.percpu[c]]
    requires t == s.(percpu := t.percpu, objFree := t.objFree, tracked := t.tracked)
    ensures Ok(t)
  {
    hide Counted, All, PerCpu;
  }

  lemma FreedGlobally(s: State, t: State, c: nat, x: nat, n: nat)
    requires Ok(s) && c in s.percpu && Counted(t) && All(t) == All(s) && x in s.tracked &&
          t.tracked == s.tracked - multiset{x}
    requires |PerCpu(t.percpu)| == |PerCpu(s.percpu)| - n && t.used == s.used - 1 - n
    requires c in t.percpu && |t.percpu[c]| <= |s.percpu[c]| && t.percpu == s.percpu[c := t.percpu[c]]
    requires |t.toFree| <= FREE_WORK_MAX + BATCH_SIZE && (!s.cache ==> t.toFree == s.toFree)
    requires t == s.(pool := t.pool, poolFree := t.poolFree, toFree := t.toFree, nrToFree := t.nrToFree,
                     percpu := t.percpu, objFree := t.objFree, used := t.used, tracked := t.tracked)
    ensures Ok(t)
  {
    hide Counted, All, PerCpu;
  }

  lemma NothingHeld(all: multiset<nat>, s: State)
    requires Holding(all, s, multiset{})
    ensures All(s) == all
  {
    hide All;
  }

  lemma PoolCount(s: State)
    requires Counted(s)
    ensures s.poolFree == |s.pool| && s.nrToFree == |s.toFree|
  {
  }

  lemma OkCounts(s: State)
    requires Ok(s)
    ensures s.poolFree == |s.pool| && s.nrToFree == |s.toFree| && s.minLevel <= s.poolSize
  {
  }

  lemma NewInHand(s: State, hand: multiset<nat>)
    ensures Holding(All(s) + hand, s, hand)
  {
  }

  lemma HoldingAllocs(all: multiset<nat>, s: State, hand: multiset<nat>, n: int)
    requires Holding(all, s.(allocs := n), hand) && Counted(s.(allocs := n))
    ensures Holding(all, s, hand) && Counted(s)
  {
  }

  lemma AddedOk(s: State, t: State, objs: seq<nat>)
    requires Ok(s) && s.cache && Counted(t) && All(t) == All(s) + multiset(objs) && t.allocs == s.allocs + |objs|
    requires t == s.(pool := t.pool, poolFree := t.poolFree, allocs := t.allocs)
    ensures Ok(t)
  {
    hide Counted, All, PerCpu;
  }

  lemma EmptiedOk(s: State)
    requires Ok(s)
    ensures var t := s.(toFree := [], nrToFree := 0, frees := s.frees + s.nrToFree);
            Ok(t) && All(t) + multiset(s.toFree) == All(s)
  {
    hide PerCpu;
    var t := s.(toFree := [], nrToFree := 0, frees := s.frees + s.nrToFree);
    assert All(t) + multiset(s.toFree) == All(s);
  }

  lemma OfflineOk(s: State, c: nat)
    requires Ok(s) && OnCpu(s, c) && s.cache
    ensures var t := s.(percpu := s.percpu[c := []], objFree := s.objFree[c := 0], used := s.used - s.objFree[c],
                        frees := s.frees + s.objFree[c]);
            Ok(t) && All(t) + multiset(s.percpu[c]) == All(s)
  {
    hide PerCpu;
    var t := s.(percpu := s.percpu[c := []], objFree := s.objFree[c := 0], used := s.used - s.objFree[c],
                frees := s.frees + s.objFree[c]);
    PerCpuChange(s.percpu, c, []);
    assert PerCpu(t.percpu) + multiset(s.percpu[c]) == PerCpu(s.percpu);
    assert All(t) + multiset(s.percpu[c]) == All(s);
  }

  /** The new objects take over. */
  lemma Replaced(s: State, objects: seq<nat>)
    requires Ok(s) && !s.cache && |s.pool| + |s.tracked| == POOL_SIZE == |objects| && s.allocs == s.frees == 0
    ensures var n := |s.tracked|;
            var t := s.(pool := objects[n..], tracked := multiset(objects[..n]), allocs := POOL_SIZE, cache := true);
            Ok(t) && All(t) == multiset(objects)
  {
    hide PerCpu;
    NoneOnCpus(s.percpu);
    assert objects == objects[..|s.tracked|] + objects[|s.tracked|..];
  }

  lemma NoneOnCpus(percpu: map<nat, seq<nat>>)
    requires forall c :: c in percpu ==> percpu[c] == []
    ensures PerCpu(percpu) == multiset{}
    decreases percpu.Keys
  {
    if percpu == map[] {
      assert Waiting(percpu) == map[];
    } else {
      var c :| c in percpu;
      PerCpuSplit(percpu, c);
      NoneOnCpus(percpu - {c});
    }
  }

  lemma NoneFilled(all: multiset<nat>, s: State, mem: seq<nat>)
    requires All(s) == all
    ensures Filled(all, s, mem, mem)
  {
    assert mem[..0] == [];
  }

  lemma MoreFilled(all: multiset<nat>, s: State, t: State, mem: seq<nat>, rest: seq<nat>, n: nat)
    requires n <= |rest| && Filled(all, s, mem, rest) && All(t) == All(s) + multiset(rest[..n])
    ensures Filled(all, t, mem, rest[n..])
  {
    hide All;
    var k := |mem| - |rest|;
    assert mem[..k + n] == mem[..k] + rest[..n];
  }

  lemma StartHolding(s: State)
    ensures Holding(All(s), s, multiset{})
  {
  }

  /** The used counter does not matter to what is held. */
  lemma HoldingUsed(all: multiset<nat>, s: State, hand: multiset<nat>, used: int)
    requires Holding(all, s.(used := used), hand) && Counted(s.(used := used))
    ensures Holding(all, s, hand) && Counted(s)
  {
  }
}
