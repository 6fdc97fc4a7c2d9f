/** The lifetime tracker of debugobjects.c: which addresses are tracked, in which state, and in which hash bucket. */
module ObjTracker {
  import opened Lists
  import opened Modular
  import opened ObjPools
  import opened Options

  datatype Life = None_ | Init | Inactive | Active | Destroyed

  /** A tracker object in use. */
  datatype Obj = Obj(addr: nat, state: Life, astate: nat)

  /** Buckets are found by the page of the address. */
  datatype Config = Config(chunk: nat, hash: nat -> nat, size: nat)

  function BucketOf(c: Config, addr: nat): nat
    requires 0 < c.chunk
  {
    c.hash(addr / c.chunk)
  }

  function Bucket(buckets: map<nat, seq<nat>>, h: nat): seq<nat> {
    if h in buckets then buckets[h] else []
  }

  /** Every object is in the bucket of its address, once. */
  ghost predicate Listed(c: Config, buckets: map<nat, seq<nat>>, objs: map<nat, Obj>)
    requires 0 < c.chunk
  {
    && (forall h, x :: x in Bucket(buckets, h) <==> x in objs && BucketOf(c, objs[x].addr) == h)
    && (forall h :: NoDup(Bucket(buckets, h)))
  }

  /** No address has two objects, and a nonzero active state means active. */
  ghost predicate Unique(objs: map<nat, Obj>) {
    && (forall x, y :: x in objs && y in objs && objs[x].addr == objs[y].addr ==> x == y)
    && (forall x :: x in objs ==> Sound(objs[x]))
  }

  ghost predicate Filed(c: Config, buckets: map<nat, seq<nat>>, objs: map<nat, Obj>) {
    0 < c.chunk && Listed(c, buckets, objs) && Unique(objs)
  }

  ghost predicate Sound(o: Obj) {
    o.astate != 0 ==> o.state == Active
  }

  ghost predicate Untracked(objs: map<nat, Obj>, addr: nat) {
    forall x :: x in objs ==> objs[x].addr != addr
  }

  lemma BucketChange(buckets: map<nat, seq<nat>>, h: nat, q: seq<nat>, after: map<nat, seq<nat>>)
    requires after == buckets[h := q]
    ensures forall g :: Bucket(after, g) == if g == h then q else Bucket(buckets, g)
  {
  }

  /** The state of one object changes. */
  lemma ChangeKeeps(c: Config, buckets: map<nat, seq<nat>>, objs: map<nat, Obj>, x: nat, o: Obj)
    requires Filed(c, buckets, objs) && x in objs && o.addr == objs[x].addr && Sound(o)
    ensures Filed(c, buckets, objs[x := o])
  {
    hide NoDup, BucketOf, Bucket;
  }

  lemma LinkKeeps(c: Config, buckets: map<nat, seq<nat>>, objs: map<nat, Obj>, x: nat, o: Obj)
    requires Filed(c, buckets, objs) && x !in objs && Untracked(objs, o.addr) && Sound(o)
    ensures var h := BucketOf(c, o.addr); Filed(c, buckets[h := [x] + Bucket(buckets, h)], objs[x := o])
  {
    hide BucketOf, Bucket;
    var h := BucketOf(c, o.addr);
    var after := buckets[h := [x] + Bucket(buckets, h)];
    BucketChange(buckets, h, [x] + Bucket(buckets, h), after);
    assert x !in Bucket(buckets, h);
  }

  function Removed(objs: map<nat, Obj>, x: nat): map<nat, Obj> {
    objs - {x}
  }

  lemma UnlinkKeeps(c: Config, buckets: map<nat, seq<nat>>, objs: map<nat, Obj>, x: nat)
    requires Filed(c, buckets, objs) && x in objs
    ensures var h := BucketOf(c, objs[x].addr);
            Filed(c, buckets[h := Unlinked(Bucket(buckets, h), x)], Removed(objs, x))
  {
    hide BucketOf, Bucket, NoDup, Unlinked, Listed, Sound;
    UnlinkLists(c, buckets, objs, x);
  }

  lemma UnlinkLists(c: Config, buckets: map<nat, seq<nat>>, objs: map<nat, Obj>, x: nat)
    requires 0 < c.chunk && Listed(c, buckets, objs) && x in objs
    ensures var h := BucketOf(c, objs[x].addr);
            Listed(c, buckets[h := Unlinked(Bucket(buckets, h), x)], Removed(objs, x))
  {
    hide BucketOf, Bucket, NoDup, Unlinked, Removed;
    var h := BucketOf(c, objs[x].addr);
    var after := buckets[h := Unlinked(Bucket(buckets, h), x)];
    BucketChange(buckets, h, Unlinked(Bucket(buckets, h), x), after);
    UnlinkedHas(Bucket(buckets, h), x);
    var rest := Removed(objs, x);
    RemovedHas(objs, x);
    forall g, y ensures y in Bucket(after, g) <==> y in rest && BucketOf(c, rest[y].addr) == g {
      assert y in Bucket(buckets, g) <==> y in objs && BucketOf(c, objs[y].addr) == g;
    }
  }

  lemma RemovedHas(objs: map<nat, Obj>, x: nat)
    ensures forall y :: y in Removed(objs, x) <==> y in objs && y != x
    ensures forall y :: y in Removed(objs, x) ==> Removed(objs, x)[y] == objs[y]
  {
  }

  // ----- what the operations do to one object -----

  datatype Op = OpInit | OpActivate | OpDeactivate | OpDestroy | OpFree | OpAssertInit
              | OpActiveState(want: nat, next: nat)

  /** The object afterwards, if it is still tracked. */
  function After(o: Obj, op: Op): Option<Obj> {
    match op
    case OpInit =>
      Some(if o.state == None_ || o.state == Init || o.state == Inactive then o.(state := Init) else o)
    case OpActivate => Some(if o.state == Init || o.state == Inactive then o.(state := Active) else o)
    case OpDeactivate =>
      Some(if (o.state == Init || o.state == Inactive || o.state == Active) && o.astate == 0
           then o.(state := Inactive) else o)
    case OpDestroy =>
      Some(if o.state == None_ || o.state == Init || o.state == Inactive then o.(state := Destroyed) else o)
    case OpFree => if o.state == Active then Some(o) else None
    case OpAssertInit => Some(o)
    case OpActiveState(want, next) => Some(if o.state == Active && o.astate == want then o.(astate := next) else o)
  }

  /** No operation leaves an active state on an object that is not active, or changes its address. */
  lemma StaysSound(o: Obj, op: Op)
    requires Sound(o)
    ensures After(o, op).Some? ==> Sound(After(o, op).value) && After(o, op).value.addr == o.addr
  {
  }

  function AfterAll(o: Obj, ops: seq<Op>): Option<Obj> {
    if ops == [] then Some(o) else
      match AfterAll(o, ops[..|ops| - 1])
      case Some(p) => After(p, ops[|ops| - 1])
      case None => None
  }

  /** Once destroyed, an object stays destroyed, whatever is done to it, until it is freed; and an object that has an
      active state is only left by freeing once it has been taken back to state zero and deactivated. */
  lemma {:induction false} DestroyedUntilFreed(o: Obj, ops: seq<Op>)
    requires Sound(o) && o.state == Destroyed
    ensures AfterAll(o, ops) == if OpFree in ops then None else Some(o)
  {
    if ops != [] {
      var n := |ops| - 1;
      DestroyedUntilFreed(o, ops[..n]);
      assert ops == ops[..n] + [ops[n]];
    }
  }

  /** An object with an active state leaves it only through the active state itself. */
  lemma {:induction false} PinnedByActiveState(o: Obj, ops: seq<Op>)
    requires Sound(o) && o.astate != 0 && forall op :: op in ops ==> !op.OpActiveState?
    ensures AfterAll(o, ops) == Some(o)
  {
    if ops != [] {
      var n := |ops| - 1;
      PinnedByActiveState(o, ops[..n]);
      assert ops[n] in ops;
    }
  }

  // ----- the tracker -----

  /** The objects in use are those that the pools have handed out, and no object is in two places. */
  ghost predicate Matches(s: State, objs: map<nat, Obj>) {
    ObjPools.Ok(s) && s.tracked == multiset(objs.Keys) && forall x :: All(s)[x] <= 1
  }

  lemma NewOne(s: State, t: State, objs: map<nat, Obj>, x: nat, o: Obj)
    requires Matches(s, objs) && ObjPools.Ok(t) && All(t) == All(s) && t.tracked == s.tracked + multiset{x}
    ensures x !in objs && Matches(t, objs[x := o])
  {
    hide ObjPools.Ok, PerCpu;
    assert t.tracked[x] <= All(t)[x];
    assert objs[x := o].Keys == objs.Keys + {x};
  }

  lemma OneLess(s: State, t: State, objs: map<nat, Obj>, x: nat)
    requires Matches(s, objs) && x in objs && ObjPools.Ok(t) && All(t) == All(s) && t.tracked == s.tracked - multiset{x}
    ensures Matches(t, Removed(objs, x))
  {
    hide ObjPools.Ok, All;
    assert Removed(objs, x).Keys == objs.Keys - {x};
  }

  lemma SameKeys(s: State, objs: map<nat, Obj>, x: nat, o: Obj)
    requires Matches(s, objs) && x in objs
    ensures Matches(s, objs[x := o]) && x in s.tracked
  {
    hide ObjPools.Ok, All;
    assert objs[x := o].Keys == objs.Keys;
  }

  datatype Found = Found(x: nat) | NoEntry | NoMemory

  /** What fixup_free makes of an active object. */
  datatype Repair = Freed | Becomes(state: Life)

  class Tracker {
    const c: Config
    const pools: Pools
    var buckets: map<nat, seq<nat>>
    var objs: map<nat, Obj>
    var enabled: bool

    ghost predicate Valid()
      reads this, pools
    {
      Filed(c, buckets, objs) && Matches(pools.Now(), objs) && forall p :: c.hash(p) < c.size
    }

    constructor (c: Config, pools: Pools)
      requires ObjPools.Ok(pools.Now()) && pools.tracked == multiset{} && forall x :: All(pools.Now())[x] <= 1
      requires 0 < c.chunk && forall p :: c.hash(p) < c.size
      ensures this.c == c && this.pools == pools && Valid() && objs == map[] && enabled
    {
      this.c, this.pools, buckets, objs, enabled := c, pools, map[], map[], true;
    }

    method LookupObject(addr: nat) returns (r: Option<nat>)
      requires Filed(c, buckets, objs)
      ensures match r
              case Some(x) => x in objs && objs[x].addr == addr
              case None => Untracked(objs, addr)
    {
      var q := Bucket(buckets, BucketOf(c, addr));
      var i := 0;
      while i < |q|
        invariant 0 <= i <= |q| && forall j :: 0 <= j < i ==> q[j] in objs && objs[q[j]].addr != addr
      {
        assert q[i] in q;
        if objs[q[i]].addr == addr {
          return Some(q[i]);
        }
        i := i + 1;
      }
      forall x | x in objs ensures objs[x].addr != addr {
        assert objs[x].addr == addr ==> x in q;
      }
      return None;
    }

    /** alloc_object: an object for an address that has none, at the head of its bucket. */
    method Track(addr: nat, life: Life, cpu: nat) returns (x: Option<nat>)
      requires Valid() && cpu in pools.freeObjs && Untracked(objs, addr)
      modifies this`buckets, this`objs, pools
      ensures Valid() && cpu in pools.freeObjs
      ensures match x
              case Some(y) => y !in old(objs) && objs == old(objs)[y := Obj(addr, life, 0)]
              case None => objs == old(objs)
    {
      hide Filed, Matches, BucketOf, Untracked, All, ObjPools.Ok;
      MatchesOk(pools.Now(), objs);
      ghost var s := pools.Now();
      x := pools.AllocObject(cpu);
      if x.None? {
        return;
      }
      var o := Obj(addr, life, 0);
      NewOne(s, pools.Now(), objs, x.value, o);
      LinkKeeps(c, buckets, objs, x.value, o);
      ChunkOk(c, buckets, objs);
      var h := BucketOf(c, addr);
      buckets := buckets[h := [x.value] + Bucket(buckets, h)];
      objs := objs[x.value := o];
    }

    /** `isStatic`: what the descriptor says of the address, asked for unless the caller wants every address tracked. */
    method LookupObjectOrAlloc(addr: nat, cpu: nat, allocIfStatic: bool, isStatic: bool) returns (r: Found)
      requires Valid() && cpu in pools.freeObjs
      modifies this`buckets, this`objs, this`enabled, pools
      ensures Valid() && cpu in pools.freeObjs
      ensures match r
              case Found(x) => LookedUp(old(objs), objs, x, addr, if allocIfStatic then Init else None_) &&
                  enabled == old(enabled)
              case NoEntry => allocIfStatic && !isStatic && enabled == old(enabled) && objs == old(objs) &&
                  Untracked(objs, addr)
              case NoMemory => !enabled && objs == old(objs) && Untracked(objs, addr) && (allocIfStatic ==> isStatic)
      ensures allocIfStatic && !isStatic ==> objs == old(objs)
    {
      hide Filed, Matches, Untracked;
      var found := LookupObject(addr);
      if found.Some? {
        return Found.Found(found.value);
      }
      if allocIfStatic && !isStatic {
        return NoEntry;
      }
      var x := Track(addr, if allocIfStatic then Init else None_, cpu);
      if x.None? {
        enabled := false;
        return NoMemory;
      }
      return Found.Found(x.value);
    }

    /** The object leaves its bucket and goes back to the pools. */
    method Untrack(x: nat, cpu: nat)
      requires Valid() && cpu in pools.freeObjs && x in objs
      modifies this`buckets, this`objs, pools
      ensures Valid() && cpu in pools.freeObjs && objs == Removed(old(objs), x)
      ensures var h := BucketOf(c, old(objs)[x].addr);
              buckets == old(buckets)[h := Unlinked(Bucket(old(buckets), h), x)]
    {
      hide Filed, Matches, BucketOf, All, ObjPools.Ok, Unlinked;
      MatchesOk(pools.Now(), objs);
      ghost var s := pools.Now();
      SameKeys(s, objs, x, objs[x]);
      UnlinkKeeps(c, buckets, objs, x);
      ChunkOk(c, buckets, objs);
      pools.FreeObject(x, cpu);
      OneLess(s, pools.Now(), objs, x);
      var h := BucketOf(c, objs[x].addr);
      buckets := buckets[h := Unlinked(Bucket(buckets, h), x)];
      objs := objs - {x};
    }

    method SetState(x: nat, o: Obj)
      requires Valid() && x in objs && o.addr == objs[x].addr && Sound(o)
      modifies this`objs
      ensures Valid() && objs == old(objs)[x := o]
    {
      hide Filed, Matches, BucketOf, Sound;
      ChangeKeeps(c, buckets, objs, x, o);
      SameKeys(pools.Now(), objs, x, o);
      objs := objs[x := o];
    }

    method EmptyBucket(h: nat, cpu: nat)
      requires Valid() && cpu in pools.freeObjs
      modifies this`buckets, this`objs, pools
      ensures Valid() && cpu in pools.freeObjs
      ensures forall x :: x in objs ==> x in old(objs) && objs[x] == old(objs)[x] && 0 < c.chunk &&
                                        BucketOf(c, objs[x].addr) != h
    {
      hide Filed, Matches, BucketOf;
      while Bucket(buckets, h) != []
        invariant Valid() && cpu in pools.freeObjs
        invariant forall x :: x in objs ==> x in old(objs) && objs[x] == old(objs)[x]
        decreases |objs|
      {
        FirstOf(c, buckets, objs, h);
        var x := Bucket(buckets, h)[0];
        RemovedHas(objs, x);
        Untrack(x, cpu);
      }
      BucketEmpty(c, buckets, objs, h);
    }

    /** debug_objects_oom: nothing is tracked any more. */
    method DebugObjectsOom(cpu: nat)
      requires Valid() && cpu in pools.freeObjs
      modifies this`buckets, this`objs, pools
      ensures Valid() && cpu in pools.freeObjs && objs == map[]
    {
      hide Filed, Matches, BucketOf;
      var h := 0;
      ChunkOk(c, buckets, objs);
      while h < c.size
        invariant 0 <= h <= c.size && Valid() && cpu in pools.freeObjs
        invariant forall x :: x in objs ==> 0 < c.chunk && h <= BucketOf(c, objs[x].addr)
      {
        EmptyBucket(h, cpu);
        h := h + 1;
      }
      NoneLeft(c, buckets, objs);
    }

    /** debug_objects_replace_static_objects: new objects take the places of the static ones, in the same buckets and
        with the same contents. `made`: what the cache gives. */
    method ReplaceStaticObjects(made: seq<nat>) returns (ok: bool)
      requires Valid() && !pools.objCache && |pools.objPool| + |objs| == POOL_SIZE && pools.allocs == pools.frees == 0
      requires NoDup(made) && forall x :: x in made ==> x !in objs
      modifies this`buckets, this`objs, pools
      ensures Valid() && SameObjs(old(objs), objs) && |objs| == |old(objs)|
      ensures ok <==> POOL_SIZE <= |made|
      ensures ok ==> pools.objCache && All(pools.Now()) == multiset(made[..POOL_SIZE])
      ensures ok ==> forall x :: x in objs ==> x in made
      ensures !ok ==> objs == old(objs)
    {
      hide Filed, BucketOf, ObjPools.Ok, All, SameObjs, Replacing, Progress, NoDup, Matches;
      ghost var was, left := objs, objs.Keys;
      InUse(pools.Now(), objs);
      var news;
      ok, news := pools.ReplaceStaticObjects(made);
      SameSelf(objs);
      if !ok {
        return;
      }
      NewOnes(made, |news|);
      ReplaceStart(objs, news);
      var h, cnt := 0, 0;
      ChunkOk(c, buckets, objs);
      ProgressStart(c, objs);
      assert ObjPools.Ok(pools.Now());
      while h < c.size
        invariant 0 <= h <= c.size && Filed(c, buckets, objs) && 0 <= cnt && Replacing(was, objs, news, cnt, left)
        invariant Progress(c, objs, left, h, h)
        modifies this`buckets, this`objs
      {
        cnt, left := ReplaceBucket(h, news, cnt, was, left);
        h := h + 1;
      }
      ReplaceEnd(c, was, objs, news, cnt, left);
      MatchesNew(pools.Now(), objs, made, news);
    }

    /** The objects of one bucket are taken off it, and new ones with their contents put on one by one. */
    method ReplaceBucket(h: nat, news: seq<nat>, cnt0: nat, ghost was: map<nat, Obj>, ghost left0: set<nat>)
      returns (cnt: nat, ghost left: set<nat>)
      requires Filed(c, buckets, objs) && Replacing(was, objs, news, cnt0, left0) && Progress(c, objs, left0, h, h)
      modifies this`buckets, this`objs
      ensures Filed(c, buckets, objs) && Replacing(was, objs, news, cnt, left) && Progress(c, objs, left, h + 1, h + 1)
    {
      hide Filed, BucketOf, Replacing, Progress, SameObjs, NoDup, Bucket;
      var objects, i := Bucket(buckets, h), 0;
      BucketStart(c, buckets, objs, h, left0);
      buckets := buckets[h := []];
      cnt, left := cnt0, left0;
      while i < |objects|
        invariant 0 <= i <= |objects| && Halfway(c, buckets, objs, h, objects[i..], left)
        invariant Replacing(was, objs, news, cnt, left) && Progress(c, objs, left, h, h + 1)
      {
        var obj := objects[i];
        HalfwayFacts(c, buckets, objs, h, objects[i..], left);
        ReplaceOne(was, objs, news, cnt, left, obj);
        var new_ := news[cnt];
        SwapOne(c, buckets, objs, h, objects[i..], left, new_);
        assert objects[i..][1..] == objects[i + 1..];
        buckets := buckets[h := [new_] + Bucket(buckets, h)];
        objs := Removed(objs, obj)[new_ := objs[obj]];
        left := left - {obj};
        cnt, i := cnt + 1, i + 1;
      }
      assert objects[|objects|..] == [];
      BucketDone(c, buckets, objs, h, left);
    }

    // ----- the operations -----

    /** debug_object_init. `warn`: misuse is reported. */
    method DebugObjectInit(addr: nat, cpu: nat) returns (warn: bool)
      requires Valid() && cpu in pools.freeObjs
      modifies this`buckets, this`objs, this`enabled, pools
      ensures Valid() && cpu in pools.freeObjs
      ensures !old(enabled) ==> objs == old(objs) && !enabled && !warn
      ensures old(enabled) && !enabled ==> objs == map[] && !warn
      ensures old(enabled) && enabled ==> exists x :: x in objs && Handled(old(objs), objs, x, addr, OpInit, None_)
                                                   && (warn <==> objs[x].state == Active || objs[x].state == Destroyed)
      ensures enabled ==> if warn then objs == old(objs) else TrackedAs(objs, addr, Init)
    {
      hide Filed, Matches, BucketOf, LookedUp, Handled, Sound;
      warn := false;
      if !enabled {
        return;
      }
      var r := LookupObjectOrAlloc(addr, cpu, false, false);
      if r.NoMemory? {
        DebugObjectsOom(cpu);
        return;
      }
      var x := r.x;
      ghost var mid := objs;
      LookedUpHas(old(objs), mid, x, addr, None_);
      LookedUpOld(old(objs), mid, x, addr, None_);
      SoundAt(c, buckets, objs, x);
      StaysSound(objs[x], OpInit);
      match objs[x].state {
        case None_ => SetState(x, objs[x].(state := Init));
        case Init => SetState(x, objs[x].(state := Init));
        case Inactive => SetState(x, objs[x].(state := Init));
        case Active => warn := true;
        case Destroyed => warn := true;
      }
      SameObject(objs, x);
      HandledBy(old(objs), mid, objs, x, addr, OpInit, None_);
    }

    /** debug_object_activate. `fixed`: fixup_activate claims to have repaired a misuse. */
    method DebugObjectActivate(addr: nat, cpu: nat, isStatic: bool, fixed: bool) returns (ret: int, warn: bool)
      requires Valid() && cpu in pools.freeObjs
      modifies this`buckets, this`objs, this`enabled, pools
      ensures Valid() && cpu in pools.freeObjs
      ensures !old(enabled) ==> objs == old(objs) && !enabled && !warn
      ensures old(enabled) && !enabled ==> objs == map[] && !warn
      ensures old(enabled) && enabled && !Refused(old(objs), addr, isStatic) ==>
                exists x :: x in objs && Handled(old(objs), objs, x, addr, OpActivate, Init)
                         && (warn <==>
                               x in old(objs) && (old(objs)[x].state == Active || old(objs)[x].state == Destroyed))
      ensures old(enabled) && Refused(old(objs), addr, isStatic) ==> warn && objs == old(objs)
      ensures ret == (if warn && !(fixed && (Refused(old(objs), addr, isStatic) ||
            TrackedAs(old(objs), addr, Active))) then -EINVAL else 0)
      ensures enabled ==> if warn then objs == old(objs)
                          else TrackedAs(objs, addr, Active) || (TrackedAs(old(objs), addr, None_) && objs == old(objs))
    {
      hide Filed, Matches, BucketOf, LookedUp, Handled, Sound;
      ret, warn := 0, false;
      UniqueIn(c, buckets, objs);
      if !enabled {
        return;
      }
      var r := LookupObjectOrAlloc(addr, cpu, true, isStatic);
      if r.NoMemory? {
        DebugObjectsOom(cpu);
        return;
      }
      if r.NoEntry? {
        return if fixed then 0 else -EINVAL, true;
      }
      var x := r.x;
      ghost var mid := objs;
      LookedUpHas(old(objs), mid, x, addr, Init);
      LookedUpOld(old(objs), mid, x, addr, Init);
      SoundAt(c, buckets, objs, x);
      StaysSound(objs[x], OpActivate);
      var life := objs[x].state;
      match life {
        case Active => ret, warn := if fixed then 0 else -EINVAL, true;
        case Destroyed => ret, warn := -EINVAL, true;
        case Init => SetState(x, objs[x].(state := Active));
        case Inactive => SetState(x, objs[x].(state := Active));
        case None_ =>
      }
      SameObject(objs, x);
      HandledBy(old(objs), mid, objs, x, addr, OpActivate, Init);
    }

    /** debug_object_deactivate */
    method DebugObjectDeactivate(addr: nat) returns (warn: bool)
      requires Valid()
      modifies this`objs
      ensures Valid() && OnTracked(enabled, old(objs), objs, addr, OpDeactivate)
      ensures if !enabled then !warn else Untracked(old(objs), addr) ==> warn
      ensures enabled ==> forall x :: x in old(objs) && old(objs)[x].addr == addr ==>
                (warn <==> old(objs)[x].state == Destroyed || old(objs)[x].astate != 0)
      ensures enabled ==>
                if warn then objs == old(objs)
                else TrackedAs(objs, addr, Inactive) || (TrackedAs(old(objs), addr, None_) && objs == old(objs))
    {
      hide Filed, Matches, BucketOf, Sound;
      if !enabled {
        return false;
      }
      UniqueIn(c, buckets, objs);
      var found := LookupObject(addr);
      if found.None? {
        return true;
      }
      var x := found.value;
      SoundAt(c, buckets, objs, x);
      StaysSound(objs[x], OpDeactivate);
      SoundSays(objs[x]);
      warn := false;
      match objs[x].state {
        case Destroyed => warn := true;
        case None_ =>
        case _ =>
          if objs[x].astate != 0 {
            warn := true;
          } else {
            SetState(x, objs[x].(state := Inactive));
          }
      }
      SameObject(objs, x);
    }

    /** debug_object_destroy */
    method DebugObjectDestroy(addr: nat) returns (warn: bool)
      requires Valid()
      modifies this`objs
      ensures Valid() && OnTracked(enabled, old(objs), objs, addr, OpDestroy)
      ensures warn <==> enabled && (TrackedAs(old(objs), addr, Active) || TrackedAs(old(objs), addr, Destroyed))
      ensures warn || Untracked(old(objs), addr) ==> objs == old(objs)
      ensures enabled && !warn && !Untracked(old(objs), addr) ==> TrackedAs(objs, addr, Destroyed)
    {
      hide Filed, Matches, BucketOf, Sound;
      if !enabled {
        return false;
      }
      UniqueIn(c, buckets, objs);
      var found := LookupObject(addr);
      if found.None? {
        return false;
      }
      var x := found.value;
      SoundAt(c, buckets, objs, x);
      StaysSound(objs[x], OpDestroy);
      warn := false;
      match objs[x].state {
        case Active => warn := true;
        case Destroyed => warn := true;
        case _ => SetState(x, objs[x].(state := Destroyed));
      }
      SameObject(objs, x);
    }

    /** debug_object_free, without what fixup_free does to an active object. */
    method DebugObjectFree(addr: nat, cpu: nat) returns (warn: bool)
      requires Valid() && cpu in pools.freeObjs
      modifies this`buckets, this`objs, pools
      ensures Valid() && cpu in pools.freeObjs && OnTracked(enabled, old(objs), objs, addr, OpFree)
      ensures warn <==> enabled && TrackedAs(old(objs), addr, Active)
      ensures enabled ==> if warn then objs == old(objs) else Untracked(objs, addr)
    {
      hide Filed, Matches, BucketOf;
      if !enabled {
        return false;
      }
      UniqueIn(c, buckets, objs);
      var found := LookupObject(addr);
      if found.None? {
        return false;
      }
      var x := found.value;
      if objs[x].state == Active {
        SameObject(objs, x);
        return true;
      }
      Untrack(x, cpu);
      return false;
    }

    /** debug_object_assert_init */
    method DebugObjectAssertInit(addr: nat, cpu: nat, isStatic: bool) returns (warn: bool)
      requires Valid() && cpu in pools.freeObjs
      modifies this`buckets, this`objs, this`enabled, pools
      ensures Valid() && cpu in pools.freeObjs
      ensures !old(enabled) ==> objs == old(objs) && !enabled && !warn
      ensures old(enabled) && !enabled ==> objs == map[] && !warn
      ensures old(enabled) && enabled ==> (warn <==> Refused(old(objs), addr, isStatic))
      ensures old(enabled) && enabled && warn ==> objs == old(objs)
      ensures old(enabled) && enabled && !warn ==> exists x :: x in objs && LookedUp(old(objs), objs, x, addr, Init)
    {
      hide Filed, Matches, BucketOf;
      if !enabled {
        return false;
      }
      var r := LookupObjectOrAlloc(addr, cpu, true, isStatic);
      if r.NoMemory? {
        DebugObjectsOom(cpu);
        return false;
      }
      return r.NoEntry?;
    }

    /** debug_object_active_state */
    method DebugObjectActiveState(addr: nat, want: nat, next: nat) returns (warn: bool)
      requires Valid()
      modifies this`objs
      ensures Valid() && OnTracked(enabled, old(objs), objs, addr, OpActiveState(want, next))
      ensures !enabled ==> !warn
      ensures enabled ==>
                (warn <==> !exists x :: x in old(objs) && old(objs)[x].addr == addr
                                        && old(objs)[x].state == Active && old(objs)[x].astate == want)
      ensures enabled ==>
                if warn then objs == old(objs)
                else exists x :: x in objs && x in old(objs) && objs[x] == Obj(addr, Active, next)
                                 && objs == old(objs)[x := objs[x]]
    {
      hide Filed, Matches, BucketOf, Sound;
      if !enabled {
        return false;
      }
      UniqueIn(c, buckets, objs);
      var found := LookupObject(addr);
      if found.None? {
        return true;
      }
      var x := found.value;
      SoundAt(c, buckets, objs, x);
      StaysSound(objs[x], OpActiveState(want, next));
      warn := true;
      if objs[x].state == Active && objs[x].astate == want {
        SetState(x, objs[x].(astate := next));
        warn := false;
      }
      SameObject(objs, x);
    }

    // ----- freeing memory that may hold tracked objects -----

    /** fixup_free of an active object. */
    method FixupFree(x: nat, cpu: nat, repair: Repair)
      requires Valid() && cpu in pools.freeObjs && x in objs && (repair.Becomes? ==> repair.state != Active)
      modifies this`buckets, this`objs, pools
      ensures Valid() && cpu in pools.freeObjs
      ensures objs == if repair.Freed? then Removed(old(objs), x)
            else old(objs)[x := Obj(old(objs)[x].addr, repair.state, 0)]
    {
      hide Filed, Matches, BucketOf;
      if repair.Freed? {
        Untrack(x, cpu);
      } else {
        SetState(x, Obj(objs[x].addr, repair.state, 0));
      }
    }

    /** Clears one bucket of what lies in [s, e), starting over after every active object. */
    method ScanBucket(h: nat, s: nat, e: nat, cpu: nat, repair: nat -> Repair)
      requires Valid() && cpu in pools.freeObjs && forall a :: repair(a).Becomes? ==> repair(a).state != Active
      modifies this`buckets, this`objs, pools
      ensures Valid() && cpu in pools.freeObjs && Kept(old(objs), objs, s, e)
      ensures forall x :: x in objs && s <= objs[x].addr < e ==> 0 < c.chunk && BucketOf(c, objs[x].addr) != h
    {
      hide Filed, Matches, BucketOf, Kept, Removed;
      ghost var was := objs;
      KeptSelf(was, s, e);
      var i := 0;
      while i < |Bucket(buckets, h)|
        invariant Valid() && cpu in pools.freeObjs && Kept(was, objs, s, e) && Passed(buckets, objs, h, i, s, e)
        decreases |objs| + |Actives(objs)|, |Bucket(buckets, h)| - i
      {
        ObjAt(c, buckets, objs, h, i);
        var x := Bucket(buckets, h)[i];
        var o := objs[x];
        if o.addr < s || o.addr >= e {
          i := i + 1;
          continue;
        }
        FewerActives(objs, x, Obj(o.addr, Inactive, 0));
        KeptRemoved(was, objs, x, s, e);
        if o.state == Active {
          ghost var r := repair(o.addr);
          if r.Becomes? {
            FewerActives(objs, x, Obj(o.addr, r.state, 0));
            KeptChanged(was, objs, x, Obj(o.addr, r.state, 0), s, e);
          }
          FixupFree(x, cpu, repair(o.addr));
          i := 0;
        } else {
          PassedUnlinked(c, buckets, objs, h, i, s, e);
          Untrack(x, cpu);
        }
      }
      AllPassed(c, buckets, objs, h, s, e);
    }

    /** The bucket of the chunk at `paddr`. */
    method ScanChunk(paddr: nat, s: nat, e: nat, cpu: nat, repair: nat -> Repair, ghost page: nat)
      requires Valid() && cpu in pools.freeObjs && forall a :: repair(a).Becomes? ==> repair(a).state != Active
      requires paddr == PageAddr(c.chunk, page) && Beyond(objs, paddr, s, e)
      modifies this`buckets, this`objs, pools
      ensures Valid() && cpu in pools.freeObjs && Kept(old(objs), objs, s, e)
      ensures paddr + c.chunk == PageAddr(c.chunk, page + 1) && Beyond(objs, paddr + c.chunk, s, e)
    {
      hide Filed, Matches, BucketOf, Kept;
      ChunkOk(c, buckets, objs);
      PageStart(c.chunk, page);
      ghost var mid := objs;
      ScanBucket(c.hash(paddr / c.chunk), s, e, cpu, repair);
      NextPage(c, mid, objs, page, s, e);
    }

    /** __debug_check_no_obj_freed: afterwards nothing in the freed memory is tracked, and nothing else has changed. */
    method DebugCheckNoObjFreed(address: nat, size: nat, cpu: nat, repair: nat -> Repair)
      requires Valid() && cpu in pools.freeObjs && forall a :: repair(a).Becomes? ==> repair(a).state != Active
      modifies this`buckets, this`objs, pools
      ensures Valid() && cpu in pools.freeObjs
      ensures objs == if enabled then Outside(old(objs), address, address + size) else old(objs)
    {
      hide Filed, Matches, BucketOf, Kept, Outside, PageAddr;
      if !enabled {
        return;
      }
      ghost var was := objs;
      ChunkOk(c, buckets, objs);
      KeptSelf(was, address, address + size);
      var saddr, eaddr := address, address + size;
      var paddr: nat, chunks: nat;
      ghost var page: nat;
      paddr, chunks, page := ChunksOf(c.chunk, saddr, eaddr);
      ghost var last := page + chunks;
      while chunks > 0
        invariant Valid() && cpu in pools.freeObjs && Kept(was, objs, saddr, eaddr)
        invariant paddr == PageAddr(c.chunk, page) && page + chunks == last && Beyond(objs, paddr, saddr, eaddr)
      {
        ghost var mid := objs;
        ScanChunk(paddr, saddr, eaddr, cpu, repair, page);
        KeptTrans(was, mid, objs, saddr, eaddr);
        chunks, paddr, page := chunks - 1, paddr + c.chunk, page + 1;
      }
      assert page == last;
      KeptOutside(was, objs, saddr, eaddr);
    }
  }

  // ----- replacing the static objects -----

  ghost predicate Has(objs: map<nat, Obj>, o: Obj) {
    exists x :: x in objs && objs[x] == o
  }

  /** The same addresses are tracked, in the same states, by whatever objects. */
  ghost predicate SameObjs(was: map<nat, Obj>, now: map<nat, Obj>) {
    forall o :: Has(was, o) <==> Has(now, o)
  }

  lemma SameSelf(objs: map<nat, Obj>)
    ensures SameObjs(objs, objs)
  {
  }

  /** The first k of the new objects are in use; the old ones in `left` still wait to be replaced. */
  ghost predicate Replacing(was: map<nat, Obj>, now: map<nat, Obj>, news: seq<nat>, k: nat, left: set<nat>) {
    && k + |left| == |was| == |news| && NoDup(news) && (forall x :: x in news ==> x !in was)
    && (forall x :: x in left ==> x in was && x in now && now[x] == was[x])
    && (forall x :: x in now <==> x in left || x in news[..k])
    && SameObjs(was, now)
  }

  lemma ReplaceStart(objs: map<nat, Obj>, news: seq<nat>)
    requires |news| == |objs| && NoDup(news) && forall x :: x in news ==> x !in objs
    ensures Replacing(objs, objs, news, 0, objs.Keys)
  {
    assert |objs.Keys| == |objs|;
  }

  lemma ReplaceOne(was: map<nat, Obj>, now: map<nat, Obj>, news: seq<nat>, k: nat, left: set<nat>, x: nat)
    requires Replacing(was, now, news, k, left) && x in left
    ensures x in now && k < |news| && news[k] !in now && news[k] !in left
    ensures Replacing(was, Removed(now, x)[news[k] := now[x]], news, k + 1, left - {x})
  {
    assert left != {} && |left - {x}| == |left| - 1;
    assert news[..k + 1] == news[..k] + [news[k]];
    assert news[k] in news;
    NotAmong(news, k);
    RenamedSame(was, now, x, news[k]);
  }

  lemma NotAmong(news: seq<nat>, k: nat)
    requires NoDup(news) && k < |news|
    ensures news[k] !in news[..k]
  {
  }

  lemma RenamedSame(was: map<nat, Obj>, now: map<nat, Obj>, x: nat, y: nat)
    requires SameObjs(was, now) && x in now && y !in now
    ensures SameObjs(was, Removed(now, x)[y := now[x]])
  {
    var after := Removed(now, x)[y := now[x]];
    forall o ensures Has(now, o) <==> Has(after, o) {
      if Has(now, o) {
        var z :| z in now && now[z] == o;
        assert after[if z == x then y else z] == o;
      }
    }
  }

  /** Objects yet to be replaced are in the buckets from `low` on, replaced ones in those before `high`. */
  ghost predicate Progress(c: Config, objs: map<nat, Obj>, left: set<nat>, low: nat, high: nat) {
    && 0 < c.chunk
    && (forall x :: x in objs && x in left ==> low <= BucketOf(c, objs[x].addr))
    && (forall x :: x in objs && x !in left ==> BucketOf(c, objs[x].addr) < high)
  }

  lemma ProgressStart(c: Config, objs: map<nat, Obj>)
    requires 0 < c.chunk
    ensures Progress(c, objs, objs.Keys, 0, 0)
  {
  }

  /** Bucket h holds what has been replaced so far; `rest`, taken off it, belongs there too. */
  ghost predicate Halfway(c: Config, buckets: map<nat, seq<nat>>, objs: map<nat, Obj>, h: nat, rest: seq<nat>,
      left: set<nat>) {
    && Filed(c, buckets[h := Bucket(buckets, h) + rest], objs)
    && (forall x :: x in rest ==> x in left) && (forall x :: x in Bucket(buckets, h) ==> x !in left)
  }

  lemma BucketStart(c: Config, buckets: map<nat, seq<nat>>, objs: map<nat, Obj>, h: nat, left: set<nat>)
    requires Filed(c, buckets, objs) && Progress(c, objs, left, h, h)
    ensures Halfway(c, buckets[h := []], objs, h, Bucket(buckets, h), left) && Progress(c, objs, left, h, h + 1)
  {
    hide BucketOf, Unique;
    var b := buckets[h := []];
    SameBuckets(c, buckets, objs, h);
    assert Bucket(b, h) + Bucket(buckets, h) == Bucket(buckets, h);
    assert b[h := Bucket(b, h) + Bucket(buckets, h)] == buckets[h := Bucket(buckets, h)];
  }

  lemma SameBuckets(c: Config, buckets: map<nat, seq<nat>>, objs: map<nat, Obj>, h: nat)
    requires Filed(c, buckets, objs)
    ensures Filed(c, buckets[h := Bucket(buckets, h)], objs)
  {
    hide BucketOf, Unique, NoDup;
    BucketChange(buckets, h, Bucket(buckets, h), buckets[h := Bucket(buckets, h)]);
  }

  lemma HalfwayFacts(c: Config, buckets: map<nat, seq<nat>>, objs: map<nat, Obj>, h: nat, rest: seq<nat>,
      left: set<nat>)
    requires Halfway(c, buckets, objs, h, rest, left) && rest != []
    ensures rest[0] in objs && rest[0] in left && 0 < c.chunk && BucketOf(c, objs[rest[0]].addr) == h
  {
    hide BucketOf, Unique;
    var vb := buckets[h := Bucket(buckets, h) + rest];
    assert rest[0] in Bucket(vb, h);
  }

  lemma SwapOne(c: Config, buckets: map<nat, seq<nat>>, objs: map<nat, Obj>, h: nat, rest: seq<nat>, left: set<nat>,
      y: nat)
    requires Halfway(c, buckets, objs, h, rest, left) && rest != [] && rest[0] in objs && y !in objs && y !in left
    requires Progress(c, objs, left, h, h + 1)
    ensures var x := rest[0]; var after := Removed(objs, x)[y := objs[x]];
            && Halfway(c, buckets[h := [y] + Bucket(buckets, h)], after, h, rest[1..], left - {x})
            && Progress(c, after, left - {x}, h, h + 1)
  {
    hide BucketOf, Filed, Bucket, Removed;
    var x, cur := rest[0], Bucket(buckets, h);
    var vb, b' := buckets[h := cur + rest], buckets[h := [y] + cur];
    HalfwayFacts(c, buckets, objs, h, rest, left);
    BucketChange(buckets, h, cur + rest, vb);
    BucketChange(buckets, h, [y] + cur, b');
    BucketNoDup(c, vb, objs, h);
    UnlinkedAt(cur + rest, |cur|);
    assert (cur + rest)[..|cur|] + (cur + rest)[|cur| + 1..] == cur + rest[1..];
    UnlinkKeeps(c, vb, objs, x);
    OneAddress(c, vb, objs, x);
    RemovedHas(objs, x);
    var m := vb[h := cur + rest[1..]];
    BucketChange(vb, h, cur + rest[1..], m);
    SoundAt(c, vb, objs, x);
    LinkKeeps(c, m, Removed(objs, x), y, objs[x]);
    assert [y] + cur + rest[1..] == [y] + (cur + rest[1..]);
    assert m[h := [y] + (cur + rest[1..])] == b'[h := Bucket(b', h) + rest[1..]];
    assert x !in rest[1..] by {
      NoneTwice(cur + rest, |cur|);
      assert (cur + rest)[|cur| + 1..] == rest[1..];
    }
  }

  lemma NoneTwice(q: seq<nat>, i: nat)
    requires NoDup(q) && i < |q|
    ensures q[i] !in q[i + 1..]
  {
  }

  lemma BucketNoDup(c: Config, buckets: map<nat, seq<nat>>, objs: map<nat, Obj>, h: nat)
    requires Filed(c, buckets, objs)
    ensures NoDup(Bucket(buckets, h))
  {
  }

  lemma OneAddress(c: Config, buckets: map<nat, seq<nat>>, objs: map<nat, Obj>, x: nat)
    requires Filed(c, buckets, objs) && x in objs
    ensures Untracked(Removed(objs, x), objs[x].addr)
  {
  }

  lemma BucketDone(c: Config, buckets: map<nat, seq<nat>>, objs: map<nat, Obj>, h: nat, left: set<nat>)
    requires Halfway(c, buckets, objs, h, [], left) && Progress(c, objs, left, h, h + 1)
    ensures Filed(c, buckets, objs) && Progress(c, objs, left, h + 1, h + 1)
  {
    hide BucketOf, Unique, NoDup;
    assert Bucket(buckets, h) + [] == Bucket(buckets, h);
    BucketChange(buckets, h, Bucket(buckets, h), buckets[h := Bucket(buckets, h)]);
  }

  lemma ReplaceEnd(c: Config, was: map<nat, Obj>, now: map<nat, Obj>, news: seq<nat>, k: nat, left: set<nat>)
    requires Replacing(was, now, news, k, left) && Progress(c, now, left, c.size, c.size) &&
          forall p :: c.hash(p) < c.size
    ensures SameObjs(was, now) && |now| == |was| && multiset(news) == multiset(now.Keys) &&
          forall x :: x in now <==> x in news
  {
    hide SameObjs;
    assert forall x :: x in left ==> c.size <= BucketOf(c, now[x].addr) < c.size;
    assert left == {};
    assert news[..k] == news && |left| == 0;
    assert now.Keys == set x | x in news;
    NoDupBag(news);
  }

  lemma {:induction false} NoDupBag(q: seq<nat>)
    requires NoDup(q)
    ensures multiset(q) == multiset(set x | x in q) && |set x | x in q| == |q|
  {
    if q != [] {
      var n := |q| - 1;
      NoDupBag(q[..n]);
      assert q == q[..n] + [q[n]];
      assert (set x | x in q) == (set x | x in q[..n]) + {q[n]};
      NotAmong(q, n);
    }
  }

  lemma NewOnes(made: seq<nat>, n: nat)
    requires NoDup(made) && n <= |made|
    ensures NoDup(made[..n]) && (forall x :: x in made[..n] ==> x in made) && forall x :: multiset(made[..n])[x] <= 1
  {
    NoDupBag(made[..n]);
  }

  lemma MatchesNew(s: State, objs: map<nat, Obj>, made: seq<nat>, news: seq<nat>)
    requires NoDup(made) && POOL_SIZE <= |made| && ObjPools.Ok(s) && All(s) == multiset(made[..POOL_SIZE])
    requires s.tracked == multiset(news) == multiset(objs.Keys)
    ensures Matches(s, objs)
  {
    NewOnes(made, POOL_SIZE);
  }

  lemma InUse(s: State, objs: map<nat, Obj>)
    requires Matches(s, objs)
    ensures ObjPools.Ok(s) && |s.tracked| == |objs|
  {
    assert |multiset(objs.Keys)| == |objs.Keys| == |objs|;
  }

  ghost predicate Beyond(objs: map<nat, Obj>, from: nat, s: nat, e: nat) {
    forall x :: x in objs && s <= objs[x].addr < e ==> from <= objs[x].addr
  }

  /** Objects outside [s, e) are as they were; no others have come. */
  ghost predicate Kept(was: map<nat, Obj>, now: map<nat, Obj>, s: nat, e: nat) {
    && (forall x :: x in now ==> x in was && now[x].addr == was[x].addr)
    && (forall x :: x in was && !(s <= was[x].addr < e) ==> x in now && now[x] == was[x])
  }

  ghost function Outside(objs: map<nat, Obj>, s: nat, e: nat): map<nat, Obj> {
    map x | x in objs && !(s <= objs[x].addr < e) :: objs[x]
  }

  ghost function Actives(objs: map<nat, Obj>): set<nat> {
    set x | x in objs && objs[x].state == Active
  }

  ghost predicate Passed(buckets: map<nat, seq<nat>>, objs: map<nat, Obj>, h: nat, i: nat, s: nat, e: nat) {
    i <= |Bucket(buckets, h)|
    && forall j :: 0 <= j < i ==> Bucket(buckets, h)[j] in objs && !(s <= objs[Bucket(buckets, h)[j]].addr < e)
  }

  lemma KeptSelf(objs: map<nat, Obj>, s: nat, e: nat)
    ensures Kept(objs, objs, s, e)
  {
  }

  lemma KeptTrans(a: map<nat, Obj>, b: map<nat, Obj>, d: map<nat, Obj>, s: nat, e: nat)
    requires Kept(a, b, s, e) && Kept(b, d, s, e)
    ensures Kept(a, d, s, e)
  {
  }

  lemma KeptRemoved(was: map<nat, Obj>, objs: map<nat, Obj>, x: nat, s: nat, e: nat)
    requires Kept(was, objs, s, e) && x in objs && s <= objs[x].addr < e
    ensures Kept(was, Removed(objs, x), s, e)
  {
    RemovedHas(objs, x);
  }

  lemma KeptChanged(was: map<nat, Obj>, objs: map<nat, Obj>, x: nat, o: Obj, s: nat, e: nat)
    requires Kept(was, objs, s, e) && x in objs && s <= objs[x].addr < e && o.addr == objs[x].addr
    ensures Kept(was, objs[x := o], s, e)
  {
  }

  lemma KeptOutside(was: map<nat, Obj>, now: map<nat, Obj>, s: nat, e: nat)
    requires Kept(was, now, s, e) && forall x :: x in now ==> !(s <= now[x].addr < e)
    ensures now == Outside(was, s, e)
  {
  }

  lemma FewerActives(objs: map<nat, Obj>, x: nat, o: Obj)
    requires x in objs && o.state != Active
    ensures |Removed(objs, x)| == |objs| - 1 && |Actives(Removed(objs, x))| <= |Actives(objs)|
    ensures |objs[x := o]| == |objs| && (objs[x].state == Active ==> |Actives(objs[x := o])| == |Actives(objs)| - 1)
  {
    RemovedHas(objs, x);
    assert Removed(objs, x).Keys == objs.Keys - {x} && objs[x := o].Keys == objs.Keys;
    assert |Removed(objs, x).Keys| == |Removed(objs, x)| && |objs.Keys| == |objs|;
    assert |objs[x := o].Keys| == |objs[x := o]|;
    assert Actives(Removed(objs, x)) == Actives(objs) - {x} && Actives(objs[x := o]) == Actives(objs) - {x};
  }

  lemma ObjAt(c: Config, buckets: map<nat, seq<nat>>, objs: map<nat, Obj>, h: nat, i: nat)
    requires Filed(c, buckets, objs) && i < |Bucket(buckets, h)|
    ensures Bucket(buckets, h)[i] in objs && 0 < c.chunk && BucketOf(c, objs[Bucket(buckets, h)[i]].addr) == h
  {
    hide NoDup, BucketOf, Unique;
    assert Bucket(buckets, h)[i] in Bucket(buckets, h);
  }

  lemma {:induction false} UnlinkedAt(q: seq<nat>, i: nat)
    requires NoDup(q) && i < |q|
    ensures Unlinked(q, q[i]) == q[..i] + q[i + 1..]
  {
    if i > 0 {
      UnlinkedAt(q[1..], i - 1);
      assert q[1..][i - 1] == q[i] && q[0] != q[i];
      assert q[..i] == [q[0]] + q[1..][..i - 1] && q[1..][i..] == q[i + 1..];
    }
  }

  /** Unlinking the object at i leaves those before it in place. */
  lemma PassedUnlinked(c: Config, buckets: map<nat, seq<nat>>, objs: map<nat, Obj>, h: nat, i: nat, s: nat, e: nat)
    requires Filed(c, buckets, objs) && Passed(buckets, objs, h, i, s, e) && i < |Bucket(buckets, h)|
    ensures var x := Bucket(buckets, h)[i];
            Passed(buckets[h := Unlinked(Bucket(buckets, h), x)], Removed(objs, x), h, i, s, e)
  {
    var q := Bucket(buckets, h);
    var x := q[i];
    assert NoDup(q);
    UnlinkedAt(q, i);
    BucketChange(buckets, h, Unlinked(q, x), buckets[h := Unlinked(q, x)]);
    RemovedHas(objs, x);
  }

  /** All of the bucket has been passed: nothing in the range is in it. */
  lemma AllPassed(c: Config, buckets: map<nat, seq<nat>>, objs: map<nat, Obj>, h: nat, s: nat, e: nat)
    requires Filed(c, buckets, objs) && Passed(buckets, objs, h, |Bucket(buckets, h)|, s, e)
    ensures forall x :: x in objs && s <= objs[x].addr < e ==> 0 < c.chunk && BucketOf(c, objs[x].addr) != h
  {
    hide NoDup, BucketOf, Unique;
    var q := Bucket(buckets, h);
    forall x | x in objs && s <= objs[x].addr < e ensures BucketOf(c, objs[x].addr) != h {
      assert BucketOf(c, objs[x].addr) == h ==> x in q;
    }
  }

  // ----- which chunks a range of memory touches -----

  function PageAddr(chunk: nat, page: nat): nat {
    chunk * page
  }

  /** The first chunk that [s, e) touches and how many there are: as few as cover it. */
  method ChunksOf(chunk: nat, s: nat, e: nat) returns (paddr: nat, chunks: nat, ghost page: nat)
    requires 0 < chunk && s <= e
    ensures paddr <= s < paddr + chunk && e <= paddr + PageAddr(chunk, chunks) < e + chunk
    ensures paddr == PageAddr(chunk, page) && e <= PageAddr(chunk, page + chunks)
  {
    page := s / chunk;
    assert s == chunk * (s / chunk) + s % chunk;
    paddr := s - s % chunk;
    var m := e - paddr + (chunk - 1);
    assert m == chunk * (m / chunk) + m % chunk;
    chunks := m / chunk;
    assert chunk * (page + chunks) == chunk * page + chunk * chunks;
  }

  lemma PageStart(chunk: nat, page: nat)
    requires 0 < chunk
    ensures chunk * page / chunk == page && chunk * (page + 1) == chunk * page + chunk
  {
    DivUnique(chunk * page, chunk, page, 0);
  }

  /** What is left in the range lies beyond the page that was scanned. */
  lemma NextPage(c: Config, was: map<nat, Obj>, now: map<nat, Obj>, page: nat, s: nat, e: nat)
    requires 0 < c.chunk && Kept(was, now, s, e)
    requires Beyond(was, c.chunk * page, s, e)
    requires forall x :: x in now && s <= now[x].addr < e ==> BucketOf(c, now[x].addr) != c.hash(page)
    ensures Beyond(now, c.chunk * page + c.chunk, s, e)
  {
    forall x | x in now && s <= now[x].addr < e ensures c.chunk * page + c.chunk <= now[x].addr {
      if now[x].addr < c.chunk * page + c.chunk {
        DivUnique(now[x].addr, c.chunk, page, now[x].addr - c.chunk * page);
      }
    }
  }

  const EINVAL := 22

  /** Neither tracked nor static: never initialised, as far as anybody knows. */
  ghost predicate Refused(objs: map<nat, Obj>, addr: nat, isStatic: bool) {
    !isStatic && Untracked(objs, addr)
  }

  ghost predicate TrackedAs(objs: map<nat, Obj>, addr: nat, life: Life) {
    exists x :: x in objs && objs[x].addr == addr && objs[x].state == life
  }

  /** Only a tracked object of the address can change, by the operation. */
  ghost predicate OnTracked(on: bool, was: map<nat, Obj>, now: map<nat, Obj>, addr: nat, op: Op) {
    if !on || Untracked(was, addr) then now == was
    else exists x :: x in was && was[x].addr == addr && now == Applied(was, x, op)
  }

  ghost predicate OneEach(objs: map<nat, Obj>) {
    forall x, y :: x in objs && y in objs && objs[x].addr == objs[y].addr ==> x == y
  }

  lemma UniqueIn(c: Config, buckets: map<nat, seq<nat>>, objs: map<nat, Obj>)
    requires Filed(c, buckets, objs)
    ensures OneEach(objs)
  {
  }

  lemma SoundSays(o: Obj)
    requires Sound(o)
    ensures o.astate != 0 ==> o.state == Active
  {
  }

  lemma SameObject(objs: map<nat, Obj>, x: nat)
    ensures x in objs ==> objs[x := objs[x]] == objs
  {
  }

  lemma LookedUpOld(was: map<nat, Obj>, mid: map<nat, Obj>, x: nat, addr: nat, life: Life)
    requires LookedUp(was, mid, x, addr, life)
    ensures x in was ==> mid == was
    ensures x !in was ==> x in mid && mid[x] == Obj(addr, life, 0) && Untracked(was, addr)
  {
  }

  /** The operation on object x, and on nothing else. */
  ghost function Applied(objs: map<nat, Obj>, x: nat, op: Op): map<nat, Obj>
    requires x in objs
  {
    match After(objs[x], op)
    case Some(o) => objs[x := o]
    case None => Removed(objs, x)
  }

  /** The address has been looked up, or taken up in the state `life`, and then operated on. */
  ghost predicate Handled(was: map<nat, Obj>, now: map<nat, Obj>, x: nat, addr: nat, op: Op, life: Life) {
    if x in was then was[x].addr == addr && now == Applied(was, x, op)
    else Untracked(was, addr) && now == Applied(was[x := Obj(addr, life, 0)], x, op)
  }

  lemma LookedUpHas(was: map<nat, Obj>, mid: map<nat, Obj>, x: nat, addr: nat, life: Life)
    requires LookedUp(was, mid, x, addr, life)
    ensures x in mid && mid[x].addr == addr
  {
  }

  lemma HandledBy(was: map<nat, Obj>, mid: map<nat, Obj>, now: map<nat, Obj>, x: nat, addr: nat, op: Op, life: Life)
    requires LookedUp(was, mid, x, addr, life) && x in mid && now == Applied(mid, x, op)
    ensures Handled(was, now, x, addr, op, life) && (op != OpFree ==> x in now)
  {
  }

  lemma SoundAt(c: Config, buckets: map<nat, seq<nat>>, objs: map<nat, Obj>, x: nat)
    requires Filed(c, buckets, objs) && x in objs
    ensures Sound(objs[x])
  {
  }

  lemma FirstOf(c: Config, buckets: map<nat, seq<nat>>, objs: map<nat, Obj>, h: nat)
    requires Filed(c, buckets, objs) && Bucket(buckets, h) != []
    ensures Bucket(buckets, h)[0] in objs
  {
    assert Bucket(buckets, h)[0] in Bucket(buckets, h);
  }

  lemma BucketEmpty(c: Config, buckets: map<nat, seq<nat>>, objs: map<nat, Obj>, h: nat)
    requires Filed(c, buckets, objs) && Bucket(buckets, h) == []
    ensures forall x :: x in objs ==> 0 < c.chunk && BucketOf(c, objs[x].addr) != h
  {
    hide NoDup, BucketOf, Unique;
  }

  lemma NoneLeft(c: Config, buckets: map<nat, seq<nat>>, objs: map<nat, Obj>)
    requires forall p :: c.hash(p) < c.size
    requires forall x :: x in objs ==> 0 < c.chunk && c.size <= BucketOf(c, objs[x].addr)
    ensures objs == map[]
  {
  }

  /** The object of the address: an old one, or a new one in the given state. */
  ghost predicate LookedUp(was: map<nat, Obj>, now: map<nat, Obj>, x: nat, addr: nat, life: Life) {
    if x in was then now == was && now[x].addr == addr else Untracked(was, addr) && now == was[x := Obj(addr, life, 0)]
  }

  lemma MatchesOk(s: State, objs: map<nat, Obj>)
    requires Matches(s, objs)
    ensures ObjPools.Ok(s)
  {
  }

  lemma ChunkOk(c: Config, buckets: map<nat, seq<nat>>, objs: map<nat, Obj>)
    requires Filed(c, buckets, objs)
    ensures 0 < c.chunk
  {
  }
}
