/** The driver's private memory of a virtqueue, whichever the ring's layout, against the ledger. */
module DriverBooks {
  import opened Bags
  import opened BufferLedger
  import opened DescPool
  import opened Dma
  import opened Lists
  import opened Options
  import opened PackedProtocol

  /** Driver-private copy of a descriptor, used to unmap it. */
  datatype Extra = Extra(addr: nat, len: nat, flags: Flags)

  /** Per buffer id: the caller's token, what is kept beside it, chain length and last node. */
  datatype State = State(data: Option<nat>, aside: Aside, num: nat, last: nat)

  /** The driver's private memory. */
  datatype Driver = Driver(freeHead: nat, numFree: nat, next: seq<nat>, extra: seq<Extra>, state: seq<State>)

  // ----- private memory against the ledger -----

  ghost function ExtraMapping(e: Extra): Mapping {
    Mapping(e.addr, e.len, e.flags.write, e.flags.indirect)
  }

  ghost predicate Within(chain: seq<nat>, n: nat) {
    forall i :: 0 <= i < |chain| ==> chain[i] < n
  }

  ghost function ChainMappings(extra: seq<Extra>, chain: seq<nat>): seq<Mapping>
    requires Within(chain, |extra|)
  {
    seq(|chain|, i requires 0 <= i < |chain| => ExtraMapping(extra[chain[i]]))
  }

  lemma ChainMappingsAt(extra: seq<Extra>, chain: seq<nat>)
    requires Within(chain, |extra|)
    ensures |ChainMappings(extra, chain)| == |chain|
    ensures forall i :: 0 <= i < |chain| ==> ChainMappings(extra, chain)[i] == ExtraMapping(extra[chain[i]])
  {
  }

  /** A context that was left with buffer id is the one that comes back; otherwise none does. */
  ghost predicate ReturnsContext(d: Driver, id: nat, context: Aside) {
    id < |d.state| && context == if d.state[id].aside.Context? then d.state[id].aside else Nothing
  }

  /** Everything that has to be unmapped when a buffer is detached. */
  ghost function ToUnmap(useDma: bool, extra: seq<Extra>, chain: seq<nat>, aside: Aside): multiset<Mapping>
    requires Within(chain, |extra|)
  {
    if !useDma then multiset{} else
      multiset(ChainMappings(extra, chain)) + (if aside.Table? then multiset(TableMappings(aside.descs))
          else multiset{})
  }

  /** The records of one outstanding buffer agree with its chain. */
  ghost predicate BufferOk(useDma: bool, indirect: bool, chain: seq<nat>, extra: seq<Extra>, s: State,
                           token: multiset<nat>, mapped: multiset<Mapping>)
  {
    && chain != [] && Within(chain, |extra|)
    && s.data.Some? && s.num == |chain| && s.last == chain[|chain| - 1]
    && token == multiset{s.data.value}
    && mapped == ToUnmap(useDma, extra, chain, s.aside)
    && (if indirect then !s.aside.Context? else !s.aside.Table?)
    && (s.aside.Table? && useDma ==> extra[chain[0]].len == DESC_SIZE * |s.aside.descs|)
  }

  ghost predicate BuffersOk(useDma: bool, indirect: bool, extra: seq<Extra>, state: seq<State>, l: Ledger) {
    && |state| == |extra| == l.pool.num
    && l.maps.Keys == l.pool.out.Keys && l.tokens.Keys == l.pool.out.Keys
    && (forall id :: id in l.pool.out ==> id < |state|)
    && (forall id :: id in l.pool.out ==>
          BufferOk(useDma, indirect, l.pool.out[id], extra, state[id], l.tokens[id], l.maps[id]))
    && (forall id: nat :: id < |state| && id !in l.pool.out ==> state[id].data.None?)
  }

  ghost predicate DriverOk(useDma: bool, indirect: bool, d: Driver, l: Ledger) {
    && Balanced(l)
    && Threaded(d.next, d.freeHead, l.pool) && d.numFree == |l.pool.free|
    && BuffersOk(useDma, indirect, d.extra, d.state, l)
  }

  lemma OpeningOk(useDma: bool, indirect: bool, num: nat, d: Driver)
    requires 0 < num == d.numFree == |d.next| == |d.extra| == |d.state| && d.freeHead == 0
    requires forall i :: 0 <= i < num - 1 ==> d.next[i] == i + 1
    requires forall i :: 0 <= i < num ==> d.state[i].data.None?
    ensures DriverOk(useDma, indirect, d, Opening(num))
  {
    OpeningBalanced(num);
  }

  // ----- detaching -----

  /** Private memory after detaching buffer id. */
  function AfterDetach(d: Driver, id: nat, indirect: bool): Driver
    requires id < |d.state| && d.state[id].last < |d.next|
  {
    var s := d.state[id];
    Driver(id, d.numFree + s.num, d.next[s.last := d.freeHead], d.extra,
           d.state[id := s.(data := None, aside := if indirect then Nothing else s.aside)])
  }

  lemma BufferFacts(useDma: bool, indirect: bool, d: Driver, l: Ledger, id: nat)
    requires DriverOk(useDma, indirect, d, l) && id in l.pool.out
    ensures id < |d.state| == |d.next| == |d.extra| == l.pool.num && id in l.maps && id in l.tokens
    ensures BufferOk(useDma, indirect, l.pool.out[id], d.extra, d.state[id], l.tokens[id], l.maps[id])
    ensures var chain := l.pool.out[id];
            && 0 < |chain| <= l.pool.num && chain[0] == id && d.state[id].last < |d.next|
            && d.state[id].last == chain[|chain| - 1] && d.state[id].num == |chain|
            && Linked(d.next, chain) && Linked(d.next[d.state[id].last := d.freeHead], chain)
  {
    hide Partition;
    ChainLinks(d.next, d.freeHead, l.pool, id, d.freeHead);
  }

  lemma DetachBuffers(useDma: bool, indirect: bool, d: Driver, l: Ledger, id: nat)
    requires BuffersOk(useDma, indirect, d.extra, d.state, l) && id in l.pool.out
    requires id < |d.state| && d.state[id].last < |d.next| && id in l.maps && id in l.tokens
    ensures BuffersOk(useDma, indirect, d.extra, AfterDetach(d, id, indirect).state, Release(l, id))
  {
    hide BufferOk;
    var d', l' := AfterDetach(d, id, indirect), Release(l, id);
    forall o | o in l'.pool.out
      ensures BufferOk(useDma, indirect, l'.pool.out[o], d'.extra, d'.state[o], l'.tokens[o], l'.maps[o])
    {
      assert BufferOk(useDma, indirect, l.pool.out[o], d.extra, d.state[o], l.tokens[o], l.maps[o]);
    }
  }

  lemma DetachKeeps(useDma: bool, indirect: bool, d: Driver, l: Ledger, id: nat)
    requires DriverOk(useDma, indirect, d, l) && id in l.pool.out
    requires id < |d.state| && d.state[id].last < |d.next| && id in l.maps && id in l.tokens
    ensures DriverOk(useDma, indirect, AfterDetach(d, id, indirect), Release(l, id))
  {
    hide BufferOk, Partition, Threaded, BuffersOk, Linked;
    BufferFacts(useDma, indirect, d, l, id);
    ReleaseBalanced(l, id);
    GiveThreaded(d.next, d.freeHead, l.pool, id);
    DetachBuffers(useDma, indirect, d, l, id);
  }

  // ----- adding -----

  lemma SameRecords(useDma: bool, indirect: bool, chain: seq<nat>, extra: seq<Extra>, s: State,
                    token: multiset<nat>, mapped: multiset<Mapping>, extra': seq<Extra>)
    requires BufferOk(useDma, indirect, chain, extra, s, token, mapped) && |extra'| == |extra|
    requires forall x: nat :: x < |extra| && x in chain ==> extra'[x] == extra[x]
    ensures BufferOk(useDma, indirect, chain, extra', s, token, mapped)
  {
    assert forall i :: 0 <= i < |chain| ==> chain[i] in chain;
    assert ChainMappings(extra', chain) == ChainMappings(extra, chain);
  }

  /** Overwriting the records of free nodes disturbs nobody. */
  lemma FreeRecords(useDma: bool, indirect: bool, d: Driver, l: Ledger, extra: seq<Extra>)
    requires DriverOk(useDma, indirect, d, l) && |extra| == |d.extra|
    requires forall x: nat :: x < |extra| && x !in l.pool.free ==> extra[x] == d.extra[x]
    ensures DriverOk(useDma, indirect, d.(extra := extra), l)
  {
    hide Partition, Threaded, Total, BufferOk;
    forall o | o in l.pool.out
      ensures BufferOk(useDma, indirect, l.pool.out[o], extra, d.state[o], l.tokens[o], l.maps[o])
    {
      assert BufferOk(useDma, indirect, l.pool.out[o], d.extra, d.state[o], l.tokens[o], l.maps[o]);
      BesideFree(l.pool, o);
      SameRecords(useDma, indirect, l.pool.out[o], d.extra, d.state[o], l.tokens[o], l.maps[o], extra);
    }
  }

  /** Private memory after a new buffer took n nodes. */
  function AfterAccept(d: Driver, chain: seq<nat>, data: nat, aside: Aside): Driver
    requires chain != [] && Within(chain, |d.next|) && Within(chain, |d.state|) && |chain| <= d.numFree
  {
    var last := chain[|chain| - 1];
    Driver(d.next[last], d.numFree - |chain|, d.next, d.extra,
           d.state[chain[0] := State(Some(data), aside, |chain|, last)])
  }

  lemma FreeFacts(useDma: bool, indirect: bool, d: Driver, l: Ledger, n: nat)
    requires DriverOk(useDma, indirect, d, l) && 0 < n <= d.numFree
    ensures |d.state| == |d.next| == |d.extra| == l.pool.num && n <= |l.pool.free| <= l.pool.num
    ensures Within(l.pool.free, l.pool.num) && NoDup(l.pool.free)
    ensures d.freeHead == l.pool.free[0] && Linked(d.next, l.pool.free)
    ensures d.freeHead !in l.pool.out
  {
    TakeKeepsPartition(l.pool, n);
    NodesConserved(l.pool);
  }

  lemma AcceptBuffers(useDma: bool, indirect: bool, d: Driver, l: Ledger, n: nat, data: nat, aside: Aside)
    requires BuffersOk(useDma, indirect, d.extra, d.state, l) && 0 < n <= |l.pool.free| && n <= d.numFree
    requires Within(l.pool.free, l.pool.num) && |d.next| == l.pool.num && l.pool.free[0] !in l.pool.out
    requires if indirect then !aside.Context? else !aside.Table?
    requires aside.Table? && useDma ==> d.extra[l.pool.free[0]].len == DESC_SIZE * |aside.descs|
    ensures BuffersOk(useDma, indirect, d.extra, AfterAccept(d, l.pool.free[..n], data, aside).state,
                      Accept(l, n, data, ToUnmap(useDma, d.extra, l.pool.free[..n], aside)))
  {
    hide ToUnmap, BufferOk;
    var chain := l.pool.free[..n];
    var mapped := ToUnmap(useDma, d.extra, chain, aside);
    NewBufferOk(useDma, indirect, chain, d.extra, data, aside);
    var state, l' := AfterAccept(d, chain, data, aside).state, Accept(l, n, data, mapped);
    forall o | o in l'.pool.out
      ensures o < |state| && BufferOk(useDma, indirect, l'.pool.out[o], d.extra, state[o], l'.tokens[o], l'.maps[o])
    {
      assert o != chain[0] ==> BufferOk(useDma, indirect, l.pool.out[o], d.extra, d.state[o], l.tokens[o], l.maps[o]);
    }
  }

  lemma NewBufferOk(useDma: bool, indirect: bool, chain: seq<nat>, extra: seq<Extra>, data: nat, aside: Aside)
    requires chain != [] && Within(chain, |extra|)
    requires if indirect then !aside.Context? else !aside.Table?
    requires aside.Table? && useDma ==> extra[chain[0]].len == DESC_SIZE * |aside.descs|
    ensures BufferOk(useDma, indirect, chain, extra, State(Some(data), aside, |chain|, chain[|chain| - 1]),
                     multiset{data}, ToUnmap(useDma, extra, chain, aside))
  {
  }

  lemma BalancedPool(l: Ledger)
    requires Balanced(l)
    ensures Partition(l.pool)
  {
  }

  lemma AcceptKeeps(useDma: bool, indirect: bool, d: Driver, l: Ledger, n: nat, data: nat, aside: Aside)
    requires DriverOk(useDma, indirect, d, l) && 0 < n <= |l.pool.free| && n <= d.numFree
    requires Within(l.pool.free, |d.next|) && |d.next| == |d.extra| == |d.state| == l.pool.num
    requires if indirect then !aside.Context? else !aside.Table?
    requires aside.Table? && useDma ==> d.extra[l.pool.free[0]].len == DESC_SIZE * |aside.descs|
    ensures DriverOk(useDma, indirect, AfterAccept(d, l.pool.free[..n], data, aside),
                     Accept(l, n, data, ToUnmap(useDma, d.extra, l.pool.free[..n], aside)))
  {
    hide Balanced, Threaded, ToUnmap, BuffersOk;
    BalancedPool(l);
    var chain := l.pool.free[..n];
    AcceptBalanced(l, n, data, ToUnmap(useDma, d.extra, chain, aside));
    AcceptBuffers(useDma, indirect, d, l, n, data, aside);
    TakeThreaded(d.next, d.freeHead, l.pool, n, d.next[chain[n - 1]]);
  }

  /** The records after entering es for the first nodes of the chain. */
  ghost function Recorded<T>(extra: seq<T>, chain: seq<nat>, es: seq<T>): (r: seq<T>)
    requires |es| <= |chain| && Within(chain, |extra|)
    ensures |r| == |extra|
  {
    if es == [] then extra else
      var j := |es| - 1;
      Recorded(extra, chain, es[..j])[chain[j] := es[j]]
  }

  lemma {:induction false} RecordedAt<T>(extra: seq<T>, chain: seq<nat>, es: seq<T>)
    requires |es| <= |chain| && Within(chain, |extra|) && NoDup(chain)
    ensures forall k :: 0 <= k < |es| ==> Recorded(extra, chain, es)[chain[k]] == es[k]
    ensures forall x: nat :: x < |extra| && x !in chain ==> Recorded(extra, chain, es)[x] == extra[x]
  {
    if es != [] {
      RecordedAt(extra, chain, es[..|es| - 1]);
    }
  }

  lemma RecordedPush<T>(extra: seq<T>, chain: seq<nat>, es: seq<T>, e: T)
    requires |es| < |chain| && Within(chain, |extra|)
    ensures Recorded(extra, chain, es + [e]) == Recorded(extra, chain, es)[chain[|es|] := e]
  {
    assert (es + [e])[..|es|] == es;
  }
}
