/** What a virtqueue driver owes: nodes to the free list, tokens to its caller, mappings to the IOMMU. */
module BufferLedger {
  import opened Bags
  import opened Dma
  import opened DescPool

  /**
   * pool: free nodes and the chain of every outstanding buffer. live: mappings made and not yet undone;
   * maps: the same by buffer. given, returned: tokens accepted by successful adds and handed back so far;
   * tokens: those of outstanding buffers.
   */
  datatype Ledger = Ledger(pool: Pool, live: multiset<Mapping>, maps: map<nat, multiset<Mapping>>,
                           given: multiset<nat>, returned: multiset<nat>, tokens: map<nat, multiset<nat>>)

  ghost predicate Balanced(l: Ledger) {
    && Partition(l.pool)
    && l.maps.Keys == l.pool.out.Keys && l.tokens.Keys == l.pool.out.Keys
    && l.live == Total(l.maps)
    && l.given == l.returned + Total(l.tokens)
  }

  ghost function Opening(num: nat): Ledger {
    Ledger(Fresh(num), multiset{}, map[], multiset{}, multiset{}, map[])
  }

  /** k free nodes become the chain of a new buffer. */
  ghost function Accept(l: Ledger, k: nat, token: nat, mapped: multiset<Mapping>): Ledger
    requires 0 < k <= |l.pool.free|
  {
    var id := l.pool.free[0];
    Ledger(Take(l.pool, k), l.live + mapped, l.maps[id := mapped],
           l.given + multiset{token}, l.returned, l.tokens[id := multiset{token}])
  }

  /** Everything held for buffer id is given back. */
  ghost function Release(l: Ledger, id: nat): Ledger
    requires id in l.pool.out && id in l.maps && id in l.tokens
  {
    Ledger(Give(l.pool, id), l.live - l.maps[id], Without(l.maps, id),
           l.given, l.returned + l.tokens[id], Without(l.tokens, id))
  }

  /** The caller has its token, the free list the buffer's nodes, and just what was mapped for it is no longer live;
      every other buffer is as it was. */
  ghost predicate HandedBack(l: Ledger, l': Ledger, id: nat, token: nat) {
    && id in l.pool.out && id in l.maps
    && l'.given == l.given && l'.returned == l.returned + multiset{token} && l'.live == l.live - l.maps[id]
    && l'.pool.num == l.pool.num && |l'.pool.free| == |l.pool.free| + |l.pool.out[id]|
    && (forall o :: o in l'.pool.out <==> o in l.pool.out && o != id)
    && (forall o :: o in l'.pool.out && o in l.pool.out ==> l'.pool.out[o] == l.pool.out[o])
  }

  lemma ReleaseHands(l: Ledger, id: nat, token: nat)
    requires id in l.pool.out && id in l.maps && id in l.tokens && l.tokens[id] == multiset{token}
    ensures HandedBack(l, Release(l, id), id, token)
  {
  }

  lemma OpeningBalanced(num: nat)
    ensures Balanced(Opening(num))
  {
    FreshPartition(num);
  }

  lemma AcceptBalanced(l: Ledger, k: nat, token: nat, mapped: multiset<Mapping>)
    requires Balanced(l) && 0 < k <= |l.pool.free|
    ensures Balanced(Accept(l, k, token, mapped)) && l.pool.free[0] !in l.pool.out
  {
    hide Partition, Total;
    TakeKeepsPartition(l.pool, k);
    var id := l.pool.free[0];
    TotalInsert(l.maps, id, mapped);
    TotalInsert(l.tokens, id, multiset{token});
  }

  /** Every mapping of the buffer is live exactly until now. */
  lemma ReleaseBalanced(l: Ledger, id: nat)
    requires Balanced(l) && id in l.pool.out
    ensures Balanced(Release(l, id)) && l.maps[id] <= l.live && l.live == l.maps[id] + Release(l, id).live
  {
    hide Partition, Total;
    GiveKeepsPartition(l.pool, id);
    TotalRemove(l.maps, id);
    TotalRemove(l.tokens, id);
  }

  /** With no buffer outstanding every node is free, no mapping is live and every token has been handed back. */
  lemma Settled(l: Ledger)
    requires Balanced(l) && l.pool.out == map[]
    ensures |l.pool.free| == l.pool.num && l.live == multiset{} && l.given == l.returned
  {
    NodesConserved(l.pool);
  }
}
