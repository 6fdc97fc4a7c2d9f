/** The driver side of a packed virtqueue. */
module PackedQueue {
  import opened BufferLedger
  import opened Dma
  import opened Delivery
  import opened DescPool
  import opened DriverBooks
  import opened EventIdx
  import opened Options
  import opened PackedMemory
  import opened PackedProtocol
  import opened PackedRing

  const NO_FLAGS := Flags(false, false, false, false, false)

  // ----- what a request looks like in the ring -----

  ghost function DescOf(useDma: bool, q: Request, id: nat, head: nat, wrap: bool, num: nat, k: nat): Desc
    requires WellFormed(q) && k < |q.sgs|
  {
    var lap := Lap(head, wrap, k, num);
    Desc(AddressOf(useDma, q, k), q.sgs[k].len, id, Flags(k < |q.sgs| - 1, k >= q.nOut, false, lap, !lap))
  }

  ghost function DescsOf(useDma: bool, q: Request, id: nat, head: nat, wrap: bool, num: nat, n: nat): (r: seq<Desc>)
    requires WellFormed(q) && n <= |q.sgs|
    ensures |r| == n
  {
    seq(n, k requires 0 <= k < n => DescOf(useDma, q, id, head, wrap, num, k))
  }

  /** The private copies; kept only when there is something to unmap. */
  ghost function RecordsOf(useDma: bool, ds: seq<Desc>): (r: seq<Extra>)
    ensures |r| == if useDma then |ds| else 0
  {
    if !useDma then [] else seq(|ds|, k requires 0 <= k < |ds| => Extra(ds[k].addr, ds[k].len, ds[k].flags))
  }

  lemma NothingStored(useDma: bool, q: Request, id: nat, head: nat, wrap: bool, num: nat, slots: seq<Desc>,
                      extra: seq<Extra>, chain: seq<nat>)
    requires WellFormed(q) && head < |slots| && Within(chain, |extra|)
    ensures DescsOf(useDma, q, id, head, wrap, num, 0) == [] && RecordsOf(useDma, []) == [] &&
          Mappings(useDma, q, 0) == []
    ensures Stored(slots, head, []) == slots && Recorded(extra, chain, []) == extra
  {
  }

  /** One more descriptor: what the loop has to store, record and map. */
  lemma NextDescriptor(useDma: bool, q: Request, id: nat, head: nat, wrap: bool, num: nat, j: nat)
    requires WellFormed(q) && j < |q.sgs|
    ensures DescsOf(useDma, q, id, head, wrap, num, j + 1) ==
            DescsOf(useDma, q, id, head, wrap, num, j) + [DescOf(useDma, q, id, head, wrap, num, j)]
    ensures RecordsOf(useDma, DescsOf(useDma, q, id, head, wrap, num, j + 1)) ==
            RecordsOf(useDma, DescsOf(useDma, q, id, head, wrap, num, j)) +
            (if useDma then [Extra(AddressOf(useDma, q, j), q.sgs[j].len,
                DescOf(useDma, q, id, head, wrap, num, j).flags)] else [])
    ensures Mappings(useDma, q, j + 1) == Mappings(useDma, q, j) +
            (if useDma then [Mapping(AddressOf(useDma, q, j), q.sgs[j].len, j >= q.nOut, false)] else [])
  {
  }

  /** The stored records of the first j nodes describe exactly the mappings made so far, and disturb no other buffer. */
  lemma StoredRecords(useDma: bool, indirect: bool, d: Driver, l: Ledger, q: Request, ds: seq<Desc>, j: nat,
                      extra: seq<Extra>, head: nat, wrap: bool, num: nat)
    requires DriverOk(useDma, indirect, d, l) && WellFormed(q) && j <= |q.sgs| <= |l.pool.free| && 0 < d.numFree
    requires Within(l.pool.free, |d.extra|)
    requires ds == DescsOf(useDma, q, d.freeHead, head, wrap, num, j)
    requires extra == Recorded(d.extra, l.pool.free, RecordsOf(useDma, ds))
    ensures DriverOk(useDma, indirect, d.(extra := extra), l)
    ensures useDma ==> ChainMappings(extra, l.pool.free[..j]) == Mappings(useDma, q, j)
  {
    hide DriverOk, RecordsOf, DescsOf, Recorded, ChainMappings, Mappings;
    FreeFacts(useDma, indirect, d, l, 1);
    RecordedAt(d.extra, l.pool.free, RecordsOf(useDma, ds));
    FreeRecords(useDma, indirect, d, l, extra);
    if useDma {
      RecordsMap(q, d.freeHead, head, wrap, num, j, extra, l.pool.free);
    }
  }

  /** Nodes that carry the records of the first j entries carry their mappings. */
  lemma RecordsMap(q: Request, id: nat, head: nat, wrap: bool, num: nat, j: nat, extra: seq<Extra>, nodes: seq<nat>)
    requires WellFormed(q) && j <= |q.sgs| && j <= |nodes| && Within(nodes, |extra|)
    requires var es := RecordsOf(true, DescsOf(true, q, id, head, wrap, num, j));
             forall k :: 0 <= k < j ==> extra[nodes[k]] == es[k]
    ensures ChainMappings(extra, nodes[..j]) == Mappings(true, q, j)
  {
  }

  // ----- the whole queue as a value -----

  datatype Config = Config(num: nat, useDma: bool, indirect: bool)

  /** Private memory, registers, ring memory and (ghost) ledger and protocol state. */
  datatype View = View(d: Driver, g: Regs, availUsed: Flags, slots: seq<Desc>, l: Ledger, coherent: bool, r: Ring)

  function LapFlags(lap: bool): Flags {
    Flags(false, false, false, lap, !lap)
  }

  ghost predicate CoreOk(c: Config, v: View) {
    && 0 < c.num == v.l.pool.num == |v.slots| <= WRAP_BIT
    && v.g.nextAvail < c.num && v.g.lastUsedIdx < 2 * WRAP_BIT && LastUsed(v.g.lastUsedIdx) < c.num
    && v.availUsed == LapFlags(v.g.availWrap) && v.g.numFree == v.d.numFree
    && DriverOk(c.useDma, c.indirect, v.d, v.l)
  }

  ghost predicate ViewOk(c: Config, v: View) {
    CoreOk(c, v) && (v.coherent ==> Fits(v.slots, v.g, v.l.pool.out, v.r))
  }

  /** ds is a complete chain for the buffer at the head of the free list. */
  ghost predicate ChainOk(c: Config, v: View, ds: seq<Desc>) {
    && 0 < |ds| <= v.d.numFree
    && (forall j :: 0 <= j < |ds| ==> ds[j].id == v.d.freeHead && ds[j].flags.next == (j < |ds| - 1))
    && (forall j :: 0 <= j < |ds| ==> ds[j].flags.avail == Lap(v.g.nextAvail, v.g.availWrap, j, c.num))
    && (forall j :: 0 <= j < |ds| ==> ds[j].flags.used == !ds[j].flags.avail)
  }

  ghost predicate AsideOk(c: Config, v: View, aside: Aside) {
    && (if c.indirect then !aside.Context? else !aside.Table?)
    && v.d.freeHead < |v.d.extra|
    && (aside.Table? && c.useDma ==> v.d.extra[v.d.freeHead].len == DESC_SIZE * |aside.descs|)
  }

  /** The queue after the chain ds has been added for `data`. */
  ghost function Added(c: Config, v: View, ds: seq<Desc>, data: nat, aside: Aside): View
    requires ViewOk(c, v) && ChainOk(c, v, ds) && AsideOk(c, v, aside)
  {
    FreeFacts(c.useDma, c.indirect, v.d, v.l, |ds|);
    var n := |ds|;
    var chain := v.l.pool.free[..n];
    View(AfterAccept(v.d, chain, data, aside), RegsAfterAdd(v.g, c.num, n),
         LapFlags(Lap(v.g.nextAvail, v.g.availWrap, n, c.num)), PublishedSlots(v.slots, v.g.nextAvail, ds),
         Accept(v.l, n, data, ToUnmap(c.useDma, v.d.extra, chain, aside)),
         v.coherent, if v.coherent then AfterAdd(v.r, ds) else v.r)
  }

  lemma AddedOk(c: Config, v: View, ds: seq<Desc>, data: nat, aside: Aside)
    requires ViewOk(c, v) && ChainOk(c, v, ds) && AsideOk(c, v, aside)
    ensures ViewOk(c, Added(c, v, ds, data, aside))
  {
    hide Fits, Partition, Threaded, BuffersOk, ToUnmap, AfterAdd, PublishedSlots;
    FreeFacts(c.useDma, c.indirect, v.d, v.l, |ds|);
    AcceptKeeps(c.useDma, c.indirect, v.d, v.l, |ds|, data, aside);
    if v.coherent {
      AddFits(v.slots, v.g, v.l.pool.out, v.r, ds, v.l.pool.free[..|ds|]);
    }
  }

  /** The chain of a whole request may be published. */
  lemma ChainReady(useDma: bool, q: Request, id: nat, head: nat, wrap: bool, num: nat)
    requires WellFormed(q)
    ensures var ds := DescsOf(useDma, q, id, head, wrap, num, |q.sgs|);
            && (forall j :: 0 <= j < |ds| ==> ds[j].id == id && ds[j].flags.next == (j < |ds| - 1))
            && (forall j :: 0 <= j < |ds| ==> ds[j].flags.avail == Lap(head, wrap, j, num))
            && (forall j :: 0 <= j < |ds| ==> ds[j].flags.used == !ds[j].flags.avail)
  {
  }

  lemma HeadOf(useDma: bool, q: Request, id: nat, head: nat, wrap: bool, num: nat)
    requires WellFormed(q)
    ensures var ds := DescsOf(useDma, q, id, head, wrap, num, |q.sgs|);
            |ds| == |q.sgs| && ds[0] == DescOf(useDma, q, id, head, wrap, num, 0)
  {
  }

  /** Buffer id is outstanding and its records can be followed. */
  ghost predicate Outstanding(v: View, id: nat) {
    && id in v.l.pool.out && id in v.l.maps && id in v.l.tokens
    && id < |v.d.state| && v.d.state[id].last < |v.d.next|
  }

  /** The queue after buffer id has been detached, the ring registers not yet moved. */
  ghost function Detached(c: Config, v: View, id: nat): View
    requires Outstanding(v, id)
  {
    var d := AfterDetach(v.d, id, c.indirect);
    v.(d := d, g := v.g.(numFree := d.numFree), l := Release(v.l, id))
  }

  lemma OutstandingFacts(c: Config, v: View, id: nat)
    requires CoreOk(c, v) && id in v.l.pool.out
    ensures Outstanding(v, id)
  {
    BufferFacts(c.useDma, c.indirect, v.d, v.l, id);
  }

  lemma DetachedOk(c: Config, v: View, id: nat)
    requires CoreOk(c, v) && Outstanding(v, id)
    ensures CoreOk(c, Detached(c, v, id))
  {
    hide Partition, Threaded, BuffersOk;
    DetachKeeps(c.useDma, c.indirect, v.d, v.l, id);
  }

  lemma DetachFacts(c: Config, v: View, id: nat)
    requires CoreOk(c, v) && Outstanding(v, id)
    ensures id < |v.d.state| == |v.d.next| == |v.d.extra| && Within(v.l.pool.out[id], |v.d.extra|)
    ensures var s, chain := v.d.state[id], v.l.pool.out[id];
            && 0 < |chain| == s.num && chain[0] == id && Linked(v.d.next, chain)
            && Linked(v.d.next[s.last := v.d.freeHead], chain)
            && (if c.indirect then !s.aside.Context? else !s.aside.Table?)
            && (s.aside.Table? && c.useDma ==> v.d.extra[id].len == DESC_SIZE * |s.aside.descs|)
            && v.l.live == Release(v.l, id).live + ToUnmap(c.useDma, v.d.extra, chain, s.aside)
  {
    hide Partition, BuffersOk, Threaded, Linked, ToUnmap;
    BufferFacts(c.useDma, c.indirect, v.d, v.l, id);
    ReleaseBalanced(v.l, id);
  }

  lemma DetachedIs(c: Config, v: View, id: nat, w: View)
    requires Outstanding(v, id) && id < |v.d.state|
    requires w == v.(d := w.d, g := v.g.(numFree := w.d.numFree), l := Release(v.l, id)) && w.d.extra == v.d.extra
    requires w.d.freeHead == id && w.d.numFree == v.d.numFree + v.d.state[id].num
    requires w.d.next == v.d.next[v.d.state[id].last := v.d.freeHead]
    requires w.d.state == v.d.state[id := v.d.state[id].(data := None,
          aside := if c.indirect then Nothing else v.d.state[id].aside)]
    ensures w == Detached(c, v, id)
  {
  }

  /** What the add path needs to know before it starts. */
  lemma AddFacts(c: Config, v: View, n: nat)
    requires ViewOk(c, v) && 0 < n <= v.d.numFree
    ensures |v.d.state| == |v.d.next| == |v.d.extra| == |v.slots| == v.l.pool.num == c.num &&
          n <= |v.l.pool.free| <= c.num
    ensures Within(v.l.pool.free, c.num) && v.d.freeHead == v.l.pool.free[0] && Linked(v.d.next, v.l.pool.free)
    ensures v.g.nextAvail < c.num && v.availUsed == LapFlags(v.g.availWrap)
    ensures v.coherent ==> Shape(v.r) && v.r.pend == [] && v.r.A - v.r.U + n <= |v.r.cells|
  {
    hide Queues, Bits, UsedElements, Published, Pending, Partition, Threaded, BuffersOk;
    FreeFacts(c.useDma, c.indirect, v.d, v.l, n);
  }

  /** The records of the first j entries of a request written to free nodes, as the store loop leaves them. */
  ghost function ExtraAfter(c: Config, v: View, q: Request, j: nat): seq<Extra>
    requires ViewOk(c, v) && WellFormed(q) && j <= |q.sgs| <= v.d.numFree
  {
    AddFacts(c, v, |q.sgs|);
    Recorded(v.d.extra, v.l.pool.free,
             RecordsOf(c.useDma, DescsOf(c.useDma, q, v.d.freeHead, v.g.nextAvail, v.g.availWrap, c.num, j)))
  }

  /** The queue in the middle of a direct add, j entries stored and the flags of the first withheld. */
  ghost function MidAdd(c: Config, v: View, q: Request, j: nat): View
    requires ViewOk(c, v) && WellFormed(q) && j <= |q.sgs| <= v.d.numFree
  {
    AddFacts(c, v, |q.sgs|);
    var ds := DescsOf(c.useDma, q, v.d.freeHead, v.g.nextAvail, v.g.availWrap, c.num, j);
    v.(d := v.d.(extra := ExtraAfter(c, v, q, j)), slots := Stored(v.slots, v.g.nextAvail, ds),
       availUsed := LapFlags(Lap(v.g.nextAvail, v.g.availWrap, j, c.num)))
  }

  /** The queue after a direct add failed with j entries mapped. */
  ghost function GivenUp(c: Config, v: View, q: Request, j: nat): View
    requires ViewOk(c, v) && WellFormed(q) && j < |q.sgs| <= v.d.numFree
  {
    AddFacts(c, v, |q.sgs|);
    var ds := DescsOf(c.useDma, q, v.d.freeHead, v.g.nextAvail, v.g.availWrap, c.num, j);
    MidAdd(c, v, q, j).(availUsed := v.availUsed, coherent := v.coherent && j <= 1,
       r := if v.coherent && j <= 1 then AfterStores(v.r, ds).(pend := []) else v.r)
  }

  lemma GivenUpOk(c: Config, v: View, q: Request, j: nat)
    requires ViewOk(c, v) && WellFormed(q) && j < |q.sgs| <= v.d.numFree
    ensures ViewOk(c, GivenUp(c, v, q, j))
    ensures c.useDma ==> ChainMappings(ExtraAfter(c, v, q, j), v.l.pool.free[..j]) == Mappings(c.useDma, q, j)
  {
    hide Fits, Threaded, BuffersOk, Balanced, Stored, Mappings, Recorded, RecordsOf;
    AddFacts(c, v, |q.sgs|);
    FreeFacts(c.useDma, c.indirect, v.d, v.l, |q.sgs|);
    var ds := DescsOf(c.useDma, q, v.d.freeHead, v.g.nextAvail, v.g.availWrap, c.num, j);
    StoredRecords(c.useDma, c.indirect, v.d, v.l, q, ds, j, ExtraAfter(c, v, q, j), v.g.nextAvail, v.g.availWrap,
        c.num);
    if v.coherent && j <= 1 {
      AbandonFits(v.slots, v.g, v.l.pool.out, v.r, ds);
    }
  }

  /** The queue with the records of the whole request entered. */
  ghost function Entered(c: Config, v: View, q: Request): View
    requires ViewOk(c, v) && WellFormed(q) && |q.sgs| <= v.d.numFree
  {
    v.(d := v.d.(extra := ExtraAfter(c, v, q, |q.sgs|)))
  }

  /** The chain of the request. */
  ghost function RequestChain(c: Config, v: View, q: Request): seq<Desc>
    requires WellFormed(q)
  {
    DescsOf(c.useDma, q, v.d.freeHead, v.g.nextAvail, v.g.availWrap, c.num, |q.sgs|)
  }

  lemma EnteredOk(c: Config, v: View, q: Request, aside: Aside)
    requires ViewOk(c, v) && WellFormed(q) && |q.sgs| <= v.d.numFree
    requires !aside.Table? && (c.indirect ==> aside.Nothing?)
    ensures ViewOk(c, Entered(c, v, q)) && AsideOk(c, Entered(c, v, q), aside)
    ensures ChainOk(c, Entered(c, v, q), RequestChain(c, v, q))
    ensures ToUnmap(c.useDma, ExtraAfter(c, v, q, |q.sgs|), v.l.pool.free[..|q.sgs|], aside)
         == multiset(Mappings(c.useDma, q, |q.sgs|))
    ensures RequestChain(c, v, q)[0] == DescOf(c.useDma, q, v.d.freeHead, v.g.nextAvail, v.g.availWrap, c.num, 0)
  {
    hide Fits, DriverOk, Stored, Recorded, RecordsOf, DescOf, DescsOf, ChainMappings, Mappings;
    var n := |q.sgs|;
    AddFacts(c, v, n);
    FreeFacts(c.useDma, c.indirect, v.d, v.l, n);
    UnmappedPrefix(c.useDma, q, n);
    HeadOf(c.useDma, q, v.d.freeHead, v.g.nextAvail, v.g.availWrap, c.num);
    StoredRecords(c.useDma, c.indirect, v.d, v.l, q, RequestChain(c, v, q), n, ExtraAfter(c, v, q, n),
                  v.g.nextAvail, v.g.availWrap, c.num);
    ChainReady(c.useDma, q, v.d.freeHead, v.g.nextAvail, v.g.availWrap, c.num);
  }

  /** A direct add of q succeeded. */
  ghost predicate AddedFor(c: Config, v: View, q: Request, data: nat, aside: Aside, v': View) {
    && ViewOk(c, v) && WellFormed(q) && |q.sgs| <= v.d.numFree
    && ChainOk(c, Entered(c, v, q), RequestChain(c, v, q)) && ViewOk(c, Entered(c, v, q)) &&
          AsideOk(c, Entered(c, v, q), aside)
    && v' == Added(c, Entered(c, v, q), RequestChain(c, v, q), data, aside)
    && v'.l.live == v.l.live + multiset(Mappings(c.useDma, q, |q.sgs|))
  }

  /** A direct add of q failed at its first entry that could not be mapped. */
  ghost predicate GivenUpFor(c: Config, v: View, q: Request, v': View) {
    && ViewOk(c, v) && WellFormed(q) && |q.sgs| <= v.d.numFree
    && MappedBefore(c.useDma, q, |q.sgs|) < |q.sgs|
    && v' == GivenUp(c, v, q, MappedBefore(c.useDma, q, |q.sgs|))
  }

  /** What committing a chain of n nodes does to the queue; l and r are the new ghost ledger and protocol state. */
  ghost function Committed(v: View, n: nat, last: nat, newHead: nat, stop: nat, headFlags: Flags, data: nat,
                           aside: Aside, l: Ledger, r: Ring): View
    requires v.d.freeHead < |v.d.state| && v.g.nextAvail < |v.slots| && n <= v.d.numFree && n <= v.g.numFree
  {
    var head, g := v.g.nextAvail, v.g;
    v.(d := Driver(newHead, v.d.numFree - n, v.d.next, v.d.extra,
        v.d.state[v.d.freeHead := State(Some(data), aside, n, last)]),
       g := g.(nextAvail := stop, availWrap := if stop <= head then !g.availWrap else g.availWrap,
               numFree := g.numFree - n, numAdded := g.numAdded + n),
       slots := v.slots[head := v.slots[head].(flags := headFlags)], l := l, r := r)
  }

  /** Committing the stored chain of a request is exactly what adding it means. */
  lemma CommitCompletes(c: Config, v: View, q: Request, data: nat, aside: Aside)
    requires ViewOk(c, v) && WellFormed(q) && |q.sgs| <= v.d.numFree
    requires !aside.Table? && (c.indirect ==> aside.Nothing?)
    ensures 0 < |q.sgs| <= |v.l.pool.free| && Within(v.l.pool.free, |v.d.next|) && v.d.freeHead < |v.d.state|
    ensures v.g.nextAvail < c.num == |v.slots| && |q.sgs| <= v.g.numFree && |q.sgs| <= c.num
    ensures var n, free := |q.sgs|, v.l.pool.free;
            var l := Accept(v.l, n, data, multiset(Mappings(c.useDma, q, n)));
            forall v' :: AddedFor(c, v, q, data, aside, v') <==>
              v' == Committed(MidAdd(c, v, q, n), n, free[n - 1], v.d.next[free[n - 1]], Slot(v.g.nextAvail, n, c.num),
                              DescOf(c.useDma, q, v.d.freeHead, v.g.nextAvail, v.g.availWrap, c.num, 0).flags,
                              data, aside, l,
                              if v.coherent then AfterAdd(v.r, RequestChain(c, v, q)) else v.r)
    ensures forall v' :: AddedFor(c, v, q, data, aside, v') ==> ViewOk(c, v')
  {
    hide ViewOk, ChainOk, AsideOk, DescOf, DescsOf, Stored, Recorded, RecordsOf, Mappings, ToUnmap, AfterAdd;
    AddFacts(c, v, |q.sgs|);
    EnteredOk(c, v, q, aside);
    AddedOk(c, Entered(c, v, q), RequestChain(c, v, q), data, aside);
  }

  /** What an added request looks like to the device: each slot from the next available one on shows its entry, all
      other slots are as they were. */
  lemma AddedShows(c: Config, v: View, q: Request, data: nat, aside: Aside, v': View, k: nat)
    requires AddedFor(c, v, q, data, aside, v') && k < c.num
    ensures v.g.nextAvail < c.num == |v.slots| == |v'.slots|
    ensures var i := Slot(v.g.nextAvail, k, c.num);
            v'.slots[i] == if k < |q.sgs| then DescOf(c.useDma, q, v.d.freeHead, v.g.nextAvail, v.g.availWrap, c.num, k)
                           else v.slots[i]
  {
    hide DriverOk, Fits, Stored, DescOf;
    AddFacts(c, v, |q.sgs|);
    PublishedAt(v.slots, v.g.nextAvail, RequestChain(c, v, q), k);
  }

  // ----- indirect adds -----

  /** The only descriptor of an indirect request: its table. */
  ghost function TableDescriptor(c: Config, v: View, q: Request, addr: nat): Desc {
    Desc(addr, DESC_SIZE * |q.sgs|, v.d.freeHead, Flags(false, false, true, v.g.availWrap, !v.g.availWrap))
  }

  ghost function TableEntered(c: Config, v: View, q: Request, addr: nat): View
    requires v.d.freeHead < |v.d.extra|
  {
    var t := TableDescriptor(c, v, q, addr);
    v.(d := v.d.(extra := if c.useDma then v.d.extra[v.d.freeHead := Extra(t.addr, t.len, t.flags)] else v.d.extra))
  }

  ghost function TableAside(c: Config, q: Request): Aside
    requires WellFormed(q)
  {
    Table(TableOf(c.useDma, q, |q.sgs|))
  }

  lemma TableEnteredOk(c: Config, v: View, q: Request, addr: nat)
    requires TableAddress(c.useDma, q) == Some(addr) && ViewOk(c, v) && WellFormed(q) && c.indirect
    requires 0 < v.d.numFree && v.d.freeHead < |v.d.extra|
    ensures var e := TableEntered(c, v, q, addr);
            && ViewOk(c, e) && AsideOk(c, e, TableAside(c, q)) && ChainOk(c, e, [TableDescriptor(c, v, q, addr)])
            && 0 < |v.l.pool.free| && Within(v.l.pool.free[..1], |e.d.extra|)
            && ToUnmap(c.useDma, e.d.extra, v.l.pool.free[..1], TableAside(c, q)) == IndirectMappings(c.useDma, q)
  {
    hide Fits, Threaded, BuffersOk, Balanced, Mappings, TableMappings;
    FreeFacts(c.useDma, c.indirect, v.d, v.l, 1);
    var e := TableEntered(c, v, q, addr);
    FreeRecords(c.useDma, c.indirect, v.d, v.l, e.d.extra);
    TableMapsRequest(c.useDma, q, |q.sgs|);
    assert ChainMappings(e.d.extra, v.l.pool.free[..1]) == [ExtraMapping(e.d.extra[v.d.freeHead])];
  }

  /** The queue with the table's descriptor stored, its flags withheld. */
  ghost function TableStored(c: Config, v: View, q: Request, addr: nat): View
    requires v.d.freeHead < |v.d.extra| && v.g.nextAvail < |v.slots|
  {
    var head := v.g.nextAvail;
    TableEntered(c, v, q, addr).(
      slots := Stored(v.slots, head, [TableDescriptor(c, v, q, addr)]),
      availUsed := LapFlags(Lap(head, v.g.availWrap, 1, c.num)))
  }

  /** An indirect add of q succeeded with the table mapped at addr. */
  ghost predicate IndirectFor(c: Config, v: View, q: Request, addr: nat, data: nat, v': View) {
    && ViewOk(c, v) && WellFormed(q) && c.indirect && 0 < v.d.numFree && v.d.freeHead < |v.d.extra|
    && var e, ds := TableEntered(c, v, q, addr), [TableDescriptor(c, v, q, addr)];
    && ViewOk(c, e) && AsideOk(c, e, TableAside(c, q)) && ChainOk(c, e, ds)
    && v' == Added(c, e, ds, data, TableAside(c, q))
    && v'.l.live == v.l.live + IndirectMappings(c.useDma, q)
  }

  lemma CommitCompletesTable(c: Config, v: View, q: Request, addr: nat, data: nat)
    requires TableAddress(c.useDma, q) == Some(addr) && ViewOk(c, v) && WellFormed(q) && c.indirect && 0 < v.d.numFree
    ensures v.d.freeHead < |v.d.state| == |v.d.next| == |v.d.extra| && v.g.nextAvail < c.num == |v.slots|
    ensures 0 < |v.l.pool.free| && v.d.freeHead == v.l.pool.free[0] && 1 <= v.g.numFree
    ensures v.coherent ==> Shape(v.r) && v.r.pend == [] && v.r.A - v.r.U + 1 <= |v.r.cells|
    ensures forall v' :: IndirectFor(c, v, q, addr, data, v') <==>
              v' == Committed(TableStored(c, v, q, addr), 1, v.d.freeHead, v.d.next[v.d.freeHead],
                  Slot(v.g.nextAvail, 1, c.num),
                              TableDescriptor(c, v, q, addr).flags, data, TableAside(c, q),
                              Accept(v.l, 1, data, IndirectMappings(c.useDma, q)),
                              if v.coherent then AfterAdd(v.r, [TableDescriptor(c, v, q, addr)]) else v.r)
    ensures forall v' :: IndirectFor(c, v, q, addr, data, v') ==> ViewOk(c, v')
  {
    hide ViewOk, ChainOk, AsideOk, PublishedSlots, Mappings, ToUnmap, AfterAdd, TableAside, IndirectMappings;
    AddFacts(c, v, 1);
    TableEnteredOk(c, v, q, addr);
    AddedOk(c, TableEntered(c, v, q, addr), [TableDescriptor(c, v, q, addr)], data, TableAside(c, q));
    PublishedOne(v.slots, v.g.nextAvail, TableDescriptor(c, v, q, addr));
    StoredOne(v.slots, v.g.nextAvail, TableDescriptor(c, v, q, addr));
    var head, t := v.g.nextAvail, TableDescriptor(c, v, q, addr);
    assert v.slots[head := t.(flags := v.slots[head].flags)][head := t] == v.slots[head := t];
  }

  // ----- what an add may do -----

  ghost predicate GoesIndirect(c: Config, v: View, q: Request)
    requires WellFormed(q)
  {
    && c.indirect && |q.sgs| > 1 && v.d.numFree > 0
    && q.gotTable && AllMapped(c.useDma, q, |q.sgs|) && TableAddress(c.useDma, q).Some?
  }

  /** The outcome of an add on a queue that is not broken: which status, and exactly which new queue. */
  ghost predicate AddOutcome(c: Config, v: View, q: Request, data: nat, aside: Aside, st: Status, v': View)
    requires WellFormed(q)
  {
    if GoesIndirect(c, v, ForTable(q)) then st == Ok && IndirectFor(c, v, ForTable(q), TableAddress(c.useDma, q).value,
        data, v')
    else DirectOutcome(c, v, q, data, aside, st, v')
  }

  /** The part of the outcome an unsuccessful or skipped indirect attempt leaves to the direct one. */
  ghost predicate DirectOutcome(c: Config, v: View, q: Request, data: nat, aside: Aside, st: Status, v': View)
    requires WellFormed(q)
  {
    if v.d.numFree < |q.sgs| then st == NoSpace && v' == v
    else if AllMapped(c.useDma, q, |q.sgs|) then st == Ok && AddedFor(c, v, q, data, aside, v')
    else st == IoError && GivenUpFor(c, v, q, v')
  }

  // ----- what the device and the caller make of it -----

  ghost function Pieces(ds: seq<Desc>): seq<Piece> {
    seq(|ds|, k requires 0 <= k < |ds| => Piece(ds[k].addr, ds[k].len, ds[k].flags.write))
  }

  /** From the slot where the driver stood, the device reads descriptors of this id and of the right lap that serve the
      request, directly or through a table; behind them is what has been mapped; the token is kept under the id. */
  ghost predicate Delivered(c: Config, v: View, q: Request, data: nat, aside: Aside, v': View) {
    && v.g.nextAvail < |v'.slots| == c.num && v.d.freeHead < |v'.d.state|
    && var ds, s := ReadDescs(v'.slots, v.g.nextAvail, c.num), v'.d.state[v.d.freeHead];
    && ds != [] && Marked(c, v, ds)
    && s.data == Some(data) && v'.l.given == v.l.given + multiset{data} && v'.l.returned == v.l.returned
    && if ds[0].flags.indirect then
         && |ds| == 1 && !ds[0].flags.write && s.aside.Table?
         && ServesTable(c.useDma, q, ds[0].addr, ds[0].len, s.aside.descs)
         && v'.l.live == v.l.live + BehindTable(c.useDma, ds[0].addr, ds[0].len, s.aside.descs)
       else
         && Serves(c.useDma, q, q.answers, Pieces(ds)) && s.aside == aside
         && v'.l.live == v.l.live + Behind(c.useDma, Pieces(ds))
  }

  ghost predicate Marked(c: Config, v: View, ds: seq<Desc>) {
    forall k :: 0 <= k < |ds| ==>
      && ds[k].id == v.d.freeHead && (ds[k].flags.indirect ==> k == 0 && |ds| == 1)
      && ds[k].flags.avail == (if v.g.nextAvail + k < c.num then v.g.availWrap else !v.g.availWrap)
      && ds[k].flags.used != ds[k].flags.avail
  }

  ghost predicate TakesTable(c: Config, v: View, q: Request) {
    c.indirect && 1 < |q.sgs| && 0 < v.d.numFree && TableGranted(c.useDma, q)
  }

  /** The chain of the request serves it. */
  lemma ChainServes(c: Config, v: View, q: Request)
    requires WellFormed(q) && AllMapped(c.useDma, q, |q.sgs|)
    ensures var ds := RequestChain(c, v, q);
            && |ds| == |q.sgs| && Marked(c, v, ds) && !ds[0].flags.indirect
            && (forall j :: 0 <= j < |ds| ==> (ds[j].flags.next <==> j < |ds| - 1))
            && Serves(c.useDma, q, q.answers, Pieces(ds))
  {
    var ds := RequestChain(c, v, q);
    forall k | 0 <= k < |ds|
      ensures if c.useDma then q.answers[k] == Some(ds[k].addr) else ds[k].addr == q.sgs[k].phys
    {
      assert Mapped(c.useDma, q, k).Some?;
    }
  }

  lemma AddedReads(c: Config, v: View, q: Request, data: nat, aside: Aside, v': View)
    requires AddedFor(c, v, q, data, aside, v')
    requires forall j :: 0 <= j < |q.sgs| ==> (RequestChain(c, v, q)[j].flags.next <==> j < |q.sgs| - 1)
    ensures v.g.nextAvail < |v'.slots| == c.num && ReadDescs(v'.slots, v.g.nextAvail, c.num) == RequestChain(c, v, q)
  {
    hide ViewOk, ChainOk, AsideOk, Added, ReadDescs, DescOf, Mappings;
    AddFacts(c, v, |q.sgs|);
    AddedShows(c, v, q, data, aside, v', 0);
    var ds := RequestChain(c, v, q);
    forall j | 0 <= j < |ds| ensures v'.slots[Slot(v.g.nextAvail, j, c.num)] == ds[j] {
      AddedShows(c, v, q, data, aside, v', j);
    }
    ReadsWhole(v'.slots, v.g.nextAvail, ds, v.g.nextAvail, 0, c.num);
    assert ds[0..] == ds;
  }

  lemma DirectDelivered(c: Config, v: View, q: Request, data: nat, aside: Aside, v': View)
    requires AddedFor(c, v, q, data, aside, v') && AllMapped(c.useDma, q, |q.sgs|)
    ensures Delivered(c, v, q, data, aside, v') && !ReadDescs(v'.slots, v.g.nextAvail, c.num)[0].flags.indirect
  {
    hide ViewOk, ChainOk, AsideOk, Mappings, ReadDescs, RequestChain, PublishedSlots, Marked, Serves, Behind, Pieces;
    AddFacts(c, v, |q.sgs|);
    ChainServes(c, v, q);
    AddedReads(c, v, q, data, aside, v');
    MappingsBehind(c.useDma, q, Pieces(RequestChain(c, v, q)));
  }

  lemma TableDelivered(c: Config, v: View, q: Request, addr: nat, data: nat, aside: Aside, v': View)
    requires WellFormed(q) && IndirectFor(c, v, ForTable(q), addr, data, v')
    requires AllMapped(c.useDma, ForTable(q), |q.sgs|) && TableAddress(c.useDma, q) == Some(addr)
    ensures Delivered(c, v, q, data, aside, v') && ReadDescs(v'.slots, v.g.nextAvail, c.num)[0].flags.indirect
  {
    hide ViewOk, ChainOk, AsideOk, TableOf, IndirectMappings, Serves, ServesTable, BehindTable;
    var t := TableDescriptor(c, v, ForTable(q), addr);
    AddFacts(c, v, 1);
    PublishedOne(v.slots, v.g.nextAvail, t);
    ThroughTable(c.useDma, q, addr);
  }

  /** When an add succeeds or not, and what it leaves, in terms of the request, the answers and the room alone. */
  lemma AddMeans(c: Config, v: View, q: Request, data: nat, aside: Aside, st: Status, v': View)
    requires WellFormed(q) && AddOutcome(c, v, q, data, aside, st, v')
    ensures st == Ok <==> TakesTable(c, v, q) || (|q.sgs| <= v.d.numFree && Granted(c.useDma, q.answers))
    ensures st == NoSpace <==> !TakesTable(c, v, q) && v.d.numFree < |q.sgs|
    ensures st != Ok ==> v'.l == v.l && v'.d.freeHead == v.d.freeHead && v'.d.numFree == v.d.numFree
                         && v'.g == v.g && v'.availUsed == v.availUsed
    ensures st == Ok ==> Delivered(c, v, q, data, aside, v')
    ensures st == Ok ==> (ReadDescs(v'.slots, v.g.nextAvail, c.num)[0].flags.indirect <==> TakesTable(c, v, q))
  {
    hide ViewOk, AddedFor, IndirectFor, Delivered, ReadDescs, AllMapped, Granted, MappedBefore;
    MappedIfGranted(c.useDma, q);
    MappedIfGranted(c.useDma, ForTable(q));
    if GoesIndirect(c, v, ForTable(q)) {
      TableDelivered(c, v, q, TableAddress(c.useDma, q).value, data, aside, v');
    } else if |q.sgs| <= v.d.numFree && AllMapped(c.useDma, q, |q.sgs|) {
      DirectDelivered(c, v, q, data, aside, v');
    }
  }

  // ----- taking buffers back -----

  /** The queue after buffer id has been taken off the used ring. */
  ghost function Consumed(c: Config, v: View, id: nat): View
    requires CoreOk(c, v) && Outstanding(v, id) && v.d.state[id].num <= c.num
  {
    var w := Detached(c, v, id);
    w.(g := RegsAfterConsume(v.g, c.num, v.d.state[id].num),
       r := if v.coherent && Inv(v.r) && Enabled(v.r, Consume) then Next(v.r, Consume) else v.r)
  }

  ghost predicate IsConsumed(c: Config, v: View, id: nat, v': View) {
    CoreOk(c, v) && Outstanding(v, id) && v.d.state[id].num <= c.num && v' == Consumed(c, v, id)
  }

  lemma ConsumedParts(c: Config, v: View, id: nat)
    requires CoreOk(c, v) && Outstanding(v, id) && v.d.state[id].num <= c.num
    ensures id < |v.d.state| == |Detached(c, v, id).d.state| && Detached(c, v, id).d.state[id].num == v.d.state[id].num
    ensures Detached(c, v, id).slots == v.slots && Detached(c, v, id).r == v.r &&
          Detached(c, v, id).g.lastUsedIdx == v.g.lastUsedIdx
    ensures var w := Detached(c, v, id);
            var g := w.g.(lastUsedIdx := RegsAfterConsume(v.g, c.num, v.d.state[id].num).lastUsedIdx);
            Consumed(c, v, id) == w.(g := g, r := Consumed(c, v, id).r)
  {
    hide Partition, Threaded, BuffersOk, Balanced, Inv, Enabled;
  }

  /** A buffer was taken: it is the one named by the used slot, its token is handed back and everything of it released.
      */
  ghost predicate Taken(c: Config, v: View, token: nat, len: nat, context: Aside, v': View) {
    var x := LastUsed(v.g.lastUsedIdx);
    && x < |v.slots| && len == v.slots[x].len
    && var id := v.slots[x].id;
    && IsConsumed(c, v, id, v') && v.d.state[id].data == Some(token) && v.l.tokens[id] == multiset{token}
    && (context == if c.indirect then Nothing else v.d.state[id].aside)
    && (v.coherent ==> v.r.used != [] && id == v.r.used[0].id)
  }

  lemma TakenHands(c: Config, v: View, token: nat, len: nat, context: Aside, v': View, id: nat)
    requires Taken(c, v, token, len, context, v') && id == v.slots[LastUsed(v.g.lastUsedIdx)].id
    ensures HandedBack(v.l, v'.l, id, token) && ReturnsContext(v.d, id, context)
  {
    hide CoreOk, HandedBack;
    ReleaseHands(v.l, id, token);
    DetachFacts(c, v, id);
  }

  lemma ConsumedOk(c: Config, v: View, id: nat)
    requires ViewOk(c, v) && Outstanding(v, id) && v.d.state[id].num <= c.num
    requires v.coherent ==> MoreUsed(v.r) && id == v.r.cells[0].id
    ensures ViewOk(c, Consumed(c, v, id))
  {
    hide Partition, Threaded, BuffersOk, Queues, Bits, UsedElements, Published, Pending;
    DetachedOk(c, v, id);
    BufferFacts(c.useDma, c.indirect, v.d, v.l, id);
    var u, w, n := LastUsed(v.g.lastUsedIdx), UsedWrap(v.g.lastUsedIdx), v.d.state[id].num;
    EncodeUsedExact(Slot(u, n, c.num), Lap(u, w, n, c.num));
    if v.coherent {
      ConsumeFits(v.slots, v.g, v.l.pool.out, v.r);
    }
  }

  /** The used flags of a slot in memory: written back on the given lap. */
  predicate IsUsed(slots: seq<Desc>, idx: nat, wrap: bool)
    requires idx < |slots|
  {
    slots[idx].flags.avail == slots[idx].flags.used && slots[idx].flags.used == wrap
  }

  /** The slot to be used next names the outstanding buffer id. */
  ghost predicate NamedUsed(c: Config, v: View, id: nat, len: nat) {
    var u := LastUsed(v.g.lastUsedIdx);
    && u < c.num && u < |v.slots| && id == v.slots[u].id && len == v.slots[u].len
    && id < c.num && Outstanding(v, id) && v.d.state[id].data.Some?
  }

  /** The slot that the driver expects to be used next looks written back ... */
  ghost predicate ShowsUsed(v: View) {
    var u := LastUsed(v.g.lastUsedIdx);
    u < |v.slots| && IsUsed(v.slots, u, UsedWrap(v.g.lastUsedIdx))
  }

  /** ... and has the id of an outstanding buffer. */
  ghost predicate NamesBuffer(v: View) {
    var u := LastUsed(v.g.lastUsedIdx);
    u < |v.slots| && v.slots[u].id in v.l.pool.out
  }

  /** A buffer is found exactly when the device has used one that was not consumed, and it is that one. */
  ghost predicate UsedExactly(v: View, found: Option<nat>) {
    && Shape(v.r) && (found.Some? <==> v.r.U < v.r.P) && (v.r.U < v.r.P <==> MoreUsed(v.r))
    && (found.Some? ==> v.r.used != [] && found.value == v.r.used[0].id == v.r.cells[0].id)
  }

  /** On an operating ring the driver's look at memory tells whether U < P, and then names the next used buffer. */
  lemma MemoryTellsUsed(c: Config, v: View)
    requires ViewOk(c, v) && v.coherent
    ensures Shape(v.r)
    ensures var u, w := LastUsed(v.g.lastUsedIdx), UsedWrap(v.g.lastUsedIdx);
            && (IsUsed(v.slots, u, w) <==> v.r.U < v.r.P) && (v.r.U < v.r.P <==> MoreUsed(v.r))
            && (v.r.U < v.r.P ==>
                 v.r.used != [] && v.slots[u].id == v.r.cells[0].id == v.r.used[0].id && v.slots[u].id in v.l.pool.out)
  {
    hide Partition, Threaded, BuffersOk, Queues, Bits, UsedElements, Published, Pending;
    MoreUsedExact(v.r);
    var u := LastUsed(v.g.lastUsedIdx);
    assert v.slots[Slot(u, 0, |v.slots|)] == v.r.cells[0];
    assert v.r.laps[0] == Lap(u, UsedWrap(v.g.lastUsedIdx), 0, |v.slots|);
  }

  /** Which ids are outstanding can be read off the state table. */
  lemma DataTellsOutstanding(c: Config, v: View, id: nat)
    requires CoreOk(c, v) && id < c.num
    ensures |v.d.state| == c.num
    ensures v.d.state[id].data.Some? <==> id in v.l.pool.out
    ensures id in v.l.pool.out ==> Outstanding(v, id) && 0 < v.d.state[id].num <= c.num
                                   && v.l.tokens[id] == multiset{v.d.state[id].data.value}
  {
    if id in v.l.pool.out {
      BufferFacts(c.useDma, c.indirect, v.d, v.l, id);
    }
  }

  lemma UsedSlotFacts(c: Config, v: View)
    requires ViewOk(c, v)
    ensures LastUsed(v.g.lastUsedIdx) < c.num == |v.slots| == |v.d.state|
    ensures forall id: nat :: id < c.num ==> (v.d.state[id].data.Some? <==> id in v.l.pool.out)
    ensures forall id: nat :: id in v.l.pool.out ==> id < c.num && Outstanding(v, id)
    ensures v.coherent ==> Shape(v.r)
    ensures v.coherent ==>
              var u, w := LastUsed(v.g.lastUsedIdx), UsedWrap(v.g.lastUsedIdx);
              && (IsUsed(v.slots, u, w) <==> v.r.U < v.r.P) && (v.r.U < v.r.P <==> MoreUsed(v.r))
              && (v.r.U < v.r.P ==> v.r.used != [] && v.slots[u].id == v.r.cells[0].id == v.r.used[0].id
                                    && v.slots[u].id in v.l.pool.out && v.slots[u].id < c.num)
  {
    hide Fits, DriverOk, MoreUsed;
    forall id: nat | id < c.num
      ensures |v.d.state| == c.num && (v.d.state[id].data.Some? <==> id in v.l.pool.out)
      ensures id in v.l.pool.out ==> Outstanding(v, id)
    {
      DataTellsOutstanding(c, v, id);
    }
    DriverSize(c, v);
    OutBelow(c, v);
    if v.coherent {
      MemoryTellsUsed(c, v);
      if v.r.U < v.r.P {
        OutstandingFacts(c, v, v.r.used[0].id);
      }
    }
  }

  lemma OutBelow(c: Config, v: View)
    requires CoreOk(c, v)
    ensures forall id :: id in v.l.pool.out ==> id < c.num
  {
  }

  lemma Forget(c: Config, v: View)
    requires ViewOk(c, v)
    ensures CoreOk(c, v.(coherent := false)) && ViewOk(c, v.(coherent := false))
  {
  }

  lemma CoreSuffices(c: Config, v: View)
    requires CoreOk(c, v) && !v.coherent
    ensures ViewOk(c, v)
  {
  }

  lemma CoreOf(c: Config, v: View)
    requires ViewOk(c, v)
    ensures CoreOk(c, v)
  {
  }

  lemma DriverSize(c: Config, v: View)
    requires CoreOk(c, v)
    ensures |v.d.state| == c.num
  {
  }

  // ----- teardown -----

  /** Nothing outstanding: every node free, nothing mapped, every accepted token handed back. */
  ghost predicate Drained(v: View) {
    && v.l.pool.out == map[] && v.d.numFree == v.l.pool.num
    && v.l.live == multiset{} && v.l.given == v.l.returned
  }

  lemma NoneLeft(c: Config, v: View)
    requires CoreOk(c, v) && forall id: nat :: id < c.num ==> id < |v.d.state| && v.d.state[id].data.None?
    ensures Drained(v)
  {
    hide Partition, Threaded, BufferOk;
    forall id | id in v.l.pool.out ensures false {
      assert id < |v.d.state|;
      DataTellsOutstanding(c, v, id);
    }
    assert v.l.pool.out == map[];
    Settled(v.l);
  }

  /** A queue re-initialised in place after it has been drained; its free list is whatever order it was left in. */
  ghost function Reinitialised(c: Config, v: View): View {
    v.(d := v.d.(numFree := c.num), g := Regs(WRAP_BIT, 0, true, c.num, 0, 0), availUsed := LapFlags(true),
       slots := Start(c.num).cells, coherent := true, r := Start(c.num))
  }

  lemma ReinitialisedOk(c: Config, v: View)
    requires CoreOk(c, v) && Drained(v)
    ensures ViewOk(c, Reinitialised(c, v)) && |v.l.pool.free| == c.num
  {
    hide Partition, Threaded, BuffersOk, Inv, Shows;
    StartFits(c.num);
  }

  // ----- notification -----

  /** The device's event suppression structure asks for a kick. */
  function NeedsKick(eventFlags: nat, offWrap: nat, nextAvail: nat, availWrap: bool, added: nat, num: nat): bool {
    if eventFlags != EVENT_FLAG_DESC then eventFlags != EVENT_FLAG_DISABLE
    else PackedNeedsKick(LastUsed(offWrap), UsedWrap(offWrap), nextAvail, availWrap, added, num)
  }

  const EVENT_FLAG_ENABLE := 0
  const EVENT_FLAG_DISABLE := 1
  const EVENT_FLAG_DESC := 2

  /** With the event at position E, at most one lap back, and fewer than 2^16 descriptors added since the last kick,
      the driver kicks exactly when E is among them. */
  lemma KickExact(c: Config, v: View, E: nat)
    requires ViewOk(c, v) && v.coherent && v.r.A <= E + c.num && E <= v.r.A && v.g.numAdded < WORD
    ensures v.g.kicked <= v.r.A && c.num <= WRAP_BIT && E % c.num < c.num
    ensures NeedsKick(EVENT_FLAG_DESC, EncodeUsed(E % c.num, Even(E, c.num)), v.g.nextAvail, v.g.availWrap,
          v.g.numAdded, c.num)
       <==> v.g.kicked <= E < v.r.A
  {
    hide DriverOk, Fits, PackedKickRight;
    FitsOf(c, v);
    RegistersTellA(v.slots, v.g, v.l.pool.out, v.r);
    EncodeUsedExact(E % c.num, Even(E, c.num));
    PackedKickRightSoon(v.r.A, v.g.kicked, E, c.num);
    KickRightMeans(v.r.A, v.g.kicked, E, c.num);
  }

  lemma FitsOf(c: Config, v: View)
    requires ViewOk(c, v) && v.coherent
    ensures Fits(v.slots, v.g, v.l.pool.out, v.r) && |v.slots| == c.num
  {
  }

  lemma KickRightMeans(A: nat, K: nat, E: nat, num: nat)
    requires num > 0 && K <= A && PackedKickRight(A, K, E, num)
    ensures PackedNeedsKick(E % num, Even(E, num), A % num, Even(A, num), A - K, num) <==> K <= E < A
  {
  }

  lemma KickedOk(c: Config, v: View)
    requires ViewOk(c, v)
    ensures ViewOk(c, v.(g := v.g.(numAdded := 0, kicked := v.g.kicked + v.g.numAdded)))
  {
    hide DriverOk, Shows, Inv;
  }

  // ----- the device -----

  ghost function NextRing(r: Ring, s: Step): Ring {
    if Inv(r) && Enabled(r, s) then Next(r, s) else r
  }

  ghost predicate DeviceRead(c: Config, v: View, n: nat, v': View) {
    && ViewOk(c, v) && v.coherent && Inv(v.r) && Enabled(v.r, DevRead(n))
    && v' == v.(r := Next(v.r, DevRead(n)))
  }

  ghost predicate DeviceWrote(c: Config, v: View, i: nat, d: Desc, v': View) {
    var u := LastUsed(v.g.lastUsedIdx);
    && ViewOk(c, v) && v.coherent && Inv(v.r) && Enabled(v.r, DevUse(i, d))
    && u < c.num == |v.slots| && v.r.P - v.r.U <= c.num && Slot(u, v.r.P - v.r.U, c.num) < |v.slots|
    && v' == v.(slots := v.slots[Slot(u, v.r.P - v.r.U, c.num) := d], r := Next(v.r, DevUse(i, d)))
  }

  /** Whatever a conforming device does next leaves the queue valid. */
  lemma DeviceKeeps(c: Config, v: View, n: nat, i: nat, d: Desc, v': View)
    requires DeviceRead(c, v, n, v') || DeviceWrote(c, v, i, d, v')
    ensures ViewOk(c, v')
  {
    hide DriverOk, Fits, Inv, Enabled, Next, Slot;
    FitsOf(c, v);
    if DeviceRead(c, v, n, v') {
      DevReadFits(v.slots, v.g, v.l.pool.out, v.r, n);
    } else {
      DevUseFits(v.slots, v.g, v.l.pool.out, v.r, i, d);
    }
  }

  /** One outstanding buffer was detached outside the ring protocol. */
  ghost predicate Dropped(c: Config, v: View, id: nat, token: nat, v': View) {
    && Outstanding(v, id) && v.d.state[id].data == Some(token) && v.l.tokens[id] == multiset{token}
    && v' == Detached(c, v.(coherent := false), id)
  }

  lemma DroppedHands(c: Config, v: View, id: nat, token: nat, v': View)
    requires Dropped(c, v, id, token, v')
    ensures HandedBack(v.l, v'.l, id, token)
  {
    hide HandedBack;
    ReleaseHands(v.l, id, token);
  }

  lemma NewView(c: Config, v: View)
    requires 0 < c.num <= WRAP_BIT && c.num == v.d.numFree == |v.d.next| == |v.d.extra| == |v.d.state| &&
          v.d.freeHead == 0
    requires forall i :: 0 <= i < c.num - 1 ==> v.d.next[i] == i + 1
    requires forall i :: 0 <= i < c.num ==> v.d.state[i].data.None?
    requires v.g == Regs(WRAP_BIT, 0, true, c.num, 0, 0) && v.availUsed == LapFlags(true) &&
          v.slots == Start(c.num).cells
    requires v.l == Opening(c.num) && v.coherent && v.r == Start(c.num)
    ensures ViewOk(c, v)
  {
    hide DriverOk, Fits;
    OpeningOk(c.useDma, c.indirect, c.num, v.d);
    StartFits(c.num);
  }

  class Queue {
    const num: nat
    const useDma: bool
    const indirect: bool
    var broken: bool
    var freeHead: nat
    var numFree: nat
    var numAdded: nat
    var lastUsedIdx: nat       // used index in the low 15 bits, used wrap counter above
    var availWrap: bool
    var availUsed: Flags       // the AVAIL and USED bits to store on the current lap
    var nextAvail: nat
    const desc: array<Desc>    // shared with the device
    const next: array<nat>     // desc_extra[].next
    const extra: array<Extra>  // desc_extra[].addr, len, flags
    const state: array<State>
    const iommu: Iommu

    ghost var ledger: Ledger
    ghost var coherent: bool   // the ring is in operation and no half-stored chain was given up
    ghost var ring: Ring
    ghost var kicked: nat      // position A at the last kick
    ghost var windows: seq<Window>  // of the decisions so far

    /** The whole queue as a value. */
    ghost function Now(): View
      reads this, desc, next, extra, state
    {
      View(Driver(freeHead, numFree, next[..], extra[..], state[..]),
           Regs(lastUsedIdx, nextAvail, availWrap, numFree, numAdded, kicked),
           availUsed, desc[..], ledger, coherent, ring)
    }

    ghost function Cfg(): Config {
      Config(num, useDma, indirect)
    }

    ghost predicate Sized()
    {
      0 < num <= WRAP_BIT && desc.Length == next.Length == extra.Length == state.Length == num
    }

    /** What holds whatever the device writes; what is mapped is what the ledger says. */
    ghost predicate Core()
      reads this, desc, next, extra, state, iommu
    {
      Sized() && CoreOk(Cfg(), Now()) && iommu.live == ledger.live
    }

    ghost predicate Valid()
      reads this, desc, next, extra, state, iommu
    {
      Sized() && ViewOk(Cfg(), Now()) && iommu.live == ledger.live && Tiles(windows, kicked)
    }

    constructor (num: nat, useDma: bool, indirect: bool)
      requires 0 < num <= WRAP_BIT
      ensures Valid() && this.num == num && this.useDma == useDma && this.indirect == indirect
      ensures fresh(desc) && fresh(next) && fresh(extra) && fresh(state) && fresh(iommu)
      ensures ledger == Opening(num) && coherent && ring == Start(num) && !broken
    {
      this.num, this.useDma, this.indirect := num, useDma, indirect;
      broken, freeHead, numFree, numAdded, lastUsedIdx := false, 0, num, 0, WRAP_BIT;
      availWrap, availUsed, nextAvail := true, Flags(false, false, false, true, false), 0;
      var d, n, e, s := Tables(num);
      desc, next, extra, state := d, n, e, s;
      iommu := new Iommu();
      ledger, coherent, ring, kicked, windows := Opening(num), true, Start(num), 0, [];
      new;
      hide ViewOk, Tiles, Start;
      NoWindows();
      NewView(Cfg(), Now());
    }

    /** vring_alloc_queue_packed and vring_alloc_desc_extra */
    static method Tables(num: nat) returns (desc: array<Desc>, next: array<nat>, extra: array<Extra>,
        state: array<State>)
      requires 0 < num
      ensures fresh(desc) && fresh(next) && fresh(extra) && fresh(state)
      ensures desc.Length == next.Length == extra.Length == state.Length == num
      ensures desc[..] == Start(num).cells && forall i :: 0 <= i < num - 1 ==> next[i] == i + 1
      ensures forall i :: 0 <= i < num ==> state[i].data.None?
    {
      desc := new Desc[num](_ => Desc(0, 0, 0, NO_FLAGS));
      next := new nat[num](i => if 0 <= i < num - 1 then i + 1 else 0);
      extra := new Extra[num](_ => Extra(0, 0, NO_FLAGS));
      state := new State[num](_ => State(None, Nothing, 0, 0));
      assert desc[..] == Start(num).cells;
    }

    /** vring_unmap_extra_packed for node curr, the n-th of those that `unmaps` lists; `rest` stay. */
    method UnmapExtra(curr: nat, ghost unmaps: seq<Mapping>, ghost n: nat, ghost rest: multiset<Mapping>)
      requires curr < extra.Length && n < |unmaps| && unmaps[n] == ExtraMapping(extra[curr])
      requires iommu.live == rest + multiset(unmaps[n..])
      modifies iommu
      ensures iommu.live == rest + multiset(unmaps[n + 1..])
    {
      var e := extra[curr];
      NextOut(unmaps, n);
      iommu.Unmap(e.addr, e.len, e.flags.write, e.flags.indirect);
    }

    /** Undo the mappings of a chain of n nodes, walking the `next` fields; `rest` stay. */
    method UnmapChain(id: nat, n: nat, ghost chain: seq<nat>, ghost rest: multiset<Mapping>)
      requires next.Length == extra.Length && n == |chain| && (n > 0 ==> id == chain[0]) && Linked(next[..], chain)
      requires iommu.live == rest + multiset(ChainMappings(extra[..], chain))
      modifies iommu
      ensures iommu.live == rest
    {
      hide ChainMappings, Linked, ExtraMapping;
      LinkedWithin(next[..], chain);
      ghost var unmaps := ChainMappings(extra[..], chain);
      ChainMappingsAt(extra[..], chain);
      assert unmaps[0..] == unmaps;
      var curr, i := id, 0;
      while i < n
        invariant 0 <= i <= n && (i < n ==> curr == chain[i])
        invariant iommu.live == rest + multiset(unmaps[i..])
      {
        LinkedStep(next[..], chain, i);
        UnmapExtra(curr, unmaps, i, rest);
        curr := next[curr];
        i := i + 1;
      }
      assert unmaps[n..] == [];
    }

    /** Put the chain of buffer id in front of the free list. */
    method Relink(id: nat)
      requires id < state.Length && state[id].last < next.Length
      modifies this`freeHead, this`numFree, next, state
      ensures next[..] == old(next[..])[old(state[id].last) := old(freeHead)]
      ensures state[..] == old(state[..])[id := old(state[id]).(data := None)]
      ensures freeHead == id && numFree == old(numFree) + old(state[id].num)
    {
      state[id] := state[id].(data := None);
      next[state[id].last] := freeHead;
      freeHead := id;
      numFree := numFree + state[id].num;
    }

    /** Undo everything mapped for buffer id; `rest` stay. */
    method UndoMappings(id: nat, ghost chain: seq<nat>, ghost rest: multiset<Mapping>)
      requires id < state.Length == next.Length == extra.Length
      requires 0 < |chain| == state[id].num && chain[0] == id && Linked(next[..], chain)
      requires if indirect then !state[id].aside.Context? else !state[id].aside.Table?
      requires state[id].aside.Table? && useDma ==> extra[id].len == DESC_SIZE * |state[id].aside.descs|
      requires iommu.live == rest + ToUnmap(useDma, extra[..], chain, state[id].aside)
      modifies iommu
      ensures iommu.live == rest
    {
      hide ChainMappings, TableMappings, Linked;
      ghost var aside := state[id].aside;
      ghost var entries := if useDma && aside.Table? then multiset(TableMappings(aside.descs)) else multiset{};
      if useDma {
        UnmapChain(id, state[id].num, chain, rest + entries);
      }
      if indirect && state[id].aside.Table? && useDma {
        assert aside.descs[..|aside.descs|] == aside.descs;
        UnmapTable(iommu, state[id].aside.descs, extra[id].len / DESC_SIZE, rest);
      }
    }

    /** Forget the table, or hand the context back. */
    method TakeAside(id: nat) returns (context: Aside)
      requires id < state.Length
      modifies state
      ensures state[..] == old(state[..])[id := old(state[id]).(aside := if indirect then Nothing
            else old(state[id].aside))]
      ensures context == if indirect then Nothing else old(state[id].aside)
    {
      context := Nothing;
      if indirect {
        state[id] := state[id].(aside := Nothing);
      } else {
        context := state[id].aside;
      }
    }

    /** Give back the nodes of buffer id, undo its mappings and drop its indirect table. */
    method Detach(id: nat) returns (context: Aside)
      requires Core() && Outstanding(Now(), id)
      modifies this`freeHead, this`numFree, this`ledger, next, state, iommu
      ensures Core() && Now() == Detached(Cfg(), old(Now()), id)
      ensures context == if indirect then Nothing else old(state[id].aside)
    {
      hide DriverOk, Partition, BuffersOk, Threaded, Linked, Balanced, ToUnmap, CoreOk, Detached;
      ghost var v := Now();
      ghost var chain := ledger.pool.out[id];
      DetachedOk(Cfg(), v, id);
      DetachFacts(Cfg(), v, id);
      Relink(id);
      UndoMappings(id, chain, Release(ledger, id).live);
      context := TakeAside(id);
      ledger := Release(ledger, id);
      DetachedIs(Cfg(), v, id, Now());
    }

    /** Undo the mappings of a chain whose construction stopped at ring slot `stop`; `rest` stay. */
    method UnmapRelease(stop: nat, total: nat, ghost chain: seq<nat>, ghost rest: multiset<Mapping>)
      requires next.Length == extra.Length && nextAvail < num && |chain| < total <= num
      requires stop == Slot(nextAvail, |chain|, num) && Linked(next[..], chain) &&
            (chain != [] ==> freeHead == chain[0])
      requires iommu.live == rest + multiset(ChainMappings(extra[..], chain))
      modifies iommu
      ensures iommu.live == rest
    {
      hide Slot, ChainMappings, Linked, ExtraMapping;
      LinkedWithin(next[..], chain);
      ghost var unmaps := ChainMappings(extra[..], chain);
      var i, curr, n := nextAvail, freeHead, 0;
      ChainMappingsAt(extra[..], chain);
      SlotStep(nextAvail, 0, num);
      SlotTells(nextAvail, 0, |chain|, num);
      assert unmaps[0..] == unmaps;
      while n < total && i != stop
        invariant 0 <= n <= |chain| && i == Slot(nextAvail, n, num)
        invariant n < |chain| ==> curr == chain[n]
        invariant iommu.live == rest + multiset(unmaps[n..])
      {
        LinkedStep(next[..], chain, n);
        UnmapExtra(curr, unmaps, n, rest);
        curr := next[curr];
        SlotStep(nextAvail, n, num);
        SlotTells(nextAvail, n + 1, |chain|, num);
        i := i + 1;
        if i >= num {
          i := 0;
        }
        n := n + 1;
      }
      SlotTells(nextAvail, n, |chain|, num);
      assert unmaps[|chain|..] == [];
    }

    /** Fill ring slot i; the flags of a chain's head stay as they are for now. */
    method StoreOne(i: nat, curr: nat, isHead: bool, d: Desc)
      requires i < desc.Length && curr < extra.Length
      modifies desc, extra
      ensures desc[..] == old(desc[..])[i := if isHead then d.(flags := old(desc[i]).flags) else d]
      ensures extra[..] == if useDma then old(extra[..])[curr := Extra(d.addr, d.len, d.flags)] else old(extra[..])
    {
      desc[i] := if isHead then d.(flags := desc[i].flags) else d;
      if useDma {
        extra[curr] := Extra(d.addr, d.len, d.flags);
      }
    }

    /** The first j entries of a request are stored and recorded, all but the flags of the first. */
    ghost predicate StoredSoFar(q: Request, j: nat, slots0: seq<Desc>, extra0: seq<Extra>, free: seq<nat>)
      reads this, desc, extra
    {
      && Sized() && nextAvail < num == |slots0| == |extra0| && WellFormed(q) && j <= |q.sgs| <= num && |q.sgs| <= |free|
      && Within(free, num)
      && var ds := DescsOf(useDma, q, freeHead, nextAvail, availWrap, num, j);
      && desc[..] == Stored(slots0, nextAvail, ds) && extra[..] == Recorded(extra0, free, RecordsOf(useDma, ds))
      && availUsed == LapFlags(Lap(nextAvail, availWrap, j, num))
    }

    /** Store entry j of a request, mapped at addr, in ring slot i. */
    method StoreEntry(q: Request, j: nat, i: nat, curr: nat, addr: nat,
                      ghost slots0: seq<Desc>, ghost extra0: seq<Extra>, ghost free: seq<nat>)
      returns (i': nat, flags: Flags)
      requires StoredSoFar(q, j, slots0, extra0, free) && j < |q.sgs|
      requires curr == free[j] && Mapped(useDma, q, j) == Some(addr) && i == Slot(nextAvail, j, num)
      modifies this`availUsed, desc, extra
      ensures StoredSoFar(q, j + 1, slots0, extra0, free) && i' == Slot(nextAvail, j + 1, num)
      ensures flags == DescOf(useDma, q, freeHead, nextAvail, availWrap, num, j).flags
    {
      hide Stored, Recorded, DescsOf, RecordsOf;
      ghost var ds := DescsOf(useDma, q, freeHead, nextAvail, availWrap, num, j);
      NextDescriptor(useDma, q, freeHead, nextAvail, availWrap, num, j);
      flags := availUsed.(next := j + 1 != |q.sgs|, write := j >= q.nOut);
      StoredPush(slots0, nextAvail, ds, Desc(addr, q.sgs[j].len, freeHead, flags));
      StoredHead(slots0, nextAvail, ds);
      RecordedPush(extra0, free, RecordsOf(useDma, ds), Extra(addr, q.sgs[j].len, flags));
      StoreOne(i, curr, i == nextAvail, Desc(addr, q.sgs[j].len, freeHead, flags));
      i' := i + 1;
      if i' >= num {
        i' := 0;
        availUsed := availUsed.(avail := !availUsed.avail, used := !availUsed.used);
      }
    }

    /** Store the descriptors of a request from the next available slot on, all but the flags of the first.
        Stops at the first entry that cannot be mapped. */
    method StoreChain(q: Request) returns (j: nat, i: nat, curr: nat, prev: nat, headFlags: Flags)
      requires Sized() && nextAvail < num && availUsed == LapFlags(availWrap) && WellFormed(q) && |q.sgs| <= num
      requires |q.sgs| <= |ledger.pool.free| && Linked(next[..], ledger.pool.free) && freeHead == ledger.pool.free[0]
      requires Within(ledger.pool.free, num)
      modifies this`availUsed, desc, extra, iommu
      ensures j <= |q.sgs| && AllMapped(useDma, q, j) && (j < |q.sgs| ==> Mapped(useDma, q, j).None?)
      ensures i == Slot(nextAvail, j, num)
      ensures j > 0 ==> prev == ledger.pool.free[j - 1] && curr == next[prev]
      ensures StoredSoFar(q, j, old(desc[..]), old(extra[..]), ledger.pool.free)
      ensures j > 0 ==> headFlags == DescOf(useDma, q, freeHead, nextAvail, availWrap, num, 0).flags
      ensures iommu.live == old(iommu.live) + multiset(Mappings(useDma, q, j))
    {
      hide Stored, Recorded, DescsOf, RecordsOf, Mappings, DescOf, OneMapping, Linked, StoredSoFar;
      ghost var slots0, extra0, free := desc[..], extra[..], ledger.pool.free;
      var head, id := nextAvail, freeHead;
      StartStore(q, slots0, extra0, free);
      j, i, curr, prev, headFlags := 0, head, id, id, NO_FLAGS;
      while j < |q.sgs|
        invariant 0 <= j <= |q.sgs| && AllMapped(useDma, q, j)
        invariant i == Slot(head, j, num) && StoredSoFar(q, j, slots0, extra0, free)
        invariant j < |free| ==> curr == free[j]
        invariant j > 0 ==> prev == free[j - 1] && curr == next[prev]
        invariant j > 0 ==> headFlags == DescOf(useDma, q, id, head, availWrap, num, 0).flags
        invariant iommu.live == old(iommu.live) + multiset(Mappings(useDma, q, j))
        modifies this`availUsed, desc, extra, iommu
      {
        var addr := MapEntry(iommu, useDma, q, j);
        if addr.None? {
          return;
        }
        MappingsGrow(useDma, q, j);
        var isHead, flags := i == head, NO_FLAGS;
        i, flags := StoreEntry(q, j, i, curr, addr.value, slots0, extra0, free);
        if isHead {
          headFlags := flags;
        }
        LinkedStep(next[..], free, j);
        prev := curr;
        curr := next[curr];
        j := j + 1;
      }
    }

    lemma StartStore(q: Request, slots0: seq<Desc>, extra0: seq<Extra>, free: seq<nat>)
      requires Sized() && nextAvail < num == |slots0| == |extra0| && availUsed == LapFlags(availWrap) && WellFormed(q)
      requires |q.sgs| <= num && |q.sgs| <= |free| && Within(free, num) && slots0 == desc[..] && extra0 == extra[..]
      ensures StoredSoFar(q, 0, slots0, extra0, free) && Mappings(useDma, q, 0) == []
    {
      hide Stored, Recorded, DescsOf, RecordsOf, Mappings;
      NothingStored(useDma, q, freeHead, nextAvail, availWrap, num, slots0, extra0, free);
    }

    /** Take n nodes off the free list for the buffer at its head and publish it. */
    method Commit(n: nat, last: nat, newHead: nat, stop: nat, headFlags: Flags, data: nat, aside: Aside,
                  ghost l: Ledger, ghost r: Ring)
      requires freeHead < state.Length && nextAvail < desc.Length && n <= numFree
      modifies this`availWrap, this`numFree, this`nextAvail, this`freeHead, this`numAdded, this`ledger, this`ring,
          desc, state
      ensures Now() == Committed(old(Now()), n, last, newHead, stop, headFlags, data, aside, l, r) && ledger == l
    {
      var head, id := nextAvail, freeHead;
      Advance(n, newHead, stop);
      RecordAndPublish(id, head, State(Some(data), aside, n, last), headFlags);
      numAdded := numAdded + n;
      ledger, ring := l, r;
    }

    method Advance(n: nat, newHead: nat, stop: nat)
      requires n <= numFree
      modifies this`availWrap, this`numFree, this`nextAvail, this`freeHead
      ensures availWrap == (if stop <= old(nextAvail) then !old(availWrap) else old(availWrap)) &&
            numFree == old(numFree) - n
      ensures nextAvail == stop && freeHead == newHead
    {
      if stop <= nextAvail {
        availWrap := !availWrap;
      }
      numFree := numFree - n;
      nextAvail := stop;
      freeHead := newHead;
    }

    /** Keep the buffer's state, then let the device see the head of its chain. */
    method RecordAndPublish(id: nat, head: nat, s: State, headFlags: Flags)
      requires id < state.Length && head < desc.Length
      modifies desc, state
      ensures state[..] == old(state[..])[id := s]
      ensures desc[..] == old(desc[..])[head := old(desc[head]).(flags := headFlags)]
    {
      state[id] := s;
      desc[head] := desc[head].(flags := headFlags);
    }

    /** Give up a direct add after j entries: undo their mappings. */
    method Rollback(q: Request, j: nat, stop: nat, saved: Flags, ghost v: View)
      requires Sized() && ViewOk(Cfg(), v) && Tiles(windows, kicked) && WellFormed(q) && j < |q.sgs| <= v.d.numFree
      requires Now() == MidAdd(Cfg(), v, q, j) && nextAvail < num && j <= num && stop == Slot(nextAvail, j, num)
      requires iommu.live == v.l.live + multiset(Mappings(useDma, q, j)) && saved == v.availUsed
      modifies this`availUsed, this`coherent, this`ring, iommu
      ensures Valid() && Now() == GivenUp(Cfg(), v, q, j)
    {
      hide Tiles, ViewOk, ChainMappings, Stored, Recorded, DescsOf, RecordsOf, Mappings, AfterStores;
      AddFacts(Cfg(), v, |q.sgs|);
      GivenUpOk(Cfg(), v, q, j);
      availUsed := saved;
      if useDma {
        UnmapRelease(stop, |q.sgs|, ledger.pool.free[..j], v.l.live);
      } else {
        UnmappedPrefix(useDma, q, j);
      }
      coherent, ring := coherent && j <= 1, GivenUp(Cfg(), v, q, j).r;
    }

    /** All entries of a direct add are mapped and stored: take its nodes and publish the chain. */
    method CommitChain(q: Request, data: nat, aside: Aside, prev: nat, curr: nat, stop: nat, headFlags: Flags,
        ghost v: View)
      requires Sized() && ViewOk(Cfg(), v) && Tiles(windows, kicked) && WellFormed(q) && |q.sgs| <= v.d.numFree
      requires !aside.Table? && (indirect ==> aside.Nothing?)
      requires Now() == MidAdd(Cfg(), v, q, |q.sgs|) && |q.sgs| <= |v.l.pool.free| && prev == v.l.pool.free[|q.sgs| - 1]
      requires prev < num && curr == next[prev] && nextAvail < num && |q.sgs| <= num &&
            stop == Slot(nextAvail, |q.sgs|, num)
      requires headFlags == DescOf(useDma, q, freeHead, nextAvail, availWrap, num, 0).flags
      requires iommu.live == v.l.live + multiset(Mappings(useDma, q, |q.sgs|))
      modifies this`availWrap, this`numFree, this`nextAvail, this`freeHead, this`numAdded, this`ledger, this`ring,
          desc, state
      ensures Valid() && AddedFor(Cfg(), v, q, data, aside, Now())
    {
      hide Tiles, ViewOk, AddedFor, Stored, Recorded, DescsOf, RecordsOf, Mappings, DescOf, AfterAdd, Committed, Linked;
      AddFacts(Cfg(), v, |q.sgs|);
      CommitCompletes(Cfg(), v, q, data, aside);
      Commit(|q.sgs|, prev, curr, stop, headFlags, data, aside,
             Accept(ledger, |q.sgs|, data, multiset(Mappings(useDma, q, |q.sgs|))),
             if coherent then AfterAdd(ring, RequestChain(Cfg(), v, q)) else ring);
    }

    /** Store, then either commit or roll back. */
    method TryDirect(q: Request, data: nat, aside: Aside) returns (ok: bool)
      requires Valid() && WellFormed(q) && !aside.Table? && (indirect ==> aside.Nothing?) && |q.sgs| <= numFree
      modifies this`availUsed, this`availWrap, this`numFree, this`nextAvail, this`freeHead, this`numAdded,
               this`ledger, this`coherent, this`ring, desc, extra, state, iommu
      ensures Valid() && (ok <==> AllMapped(useDma, q, |q.sgs|))
      ensures if ok then AddedFor(Cfg(), old(Now()), q, data, aside, Now()) else GivenUpFor(Cfg(), old(Now()), q, Now())
    {
      hide Tiles, ViewOk, AddedFor, GivenUp, Stored, Recorded, DescsOf, RecordsOf, Mappings, DescOf, Linked;
      ghost var c, v := Cfg(), Now();
      AddFacts(c, v, |q.sgs|);
      var j, i, curr, prev, headFlags;
      var saved := availUsed;
      j, i, curr, prev, headFlags := StoreChain(q);
      assert Now() == MidAdd(c, v, q, j);
      if j < |q.sgs| {
        MappedBeforeExact(useDma, q, |q.sgs|, j);
        Rollback(q, j, i, saved, v);
        return false;
      }
      CommitChain(q, data, aside, prev, curr, i, headFlags, v);
      ok := true;
    }

    /** Add a request descriptor by descriptor. */
    method AddDirect(q: Request, data: nat, aside: Aside) returns (st: Status)
      requires Valid() && WellFormed(q) && !aside.Table? && (indirect ==> aside.Nothing?)
      modifies this`availUsed, this`availWrap, this`numFree, this`nextAvail, this`freeHead, this`numAdded,
               this`ledger, this`coherent, this`ring, desc, extra, state, iommu
      ensures Valid()
      ensures DirectOutcome(Cfg(), old(Now()), q, data, aside, st, Now())
    {
      hide Tiles, ViewOk, AddedFor, GivenUpFor, AllMapped;
      if numFree < |q.sgs| {
        return NoSpace;
      }
      var ok := TryDirect(q, data, aside);
      st := if ok then Ok else IoError;
    }

    /** Write the one descriptor of an indirect buffer, all but its flags, and go on to the next slot. */
    method StoreTable(d: Desc) returns (stop: nat)
      requires nextAvail < desc.Length == num && freeHead < extra.Length && availUsed == LapFlags(availWrap)
      modifies this`availUsed, desc, extra
      ensures stop == Slot(nextAvail, 1, num) && availUsed == LapFlags(Lap(nextAvail, availWrap, 1, num))
      ensures desc[..] == Stored(old(desc[..]), nextAvail, [d])
      ensures extra[..] == if useDma then old(extra[..])[freeHead := Extra(d.addr, d.len, d.flags)] else old(extra[..])
    {
      StoredOne(desc[..], nextAvail, d);
      desc[nextAvail] := d.(flags := desc[nextAvail].flags);
      if useDma {
        extra[freeHead] := Extra(d.addr, d.len, d.flags);
      }
      stop := nextAvail + 1;
      if stop >= num {
        stop := 0;
        availUsed := availUsed.(avail := !availUsed.avail, used := !availUsed.used);
      }
    }

    /** Publish a buffer whose only descriptor is a mapped table. */
    method PublishTable(q: Request, table: seq<TableDesc>, addr: nat, data: nat)
      requires Sized() && ViewOk(Cfg(), Now()) && Tiles(windows, kicked) && WellFormed(q) &&
            iommu.live == ledger.live + IndirectMappings(useDma, q)
      requires indirect && 0 < numFree && TableAddress(useDma, q) == Some(addr)
      requires table == TableOf(useDma, q, |q.sgs|)
      modifies this`availUsed, this`availWrap, this`numFree, this`nextAvail, this`freeHead, this`numAdded,
               this`ledger, this`ring, desc, extra, state
      ensures Valid() && IndirectFor(Cfg(), old(Now()), q, addr, data, Now())
    {
      hide Tiles, ViewOk, IndirectFor, AfterAdd, TableOf, IndirectMappings, Committed;
      ghost var c, v := Cfg(), Now();
      AddFacts(c, v, 1);
      CommitCompletesTable(c, v, q, addr, data);
      var len, flags := DESC_SIZE * |q.sgs|, availUsed.(indirect := true);
      var stop := StoreTable(Desc(addr, len, freeHead, flags));
      Commit(1, freeHead, next[freeHead], stop, flags, data, Table(table),
          Accept(ledger, 1, data, IndirectMappings(useDma, q)),
             if coherent then AfterAdd(ring, [TableDescriptor(c, v, q, addr)]) else ring);
    }

    /** Add a request through an indirect table. */
    method AddIndirect(q: Request, data: nat) returns (st: Status)
      requires Valid() && WellFormed(q) && indirect
      modifies this`availUsed, this`availWrap, this`numFree, this`nextAvail, this`freeHead, this`numAdded,
               this`ledger, this`ring, desc, extra, state, iommu
      ensures Valid()
      ensures old(numFree) == 0 ==> st != Ok
      ensures old(numFree) > 0 && |q.sgs| > 1 ==> (st == Ok <==> GoesIndirect(Cfg(), old(Now()), q)) && st != NoSpace
      ensures st == NoSpace || st == NoMemory || st == Ok
      ensures st != Ok ==> Now() == old(Now())
      ensures st == Ok ==> TableAddress(useDma, q).Some?
                           && IndirectFor(Cfg(), old(Now()), q, TableAddress(useDma, q).value, data, Now())
    {
      hide Tiles, ViewOk, IndirectMappings, TableOf, IndirectFor;
      if !q.gotTable {
        return NoMemory;
      }
      if numFree < 1 {
        return NoSpace;
      }
      var table, addr;
      table, addr := MapTable(iommu, useDma, q);
      if addr.None? {
        return NoMemory;
      }
      PublishTable(q, table, addr.value, data);
      st := Ok;
    }

    /** Add a request: through a table when that pays, else descriptor by descriptor. */
    method Add(q: Request, data: nat, context: Option<nat>) returns (st: Status)
      requires Valid() && WellFormed(q) && (context.Some? ==> !indirect)
      modifies this`availUsed, this`availWrap, this`numFree, this`nextAvail, this`freeHead, this`numAdded,
               this`ledger, this`coherent, this`ring, desc, extra, state, iommu
      ensures Valid()
      ensures broken ==> st == IoError && Now() == old(Now())
      ensures !broken ==> AddOutcome(Cfg(), old(Now()), q, data,
            if context.Some? then Context(context.value) else Nothing, st, Now())
      ensures !broken ==> (st == Ok <==> old(TakesTable(Cfg(), Now(), q)) ||
                                         (|q.sgs| <= old(numFree) && Granted(useDma, q.answers)))
      ensures st == Ok ==> Delivered(Cfg(), old(Now()), q, data,
                                     if context.Some? then Context(context.value) else Nothing, Now())
      ensures st != Ok ==> ledger == old(ledger)
    {
      hide Tiles, ViewOk, DirectOutcome, IndirectFor, AllMapped, TakesTable, Granted, Delivered;
      ghost var v, aside := Now(), if context.Some? then Context(context.value) else Nothing;
      if broken {
        return IoError;
      }
      if indirect && |q.sgs| > 1 && numFree > 0 {
        st := AddIndirect(ForTable(q), data);
        if st != NoMemory {
          AddMeans(Cfg(), v, q, data, aside, st, Now());
          return st;
        }
      }
      st := AddDirect(q, data, if context.Some? then Context(context.value) else Nothing);
      AddMeans(Cfg(), v, q, data, aside, st, Now());
    }

    /** The id in the slot the driver expects to be used next, if the device has written it back; an id that is
        not outstanding breaks the queue. */
    method NextUsed() returns (found: Option<nat>, len: nat)
      requires Valid() && !broken
      modifies this`broken
      ensures Now() == old(Now())
      ensures found.Some? ==> !broken && NamedUsed(Cfg(), Now(), found.value, len)
      ensures found.Some? <==> ShowsUsed(Now()) && NamesBuffer(Now())
      ensures broken <==> ShowsUsed(Now()) && !NamesBuffer(Now())
      ensures coherent ==> !broken && UsedExactly(Now(), found)
    {
      hide Tiles, ViewOk, CoreOk, Outstanding;
      ghost var c, v := Cfg(), Now();
      UsedSlotFacts(c, v);
      found, len := None, 0;
      var lastUsed, wrap := LastUsed(lastUsedIdx), UsedWrap(lastUsedIdx);
      if desc[lastUsed].flags.avail == desc[lastUsed].flags.used && desc[lastUsed].flags.used == wrap {
        var id := desc[lastUsed].id;
        len := desc[lastUsed].len;
        if id >= num {
          broken := true;
        } else if state[id].data.None? {
          broken := true;
        } else {
          found := Some(id);
        }
      }
    }

    /** Detach buffer id and move past its used element. */
    method TakeUsed(id: nat) returns (context: Aside)
      requires Valid() && Outstanding(Now(), id) && state[id].num <= num && LastUsed(lastUsedIdx) < num
      requires coherent ==> MoreUsed(ring) && id == ring.cells[0].id
      modifies this`freeHead, this`numFree, this`lastUsedIdx, this`ledger, this`ring, next, state, iommu
      ensures Valid() && IsConsumed(Cfg(), old(Now()), id, Now())
      ensures context == if indirect then Nothing else old(state[id].aside)
    {
      hide Tiles, ViewOk, CoreOk, Detached, Consumed;
      ghost var c, v := Cfg(), Now();
      ConsumedOk(c, v, id);
      CoreOf(c, v);
      ConsumedParts(c, v, id);
      context := Detach(id);
      assert state[id] == Now().d.state[id];
      var lastUsed, wrap := LastUsed(lastUsedIdx) + state[id].num, UsedWrap(lastUsedIdx);
      if lastUsed >= num {
        lastUsed := lastUsed - num;
        wrap := !wrap;
      }
      lastUsedIdx := if wrap then lastUsed + WRAP_BIT else lastUsed;
      ring := Consumed(c, v, id).r;
      assert lastUsedIdx == RegsAfterConsume(v.g, num, v.d.state[id].num).lastUsedIdx;
      assert IsConsumed(c, v, id, Now());
    }

    /** Take the next used buffer: its token, the length the device wrote, and the caller's context. */
    method GetBuf() returns (ret: Option<nat>, len: nat, context: Aside)
      requires Valid()
      modifies this`broken, this`freeHead, this`numFree, this`lastUsedIdx, this`ledger, this`ring, next, state, iommu
      ensures Valid()
      ensures ret.None? ==> Now() == old(Now())
      ensures ret.Some? <==> !old(broken) && old(ShowsUsed(Now()) && NamesBuffer(Now()))
      ensures broken <==> old(broken) || old(ShowsUsed(Now()) && !NamesBuffer(Now()))
      ensures ret.Some? ==> Taken(Cfg(), old(Now()), ret.value, len, context, Now())
      ensures ret.Some? ==> exists id :: NamedUsed(Cfg(), old(Now()), id, len) &&
                                         HandedBack(old(ledger), ledger, id, ret.value) &&
                                         ReturnsContext(old(Now()).d, id, context)
      ensures old(coherent) && !old(broken) ==> !broken && (ret.Some? <==> old(ring.U) < old(ring.P))
    {
      hide Tiles, ViewOk, CoreOk, Outstanding, IsUsed, Consumed, IsConsumed, ReturnsContext;
      if broken {
        return None, 0, Nothing;
      }
      ghost var c, v := Cfg(), Now();
      CoreOf(c, v);
      var found;
      found, len := NextUsed();
      if found.None? {
        return None, len, Nothing;
      }
      DataTellsOutstanding(c, v, found.value);
      ret := state[found.value].data;
      context := TakeUsed(found.value);
      TakenHands(c, v, ret.value, len, context, Now(), found.value);
    }

    /** The first buffer id with a token, or num. */
    method FirstWithData() returns (i: nat)
      requires state.Length == num
      ensures i <= num && (forall k :: 0 <= k < i ==> state[k].data.None?) && (i < num ==> state[i].data.Some?)
    {
      i := 0;
      while i < num && state[i].data.None?
        invariant 0 <= i <= num && forall k :: 0 <= k < i ==> state[k].data.None?
      {
        i := i + 1;
      }
    }

    /** Detach the first outstanding buffer of a stopped queue and hand its token back; None: there is none left. */
    method DetachUnused() returns (ret: Option<nat>, ghost id: nat)
      requires Valid()
      modifies this`freeHead, this`numFree, this`ledger, this`coherent, next, state, iommu
      ensures Valid()
      ensures ret.None? ==> Now() == old(Now()) && Drained(Now())
      ensures ret.Some? ==> Dropped(Cfg(), old(Now()), id, ret.value, Now())
      ensures ret.Some? ==> HandedBack(old(ledger), ledger, id, ret.value)
    {
      hide Tiles, ViewOk, CoreOk, Detached, Drained;
      ghost var c, v := Cfg(), Now();
      CoreOf(c, v);
      var i := FirstWithData();
      id := i;
      if i == num {
        NoneLeft(c, v);
        return None, id;
      }
      DataTellsOutstanding(c, v, i);
      ret := state[i].data;
      Forget(c, v);
      coherent := false;
      var context := Detach(i);
      CoreSuffices(c, Now());
      DroppedHands(c, v, i, ret.value, Now());
    }

    /** The ring of a drained queue is set up anew, as after a resize that failed. */
    method Reinit()
      requires Core() && Drained(Now())
      modifies this`numFree, this`lastUsedIdx, this`numAdded, this`availWrap, this`availUsed, this`nextAvail,
               this`coherent, this`ring, this`kicked, this`windows, desc
      ensures Valid() && Now() == Reinitialised(Cfg(), old(Now()))
    {
      hide CoreOk, Drained, ViewOk, Tiles, Start;
      NoWindows();
      ReinitialisedOk(Cfg(), Now());
      ClearRing();
      ResetRegisters();
    }

    method ResetRegisters()
      modifies this`numFree, this`lastUsedIdx, this`numAdded, this`availWrap, this`availUsed, this`nextAvail,
               this`coherent, this`ring, this`kicked, this`windows
      ensures numFree == num && lastUsedIdx == WRAP_BIT && numAdded == 0
      ensures nextAvail == 0 && availWrap && availUsed == LapFlags(true)
      ensures coherent && ring == Start(num) && kicked == 0 && windows == []
    {
      numFree, lastUsedIdx, numAdded := num, WRAP_BIT, 0;
      nextAvail, availWrap, availUsed := 0, true, LapFlags(true);
      coherent, ring, kicked, windows := true, Start(num), 0, [];
    }

    method ClearRing()
      requires 0 < num == desc.Length
      modifies desc
      ensures desc[..] == Start(num).cells
    {
      forall i | 0 <= i < desc.Length {
        desc[i] := Desc(0, 0, 0, NO_FLAGS);
      }
    }

    /** Should the device be told about what was added since the last call? */
    method KickPrepare(eventFlags: nat, offWrap: nat) returns (needed: bool)
      requires Valid()
      modifies this`numAdded, this`kicked, this`windows
      ensures Valid() && numAdded == 0 && windows == old(windows) + [Window(old(kicked), old(kicked + numAdded))]
      ensures needed == NeedsKick(eventFlags, offWrap, nextAvail, availWrap, old(numAdded), num)
      ensures (eventFlags == EVENT_FLAG_ENABLE ==> needed) && (eventFlags == EVENT_FLAG_DISABLE ==> !needed)
      ensures Now() == old(Now()).(g := old(Now()).g.(numAdded := 0, kicked := old(kicked + numAdded)))
    {
      hide ViewOk, Tiles, NeedEvent;
      KickedOk(Cfg(), Now());
      var before, after := Word(nextAvail - numAdded), nextAvail;
      TilesNext(windows, kicked, kicked + numAdded);
      windows := windows + [Window(kicked, kicked + numAdded)];
      kicked := kicked + numAdded;
      numAdded := 0;
      if eventFlags != EVENT_FLAG_DESC {
        return eventFlags != EVENT_FLAG_DISABLE;
      }
      var event := LastUsed(offWrap);
      if UsedWrap(offWrap) != availWrap {
        event := Word(event - num);
      }
      needed := NeedEvent(event, after, before);
    }

    /** The device writes back the i-th buffer it holds, in the slot of position P. */
    method DeviceWrites(slot: nat, d: Desc, ghost i: nat)
      requires Valid() && coherent && slot < desc.Length
      requires DeviceWrote(Cfg(), Now(), i, d, Now().(slots := desc[..][slot := d], r := NextRing(ring, DevUse(i, d))))
      modifies this`ring, desc
      ensures Valid() && DeviceWrote(Cfg(), old(Now()), i, d, Now())
    {
      hide Tiles, ViewOk, DeviceWrote, NextRing;
      DeviceKeeps(Cfg(), Now(), 0, i, d, Now().(slots := desc[..][slot := d], r := NextRing(ring, DevUse(i, d))));
      desc[slot] := d;
      ring := NextRing(ring, DevUse(i, d));
    }
  }
}
