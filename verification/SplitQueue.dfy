/** The driver side of a split virtqueue. The device may write anything to the used ring and to the used index; of the
    descriptor table, which it only reads, the driver relies on the NEXT flags it stored there itself. */
module SplitQueue {
  import opened Bags
  import opened BufferLedger
  import opened Delivery
  import opened DescPool
  import opened Dma
  import opened DriverBooks
  import opened EventIdx
  import opened Lists
  import opened Modular
  import opened Options
  import opened PackedProtocol

  /** A descriptor of the table shared with the device; `more`: the chain goes on at `next`. */
  datatype SplitDesc = SplitDesc(addr: nat, len: nat, more: bool, write: bool, indirect: bool, next: nat)

  datatype Config = Config(num: nat, useDma: bool, indirect: bool)

  /** Private memory, shared memory, indices, and (ghost) ledger and history: the heads made available since the ring
      was set up, and how many used entries have been taken. */
  datatype View = View(d: Driver, desc: seq<SplitDesc>, avail: seq<nat>, availIdx: nat, notes: Notes, lastUsed: nat,
                       l: Ledger, posted: seq<nat>, taken: nat, coherent: bool)

  /** num_added, and (ghost) the position of the last kick decision and the windows of all decisions. */
  datatype Notes = Notes(numAdded: nat, kicked: nat, windows: seq<Window>)

  /** A decision has been made about what was added since the last one. */
  ghost function Asked(n: Notes): Notes {
    var upto := n.kicked + n.numAdded;
    Notes(0, upto, n.windows + [Window(n.kicked, upto)])
  }

  /** One more is added: a count that would overflow is taken care of by a kick. */
  ghost function Counted(n: Notes): Notes {
    var m := n.(numAdded := n.numAdded + 1);
    if m.numAdded == WORD - 1 then Asked(m) else m
  }

  ghost predicate NotesOk(n: Notes) {
    n.numAdded < WORD - 1 && Tiles(n.windows, n.kicked)
  }

  lemma AskedOk(n: Notes)
    requires Tiles(n.windows, n.kicked)
    ensures NotesOk(Asked(n)) && Asked(n).kicked + Asked(n).numAdded == n.kicked + n.numAdded
  {
    hide Tiles;
    TilesNext(n.windows, n.kicked, n.kicked + n.numAdded);
  }

  lemma CountedOk(n: Notes)
    requires NotesOk(n)
    ensures NotesOk(Counted(n)) && Counted(n).kicked + Counted(n).numAdded == n.kicked + n.numAdded + 1
  {
    hide Tiles;
    AskedOk(n.(numAdded := n.numAdded + 1));
  }

  lemma FirstNotes()
    ensures NotesOk(Notes(0, 0, []))
  {
  }

  /** A ring size divides the range of the indices. */
  predicate RingSize(num: nat) {
    0 < num && WORD % num == 0
  }

  /** The NEXT flags of every outstanding buffer end its chain where it ends. */
  ghost predicate Flagged(desc: seq<SplitDesc>, out: map<nat, seq<nat>>) {
    forall id, i :: id in out && 0 <= i < |out[id]| && out[id][i] < |desc| ==>
        (desc[out[id][i]].more <==> i < |out[id]| - 1)
  }

  /** The available ring still shows the last num heads, and no more buffers are outstanding than were made available.
      */
  ghost predicate Shows(avail: seq<nat>, posted: seq<nat>) {
    |avail| > 0 && forall p :: 0 <= p < |posted| && |posted| - |avail| <= p ==> avail[p % |avail|] == posted[p]
  }

  ghost predicate Indexed(c: Config, v: View) {
    && RingSize(c.num) && |v.avail| == c.num
    && v.availIdx == Word(|v.posted|) && v.lastUsed == Word(v.taken) && NotesOk(v.notes)
    && |v.l.pool.out| <= |v.posted|
    && (v.coherent ==> v.notes.kicked + v.notes.numAdded == |v.posted| && Shows(v.avail, v.posted))
  }

  /** The descriptor of an indirect table is recorded as such, with the length of the table. */
  ghost predicate TableRecord(descs: seq<TableDesc>, e: Extra) {
    e.flags.indirect && 0 < |descs| && e.len == DESC_SIZE * |descs|
  }

  ghost predicate Tabled(extra: seq<Extra>, state: seq<State>, out: map<nat, seq<nat>>) {
    forall id :: id in out && id < |state| && id < |extra| && state[id].aside.Table? ==>
        TableRecord(state[id].aside.descs, extra[id])
  }

  /** What the device is shown of the i-th node of a chain is what is recorded for it, and it is sent on to the next. */
  ghost predicate Mirror(desc: seq<SplitDesc>, extra: seq<Extra>, chain: seq<nat>, i: nat) {
    && i < |chain| && chain[i] < |desc| && chain[i] < |extra|
    && var d, e := desc[chain[i]], extra[chain[i]];
    && d.addr == e.addr && d.len == e.len && d.write == e.flags.write && d.indirect == e.flags.indirect
    && (i + 1 < |chain| ==> d.next == chain[i + 1])
  }

  ghost predicate Mirrored(desc: seq<SplitDesc>, extra: seq<Extra>, out: map<nat, seq<nat>>) {
    forall id, i :: id in out && 0 <= i < |out[id]| ==> Mirror(desc, extra, out[id], i)
  }

  ghost predicate ViewOk(c: Config, v: View) {
    && v.l.pool.num == c.num == |v.desc|
    && DriverOk(c.useDma, c.indirect, v.d, v.l) && Flagged(v.desc, v.l.pool.out) && Indexed(c, v)
    && Tabled(v.d.extra, v.d.state, v.l.pool.out) && Mirrored(v.desc, v.d.extra, v.l.pool.out)
  }

  // ----- detaching -----

  ghost predicate Outstanding(v: View, id: nat) {
    && id in v.l.pool.out && id in v.l.maps && id in v.l.tokens
    && id < |v.d.state| && v.d.state[id].last < |v.d.next|
  }

  ghost function Detached(c: Config, v: View, id: nat): View
    requires Outstanding(v, id)
  {
    v.(d := AfterDetach(v.d, id, c.indirect), l := Release(v.l, id))
  }

  /** A conforming device has used P buffers so far, of which the driver has taken all but fewer than 2^16 (a ring has
      at most 2^15 slots, section 2.7 of VIRTIO 1.2); it shows the low bits of P, and next the id of an outstanding
      one. */
  ghost predicate Conforming(v: View, P: nat, usedIdx: nat, id: nat) {
    && v.taken <= P < v.taken + WORD && usedIdx == Word(P)
    && (v.taken < P ==> id in v.l.pool.out)
  }

  /** Then comparing the two indices tells exactly whether there is one to take. */
  lemma IndexTells(c: Config, v: View, usedIdx: nat, id: nat)
    requires ViewOk(c, v)
    ensures forall P: nat :: Conforming(v, P, usedIdx, id) ==>
              (usedIdx != v.lastUsed <==> v.taken < P) && (v.taken < P ==> id in v.l.pool.out)
  {
    hide DriverOk, Mirrored, Flagged, Tabled;
    forall P: nat | Conforming(v, P, usedIdx, id) ensures usedIdx != v.lastUsed <==> v.taken < P {
      ResidueTells(WORD, v.taken, P);
    }
  }

  lemma OutSize(m: map<nat, seq<nat>>, id: nat)
    requires id in m
    ensures |Without(m, id)| == |m| - 1
  {
    assert Without(m, id).Keys == m.Keys - {id};
    assert |Without(m, id).Keys| == |Without(m, id)| && |m.Keys| == |m|;
  }

  lemma DetachedOk(c: Config, v: View, id: nat)
    requires ViewOk(c, v) && Outstanding(v, id)
    ensures ViewOk(c, Detached(c, v, id)) && 0 < |v.posted|
  {
    hide Partition, Threaded, BuffersOk, DriverOk, Shows, TableRecord, NotesOk, Mirror;
    DetachKeeps(c.useDma, c.indirect, v.d, v.l, id);
    OutSize(v.l.pool.out, id);
  }

  /** Which ids are heads of outstanding buffers can be read off the state table, whatever the device says. */
  lemma DataTells(c: Config, v: View, id: nat)
    requires ViewOk(c, v) && id < c.num
    ensures |v.d.state| == |v.d.next| == |v.d.extra| == c.num
    ensures v.d.state[id].data.Some? <==> id in v.l.pool.out
    ensures id in v.l.pool.out ==> Outstanding(v, id) && v.l.tokens[id] == multiset{v.d.state[id].data.value}
  {
    hide Partition, Linked, Mirrored, Flagged, Indexed;
    if id in v.l.pool.out {
      BufferFacts(c.useDma, c.indirect, v.d, v.l, id);
    }
  }

  /** Nothing outstanding: every node free, nothing mapped, every accepted token handed back. */
  ghost predicate Drained(v: View) {
    && v.l.pool.out == map[] && v.d.numFree == v.l.pool.num
    && v.l.live == multiset{} && v.l.given == v.l.returned
  }

  lemma NoneLeft(c: Config, v: View)
    requires ViewOk(c, v) && forall id: nat :: id < c.num ==> id < |v.d.state| && v.d.state[id].data.None?
    ensures Drained(v)
  {
    hide Partition, Threaded, BufferOk, Mirrored, Flagged, Indexed;
    forall id | id in v.l.pool.out ensures false {
      assert id < |v.d.state|;
      DataTells(c, v, id);
    }
    assert v.l.pool.out == map[];
    Settled(v.l);
  }

  // ----- making entries available -----

  /** The masked 16-bit index is the position modulo the ring size. */
  lemma SlotOf(p: nat, num: nat)
    requires RingSize(num)
    ensures Word(p) % num == p % num < num
  {
    var k, q, r := WORD / num, p / WORD, p % WORD;
    assert WORD == num * k by { assert WORD == num * (WORD / num) + WORD % num; }
    assert p == WORD * q + r;
    var a, b := r / num, r % num;
    assert r == num * a + b;
    assert p == num * (k * q + a) + b by {
      assert WORD * q == num * (k * q);
      assert num * (k * q + a) == num * (k * q) + num * a;
    }
    DivUnique(p, num, k * q + a, b);
  }

  lemma ShowsOneMore(avail: seq<nat>, posted: seq<nat>, head: nat)
    requires Shows(avail, posted)
    ensures |posted| % |avail| < |avail| && Shows(avail[|posted| % |avail| := head], posted + [head])
  {
    var n := |avail|;
    var after := avail[|posted| % n := head];
    forall p | 0 <= p < |posted| + 1 && |posted| + 1 - n <= p ensures after[p % n] == (posted + [head])[p] {
      ResidueTells(n, p, |posted|);
    }
  }

  /** The buffer with these n nodes of the free list is handed over. */
  ghost function Posted(c: Config, v: View, n: nat, data: nat, aside: Aside): View
    requires 0 < n <= |v.l.pool.free| && n <= v.d.numFree && Within(v.l.pool.free, |v.d.next|)
    requires |v.d.next| == |v.d.extra| == |v.d.state| && 0 < |v.avail|
  {
    var chain := v.l.pool.free[..n];
    v.(d := AfterAccept(v.d, chain, data, aside), l := Accept(v.l, n, data, ToUnmap(c.useDma, v.d.extra, chain, aside)),
       avail := v.avail[|v.posted| % |v.avail| := chain[0]], availIdx := Word(|v.posted| + 1),
       notes := Counted(v.notes), posted := v.posted + [chain[0]])
  }

  ghost predicate ChainEnds(v: View, n: nat) {
    0 < n <= |v.l.pool.free|
    && forall i :: 0 <= i < n && v.l.pool.free[i] < |v.desc| ==> (v.desc[v.l.pool.free[i]].more <==> i < n - 1)
  }

  ghost predicate ChainMirrored(v: View, n: nat) {
    n <= |v.l.pool.free| && forall i :: 0 <= i < n ==> Mirror(v.desc, v.d.extra, v.l.pool.free[..n], i)
  }

  lemma PostedMirrors(v: View, n: nat)
    requires 0 < n && Mirrored(v.desc, v.d.extra, v.l.pool.out) && ChainMirrored(v, n)
    ensures Mirrored(v.desc, v.d.extra, Take(v.l.pool, n).out)
  {
    hide Mirror;
    var out := Take(v.l.pool, n).out;
    forall id, i | id in out && 0 <= i < |out[id]| ensures Mirror(v.desc, v.d.extra, out[id], i) {
      assert out[id] == v.l.pool.free[..n] || (id in v.l.pool.out && out[id] == v.l.pool.out[id]);
    }
  }

  lemma PostedOk(c: Config, v: View, n: nat, data: nat, aside: Aside)
    requires ViewOk(c, v) && 0 < n <= v.d.numFree && ChainEnds(v, n) && ChainMirrored(v, n)
    requires if c.indirect then !aside.Context? else !aside.Table?
    requires v.d.freeHead < |v.d.extra| && (aside.Table? ==> TableRecord(aside.descs, v.d.extra[v.d.freeHead]))
    ensures Within(v.l.pool.free, |v.d.next|) && |v.d.next| == |v.d.extra| == |v.d.state| && 0 < |v.avail|
    ensures ViewOk(c, Posted(c, v, n, data, aside))
  {
    hide Partition, Threaded, BuffersOk, ToUnmap, DriverOk, Flagged, Indexed, ChainEnds, Mirrored, ChainMirrored;
    FreeFacts(c.useDma, c.indirect, v.d, v.l, n);
    AcceptKeeps(c.useDma, c.indirect, v.d, v.l, n, data, aside);
    PostedFlags(v, n);
    PostedMirrors(v, n);
    PostedIndices(c, v, n, data, aside);
  }

  lemma PostedFlags(v: View, n: nat)
    requires Flagged(v.desc, v.l.pool.out) && ChainEnds(v, n)
    ensures Flagged(v.desc, Take(v.l.pool, n).out)
  {
    var out := Take(v.l.pool, n).out;
    forall id, i | id in out && 0 <= i < |out[id]| && out[id][i] < |v.desc|
      ensures v.desc[out[id][i]].more <==> i < |out[id]| - 1
    {
      assert out[id] == v.l.pool.free[..n] || (id in v.l.pool.out && out[id] == v.l.pool.out[id]);
    }
  }

  lemma PostedIndices(c: Config, v: View, n: nat, data: nat, aside: Aside)
    requires Indexed(c, v) && 0 < n <= |v.l.pool.free| && n <= v.d.numFree && Within(v.l.pool.free, |v.d.next|)
    requires |v.d.next| == |v.d.extra| == |v.d.state| && v.l.pool.free[0] !in v.l.pool.out
    ensures 0 < |v.avail| && Indexed(c, Posted(c, v, n, data, aside))
  {
    hide ToUnmap, AfterAccept, Shows, NotesOk, Counted;
    CountedOk(v.notes);
    if v.coherent {
      ShowsOneMore(v.avail, v.posted, v.l.pool.free[0]);
    }
    OutGrows(v.l.pool.out, v.l.pool.free[0], v.l.pool.free[..n]);
  }

  lemma OutGrows(m: map<nat, seq<nat>>, id: nat, chain: seq<nat>)
    requires id !in m
    ensures |m[id := chain]| == |m| + 1
  {
    assert m[id := chain].Keys == m.Keys + {id};
    assert |m[id := chain].Keys| == |m[id := chain]| && |m.Keys| == |m|;
  }

  // ----- entering a request -----

  /** Entry k of a request in the node that free[k] is; the chain goes on. */
  ghost function EntryOf(c: Config, v: View, q: Request, k: nat): SplitDesc
    requires WellFormed(q) && k < |q.sgs| <= |v.l.pool.free| && Within(v.l.pool.free, |v.d.next|)
  {
    SplitDesc(AddressOf(c.useDma, q, k), q.sgs[k].len, true, k >= q.nOut, false, v.d.next[v.l.pool.free[k]])
  }

  ghost function RecordOf(c: Config, q: Request, k: nat): Extra
    requires WellFormed(q) && k < |q.sgs|
  {
    Extra(AddressOf(c.useDma, q, k), q.sgs[k].len, Flags(true, k >= q.nOut, false, false, false))
  }

  ghost function EntriesOf(c: Config, v: View, q: Request, n: nat): (r: seq<SplitDesc>)
    requires WellFormed(q) && n <= |q.sgs| <= |v.l.pool.free| && Within(v.l.pool.free, |v.d.next|)
    ensures |r| == n
  {
    seq(n, k requires 0 <= k < n => EntryOf(c, v, q, k))
  }

  ghost function RecordsOf(c: Config, q: Request, n: nat): (r: seq<Extra>)
    requires WellFormed(q) && n <= |q.sgs|
    ensures |r| == n
  {
    seq(n, k requires 0 <= k < n => RecordOf(c, q, k))
  }

  ghost predicate Room(c: Config, v: View, n: nat) {
    && 0 < n <= |v.l.pool.free| <= c.num && n <= v.d.numFree && Within(v.l.pool.free, c.num) && NoDup(v.l.pool.free)
    && |v.d.next| == |v.d.extra| == |v.d.state| == |v.desc| == c.num
    && v.d.freeHead == v.l.pool.free[0] < c.num && Linked(v.d.next, v.l.pool.free) && v.d.freeHead !in v.l.pool.out
  }

  lemma RoomFor(c: Config, v: View, n: nat)
    requires ViewOk(c, v) && 0 < n <= v.d.numFree
    ensures Room(c, v, n)
  {
    hide Partition, BuffersOk, Mirrored, Flagged, Indexed;
    FreeFacts(c.useDma, c.indirect, v.d, v.l, n);
  }

  /** The queue with j entries stored in free nodes. */
  ghost function MidAdd(c: Config, v: View, q: Request, j: nat): View
    requires Room(c, v, |q.sgs|) && WellFormed(q) && j <= |q.sgs|
  {
    v.(d := v.d.(extra := Recorded(v.d.extra, v.l.pool.free, RecordsOf(c, q, j))),
       desc := Recorded(v.desc, v.l.pool.free, EntriesOf(c, v, q, j)))
  }

  /** ... and with all of them stored and the chain ended. */
  ghost function Entered(c: Config, v: View, q: Request): View
    requires Room(c, v, |q.sgs|) && WellFormed(q)
  {
    var n := |q.sgs|;
    var m := MidAdd(c, v, q, n);
    var last := v.l.pool.free[n - 1];
    m.(desc := m.desc[last := EntryOf(c, v, q, n - 1).(more := false)],
       d := m.d.(extra := if c.useDma then m.d.extra[last := RecordOf(c, q, n - 1)
                                                              .(flags := RecordOf(c, q, n - 1).flags.(next := false))]
                          else m.d.extra))
  }

  /** Writing to free nodes disturbs no outstanding buffer. */
  lemma FreeWrites(c: Config, v: View, desc: seq<SplitDesc>, extra: seq<Extra>)
    requires ViewOk(c, v) && |desc| == |v.desc| && |extra| == |v.d.extra|
    requires forall x: nat :: x < |extra| && x !in v.l.pool.free ==> extra[x] == v.d.extra[x]
    requires forall x: nat :: x < |desc| && x !in v.l.pool.free ==> desc[x] == v.desc[x]
    ensures ViewOk(c, v.(desc := desc, d := v.d.(extra := extra)))
  {
    hide Threaded, BuffersOk, Shows, DriverOk, Mirrored, Flagged, Tabled, NotesOk;
    FreeTables(c, v, extra);
    FreeMirrors(c, v, desc, extra);
    FreeRecords(c.useDma, c.indirect, v.d, v.l, extra);
    FreeFlags(c, v, desc);
  }

  lemma FreeTables(c: Config, v: View, extra: seq<Extra>)
    requires ViewOk(c, v) && |extra| == |v.d.extra|
    requires forall x: nat :: x < |extra| && x !in v.l.pool.free ==> extra[x] == v.d.extra[x]
    ensures Tabled(extra, v.d.state, v.l.pool.out)
  {
    hide Threaded, BuffersOk, Indexed, Mirrored, Flagged, TableRecord;
    forall id | id in v.l.pool.out ensures id !in v.l.pool.free {
      BesideFree(v.l.pool, id);
      assert v.l.pool.out[id][0] == id;
    }
  }

  lemma FreeMirrors(c: Config, v: View, desc: seq<SplitDesc>, extra: seq<Extra>)
    requires ViewOk(c, v) && |desc| == |v.desc| && |extra| == |v.d.extra|
    requires forall x: nat :: x < |extra| && x !in v.l.pool.free ==> extra[x] == v.d.extra[x]
    requires forall x: nat :: x < |desc| && x !in v.l.pool.free ==> desc[x] == v.desc[x]
    ensures Mirrored(desc, extra, v.l.pool.out)
  {
    hide Threaded, BuffersOk, Indexed, Flagged, Tabled, Mirror;
    forall id, i | id in v.l.pool.out && 0 <= i < |v.l.pool.out[id]| ensures Mirror(desc, extra, v.l.pool.out[id], i) {
      BesideFree(v.l.pool, id);
      assert v.l.pool.out[id][i] in v.l.pool.out[id];
      MirrorSame(v.desc, v.d.extra, v.l.pool.out[id], i, desc, extra);
    }
  }

  lemma MirrorSame(desc: seq<SplitDesc>, extra: seq<Extra>, chain: seq<nat>, i: nat,
                   desc': seq<SplitDesc>, extra': seq<Extra>)
    requires Mirror(desc, extra, chain, i) && |desc'| == |desc| && |extra'| == |extra|
    requires i < |chain| && (chain[i] < |desc| ==> desc'[chain[i]] == desc[chain[i]])
    requires chain[i] < |extra| ==> extra'[chain[i]] == extra[chain[i]]
    ensures Mirror(desc', extra', chain, i)
  {
  }

  lemma FreeFlags(c: Config, v: View, desc: seq<SplitDesc>)
    requires ViewOk(c, v) && |desc| == |v.desc|
    requires forall x: nat :: x < |desc| && x !in v.l.pool.free ==> desc[x] == v.desc[x]
    ensures Flagged(desc, v.l.pool.out)
  {
    hide Threaded, BuffersOk, Indexed, Mirrored;
    forall id, i | id in v.l.pool.out && 0 <= i < |v.l.pool.out[id]| && v.l.pool.out[id][i] < |desc|
      ensures desc[v.l.pool.out[id][i]].more <==> i < |v.l.pool.out[id]| - 1
    {
      BesideFree(v.l.pool, id);
      assert v.l.pool.out[id][i] in v.l.pool.out[id];
    }
  }

  /** Stored entries: what each node shows, and that nothing else has changed. */
  lemma MidAddAt(c: Config, v: View, q: Request, j: nat)
    requires Room(c, v, |q.sgs|) && WellFormed(q) && j <= |q.sgs|
    ensures var m := MidAdd(c, v, q, j); var free := v.l.pool.free;
            && (forall k :: 0 <= k < j ==> m.desc[free[k]] == EntryOf(c, v, q, k) &&
                                           m.d.extra[free[k]] == RecordOf(c, q, k))
            && (forall x: nat :: x < c.num && x !in free ==> m.desc[x] == v.desc[x] && m.d.extra[x] == v.d.extra[x])
  {
    hide Recorded, EntryOf, RecordOf;
    RecordedAt(v.d.extra, v.l.pool.free, RecordsOf(c, q, j));
    RecordedAt(v.desc, v.l.pool.free, EntriesOf(c, v, q, j));
  }

  lemma MidAddOk(c: Config, v: View, q: Request, j: nat)
    requires ViewOk(c, v) && Room(c, v, |q.sgs|) && WellFormed(q) && j <= |q.sgs|
    ensures ViewOk(c, MidAdd(c, v, q, j)) && Carries(c, MidAdd(c, v, q, j), q, j)
  {
    hide ViewOk, MidAdd, EntryOf;
    MidAddAt(c, v, q, j);
    var m := MidAdd(c, v, q, j);
    MidAddShape(c, v, q, j);
    FreeWrites(c, v, m.desc, m.d.extra);
  }

  /** The records of the first j free nodes carry the mappings made for the first j entries. */
  ghost predicate Carries(c: Config, v: View, q: Request, j: nat) {
    && WellFormed(q) && j <= |q.sgs| && j <= |v.l.pool.free| && Within(v.l.pool.free[..j], |v.d.extra|)
    && (c.useDma ==> ChainMappings(v.d.extra, v.l.pool.free[..j]) == Mappings(c.useDma, q, j))
  }

  /** The first nodes of the free list show the request, and the chain ends with it. */
  ghost predicate Displays(c: Config, v: View, q: Request, e: View) {
    && Room(c, v, |q.sgs|) && WellFormed(q) && |e.desc| == c.num
    && forall k :: 0 <= k < |q.sgs| ==> e.desc[v.l.pool.free[k]] == EntryOf(c, v, q, k).(more := k < |q.sgs| - 1)
  }

  lemma MidAddShape(c: Config, v: View, q: Request, j: nat)
    requires Room(c, v, |q.sgs|) && WellFormed(q) && j <= |q.sgs|
    ensures var m := MidAdd(c, v, q, j);
            m == v.(desc := m.desc, d := v.d.(extra := m.d.extra)) && |m.desc| == |v.desc| && |m.d.extra| == |v.d.extra|
  {
  }

  /** The whole request, entered: the chain ends where it should, shows the request, and its records carry exactly the
      mappings made for it. */
  lemma EnteredOk(c: Config, v: View, q: Request)
    requires ViewOk(c, v) && Room(c, v, |q.sgs|) && WellFormed(q)
    ensures var e := Entered(c, v, q);
            && ViewOk(c, e) && ChainEnds(e, |q.sgs|) && ChainMirrored(e, |q.sgs|)
            && e == v.(desc := e.desc, d := v.d.(extra := e.d.extra))
            && |e.d.extra| == c.num && Displays(c, v, q, e) && Carries(c, e, q, |q.sgs|)
  {
    hide ViewOk, MidAdd;
    var n := |q.sgs|;
    MidAddAt(c, v, q, n);
    MidAddShape(c, v, q, n);
    var e := Entered(c, v, q);
    assert v.l.pool.free[n - 1] in v.l.pool.free;
    FreeWrites(c, v, e.desc, e.d.extra);
    EnteredMirrors(c, v, q);
  }

  lemma EnteredMirrors(c: Config, v: View, q: Request)
    requires Room(c, v, |q.sgs|) && WellFormed(q)
    ensures |Entered(c, v, q).desc| == |v.desc| && |Entered(c, v, q).d.extra| == |v.d.extra|
    ensures ChainMirrored(Entered(c, v, q), |q.sgs|)
  {
    hide MidAdd;
    var n, free := |q.sgs|, v.l.pool.free;
    MidAddAt(c, v, q, n);
    MidAddShape(c, v, q, n);
    var e, m := Entered(c, v, q), MidAdd(c, v, q, n);
    forall i | 0 <= i < n ensures Mirror(e.desc, e.d.extra, free[..n], i) {
      assert free[i] == free[n - 1] <==> i == n - 1;
      assert i + 1 < n ==> v.d.next[free[i]] == free[i + 1];
    }
  }

  /** A direct add of q succeeded: the buffer is handed over, showing the request to the device, and exactly its
      mappings are live beside those there were. */
  ghost predicate AddedFor(c: Config, v: View, q: Request, data: nat, aside: Aside, v': View) {
    && WellFormed(q) && Room(c, v, |q.sgs|) && Room(c, Entered(c, v, q), |q.sgs|) && 0 < |v.avail|
    && v' == Posted(c, Entered(c, v, q), |q.sgs|, data, aside)
    && v'.l.live == v.l.live + multiset(Mappings(c.useDma, q, |q.sgs|)) && Displays(c, v, q, v')
  }

  lemma AddedOk(c: Config, v: View, q: Request, data: nat, aside: Aside)
    requires ViewOk(c, v) && Room(c, v, |q.sgs|) && WellFormed(q) && !aside.Table? && (c.indirect ==> aside.Nothing?)
    ensures Room(c, Entered(c, v, q), |q.sgs|) && 0 < |v.avail|
    ensures var v' := Posted(c, Entered(c, v, q), |q.sgs|, data, aside);
            ViewOk(c, v') && AddedFor(c, v, q, data, aside, v')
            && v'.l == Accept(v.l, |q.sgs|, data, multiset(Mappings(c.useDma, q, |q.sgs|)))
  {
    hide ViewOk, Entered, Mappings, ChainEnds, ChainMirrored, EntryOf, AfterAccept;
    var e := Entered(c, v, q);
    EnteredOk(c, v, q);
    RoomOf(c, e, |q.sgs|);
    PostedOk(c, e, |q.sgs|, data, aside);
    assert ToUnmap(c.useDma, e.d.extra, v.l.pool.free[..|q.sgs|], aside) ==
        multiset(Mappings(c.useDma, q, |q.sgs|)) by {
      UnmappedPrefix(c.useDma, q, |q.sgs|);
    }
  }

  lemma RoomOf(c: Config, v: View, n: nat)
    requires ViewOk(c, v) && 0 < n <= v.d.numFree
    ensures Room(c, v, n)
  {
    RoomFor(c, v, n);
  }

  // ----- through an indirect table -----

  ghost function TableEntered(c: Config, v: View, q: Request, addr: nat): View
    requires Room(c, v, 1)
  {
    var head, len := v.d.freeHead, DESC_SIZE * |q.sgs|;
    v.(desc := v.desc[head := SplitDesc(addr, len, false, false, true, v.d.next[head])],
       d := v.d.(extra := v.d.extra[head := Extra(addr, len, Flags(false, false, true, false, false))]))
  }

  /** An indirect add of q succeeded with the table mapped at addr. */
  ghost predicate IndirectFor(c: Config, v: View, q: Request, addr: nat, data: nat, v': View) {
    && WellFormed(q) && c.indirect && Room(c, v, 1) && Room(c, TableEntered(c, v, q, addr), 1) && 0 < |v.avail|
    && v' == Posted(c, TableEntered(c, v, q, addr), 1, data, Table(TableOf(c.useDma, q, |q.sgs|)))
    && v'.l.live == v.l.live + IndirectMappings(c.useDma, q)
  }

  lemma TableOk(c: Config, v: View, q: Request, addr: nat, data: nat)
    requires TableAddress(c.useDma, q) == Some(addr) && ViewOk(c, v) && WellFormed(q) && c.indirect && Room(c, v, 1)
    ensures var e := TableEntered(c, v, q, addr);
            && Room(c, e, 1) && 0 < |v.avail| && ViewOk(c, Posted(c, e, 1, data, Table(TableOf(c.useDma, q, |q.sgs|))))
            && IndirectFor(c, v, q, addr, data, Posted(c, e, 1, data, Table(TableOf(c.useDma, q, |q.sgs|))))
            && Posted(c, e, 1, data, Table(TableOf(c.useDma, q, |q.sgs|))).l ==
                  Accept(v.l, 1, data, IndirectMappings(c.useDma, q))
  {
    hide ViewOk, Mappings, TableMappings, AfterAccept, ToUnmap, IndirectMappings, TableOf, Linked, NoDup, Within;
    var e := TableEntered(c, v, q, addr);
    assert v.d.freeHead in v.l.pool.free;
    FreeWrites(c, v, e.desc, e.d.extra);
    assert v.l.pool.free[..1] == [v.d.freeHead];
    RoomFor(c, e, 1);
    TableUnmaps(c, v, q, addr);
    PostedOk(c, e, 1, data, Table(TableOf(c.useDma, q, |q.sgs|)));
  }

  /** What detaching the buffer will undo is what was mapped for it: every entry of the table, and the table. */
  lemma TableUnmaps(c: Config, v: View, q: Request, addr: nat)
    requires TableAddress(c.useDma, q) == Some(addr) && WellFormed(q) && Room(c, v, 1)
    ensures var e := TableEntered(c, v, q, addr); var t := TableOf(c.useDma, q, |q.sgs|);
            |t| == |q.sgs| && Within(v.l.pool.free[..1], |e.d.extra|)
            && ToUnmap(c.useDma, e.d.extra, v.l.pool.free[..1], Table(t)) == IndirectMappings(c.useDma, q)
  {
    hide Mappings, TableMappings;
    var e := TableEntered(c, v, q, addr);
    TableMapsRequest(c.useDma, q, |q.sgs|);
    assert v.l.pool.free[..1] == [v.d.freeHead];
    assert ChainMappings(e.d.extra, v.l.pool.free[..1]) == [ExtraMapping(e.d.extra[v.d.freeHead])];
  }

  // ----- what the device reads -----

  /** The descriptors that the device reads from node i on, following NEXT. */
  ghost function ReadEntries(desc: seq<SplitDesc>, i: nat, left: nat): seq<SplitDesc>
    decreases left
  {
    if left == 0 || |desc| <= i then [] else
      [desc[i]] + if desc[i].more then ReadEntries(desc, desc[i].next, left - 1) else []
  }

  lemma {:induction false} ReadsOn(desc: seq<SplitDesc>, chain: seq<nat>, k: nat, left: nat, es: seq<SplitDesc>)
    requires k < |chain| == |es| && |chain| - k <= left && Within(chain, |desc|)
    requires forall j :: 0 <= j < |chain| ==> desc[chain[j]] == es[j] && (es[j].more <==> j < |chain| - 1)
    requires forall i, j :: 0 <= i < |chain| - 1 && j == i + 1 ==> es[i].next == chain[j]
    ensures ReadEntries(desc, chain[k], left) == es[k..]
    decreases |chain| - k
  {
    if k < |chain| - 1 {
      ReadsOn(desc, chain, k + 1, left - 1, es);
      assert es[k..] == [es[k]] + es[k + 1..];
    }
  }

  ghost function Pieces(es: seq<SplitDesc>): seq<Piece> {
    seq(|es|, k requires 0 <= k < |es| => Piece(es[k].addr, es[k].len, es[k].write))
  }

  /** The mappings that let the device at these descriptors, each in the direction that it is shown. */
  ghost function BehindEntries(useDma: bool, es: seq<SplitDesc>): multiset<Mapping> {
    if !useDma then multiset{} else
      multiset(seq(|es|, k requires 0 <= k < |es| => Mapping(es[k].addr, es[k].len, es[k].write, es[k].indirect)))
  }

  /** Of an outstanding buffer the device reads just what has been mapped for it, and as it has been mapped. */
  ghost predicate ReadsAsMapped(c: Config, v: View, id: nat) {
    && id in v.l.maps && id < |v.d.state|
    && var es, aside := ReadEntries(v.desc, id, c.num), v.d.state[id].aside;
    && es != [] && (aside.Table? ==> es[0].indirect && es[0].len == DESC_SIZE * |aside.descs|)
    && v.l.maps[id] == BehindEntries(c.useDma, es) +
                       if aside.Table? then Behind(c.useDma, ReadTable(aside.descs)) else multiset{}
  }

  ghost function Entries(desc: seq<SplitDesc>, chain: seq<nat>): seq<SplitDesc>
    requires Within(chain, |desc|)
  {
    seq(|chain|, i requires 0 <= i < |chain| => desc[chain[i]])
  }

  lemma MirroredChain(desc: seq<SplitDesc>, extra: seq<Extra>, chain: seq<nat>, left: nat)
    requires chain != [] && |chain| <= left && Within(chain, |desc|) && Within(chain, |extra|)
    requires forall i :: 0 <= i < |chain| ==> Mirror(desc, extra, chain, i)
    requires forall i :: 0 <= i < |chain| ==> (desc[chain[i]].more <==> i < |chain| - 1)
    ensures ReadEntries(desc, chain[0], left) == Entries(desc, chain)
    ensures multiset(ChainMappings(extra, chain)) == BehindEntries(true, Entries(desc, chain))
  {
    var es := Entries(desc, chain);
    forall i, j | 0 <= i < |chain| - 1 && j == i + 1 ensures es[i].next == chain[j] {
      assert Mirror(desc, extra, chain, i);
    }
    ReadsOn(desc, chain, 0, left, es);
    assert es[0..] == es;
    forall i | 0 <= i < |chain|
      ensures ExtraMapping(extra[chain[i]]) == Mapping(es[i].addr, es[i].len, es[i].write, es[i].indirect)
    {
      assert Mirror(desc, extra, chain, i);
    }
    assert ChainMappings(extra, chain) ==
           seq(|es|, k requires 0 <= k < |es| => Mapping(es[k].addr, es[k].len, es[k].write, es[k].indirect));
  }

  lemma TableBehind(t: seq<TableDesc>)
    ensures multiset(TableMappings(t)) == Behind(true, ReadTable(t))
  {
    var ps := ReadTable(t);
    assert TableMappings(t) ==
           seq(|ps|, k requires 0 <= k < |ps| => Mapping(ps[k].addr, ps[k].len, ps[k].write, false));
  }

  lemma ShownAsMapped(c: Config, v: View, id: nat)
    requires ViewOk(c, v) && id in v.l.pool.out
    ensures ReadsAsMapped(c, v, id)
  {
    hide Partition, Threaded, BuffersOk, Balanced, Indexed, ReadEntries,
        ChainMappings, TableMappings, ReadTable, Linked;
    BufferFacts(c.useDma, c.indirect, v.d, v.l, id);
    var chain, aside := v.l.pool.out[id], v.d.state[id].aside;
    MirroredChain(v.desc, v.d.extra, chain, c.num);
    assert Mirror(v.desc, v.d.extra, chain, 0);
    if aside.Table? {
      TableBehind(aside.descs);
    }
  }

  // ----- what the operations may do -----

  ghost predicate GoesIndirect(c: Config, v: View, q: Request)
    requires WellFormed(q)
  {
    c.indirect && |q.sgs| > 1 && v.d.numFree > 0 && q.gotTable
  }

  /** The outcome of an add on a queue that is not broken. */
  ghost predicate AddOutcome(c: Config, v: View, q: Request, data: nat, aside: Aside, st: Status, v': View)
    requires WellFormed(q)
  {
    if GoesIndirect(c, v, q) then
      if AllMapped(c.useDma, ForTable(q), |q.sgs|) && TableAddress(c.useDma, q).Some?
      then st == Ok && IndirectFor(c, v, ForTable(q), TableAddress(c.useDma, q).value, data, v')
      else st == NoMemory && v' == v
    else if v.d.numFree < |q.sgs| then st == NoSpace && v' == v
    else if AllMapped(c.useDma, q, |q.sgs|) then st == Ok && AddedFor(c, v, q, data, aside, v')
    else st == NoMemory && GivenUpFor(c, v, q, v')
  }

  // ----- what the device and the caller make of an add -----

  /** The next slot of the available ring holds the head of descriptors that serve the request, directly or through a
      table; behind them is what has been mapped; the token is kept under the head. */
  ghost predicate Delivered(c: Config, v: View, q: Request, data: nat, aside: Aside, v': View) {
    && v.d.freeHead < |v'.d.state| && 0 < |v'.avail| == c.num
    && v'.avail[v.availIdx % c.num] == v.d.freeHead && v'.availIdx == Word(v.availIdx + 1)
    && var es, s := ReadEntries(v'.desc, v.d.freeHead, c.num), v'.d.state[v.d.freeHead];
    && es != [] && (forall k :: 0 <= k < |es| ==> es[k].indirect ==> |es| == 1)
    && s.data == Some(data) && v'.l.given == v.l.given + multiset{data} && v'.l.returned == v.l.returned
    && if es[0].indirect then
         && !es[0].write && s.aside.Table?
         && ServesTable(c.useDma, q, es[0].addr, es[0].len, s.aside.descs)
         && v'.l.live == v.l.live + BehindTable(c.useDma, es[0].addr, es[0].len, s.aside.descs)
       else
         && Serves(c.useDma, q, q.answers, Pieces(es)) && s.aside == aside
         && v'.l.live == v.l.live + Behind(c.useDma, Pieces(es))
  }

  ghost predicate TakesTable(c: Config, v: View, q: Request) {
    c.indirect && 1 < |q.sgs| && 0 < v.d.numFree && q.gotTable
  }

  /** The chain that the free nodes show serves the request. */
  lemma DisplayServes(c: Config, v: View, q: Request, e: View)
    requires Displays(c, v, q, e) && AllMapped(c.useDma, q, |q.sgs|)
    ensures var es := ReadEntries(e.desc, v.d.freeHead, c.num);
            && |es| == |q.sgs| && (forall k :: 0 <= k < |es| ==> !es[k].indirect)
            && Serves(c.useDma, q, q.answers, Pieces(es))
  {
    var n, chain := |q.sgs|, v.l.pool.free[..|q.sgs|];
    var es := Entries(e.desc, chain);
    forall i, j | 0 <= i < n - 1 && j == i + 1 ensures es[i].next == chain[j] {
      assert v.d.next[v.l.pool.free[i]] == v.l.pool.free[j];
    }
    ReadsOn(e.desc, chain, 0, c.num, es);
    assert es[0..] == es;
    forall k | 0 <= k < n
      ensures if c.useDma then q.answers[k] == Some(es[k].addr) else es[k].addr == q.sgs[k].phys
    {
      assert Mapped(c.useDma, q, k).Some?;
    }
  }

  lemma DirectDelivered(c: Config, v: View, q: Request, data: nat, aside: Aside, v': View)
    requires ViewOk(c, v) && AddedFor(c, v, q, data, aside, v') && AllMapped(c.useDma, q, |q.sgs|)
    ensures Delivered(c, v, q, data, aside, v') && !ReadEntries(v'.desc, v.d.freeHead, c.num)[0].indirect
  {
    hide DriverOk, Mirrored, Flagged, Tabled, Shows, NotesOk, Displays, Mappings, ReadEntries, Serves, Pieces, Behind,
        Recorded, RingSize, Linked, Within, NoDup;
    IndicesOf(c, v);
    SlotOf(|v.posted|, c.num);
    NextWord(|v.posted|);
    DisplayServes(c, v, q, v');
    MappingsBehind(c.useDma, q, Pieces(ReadEntries(v'.desc, v.d.freeHead, c.num)));
  }

  lemma TableDelivered(c: Config, v: View, q: Request, addr: nat, data: nat, aside: Aside, v': View)
    requires ViewOk(c, v) && WellFormed(q) && IndirectFor(c, v, ForTable(q), addr, data, v')
    requires AllMapped(c.useDma, ForTable(q), |q.sgs|) && TableAddress(c.useDma, q) == Some(addr)
    ensures Delivered(c, v, q, data, aside, v') && ReadEntries(v'.desc, v.d.freeHead, c.num)[0].indirect
  {
    hide DriverOk, Mirrored, Flagged, Tabled, Shows, NotesOk, TableOf, IndirectMappings, ServesTable, BehindTable,
         RingSize, Linked, NoDup;
    IndicesOf(c, v);
    SlotOf(|v.posted|, c.num);
    NextWord(|v.posted|);
    ThroughTable(c.useDma, q, addr);
  }

  /** When an add succeeds or not, and what it leaves, in terms of the request, the answers and the room alone. */
  lemma AddMeans(c: Config, v: View, q: Request, data: nat, aside: Aside, st: Status, v': View)
    requires ViewOk(c, v) && WellFormed(q) && AddOutcome(c, v, q, data, aside, st, v')
    ensures TakesTable(c, v, q) ==> st == if TableGranted(c.useDma, q) then Ok else NoMemory
    ensures !TakesTable(c, v, q) ==> st == if v.d.numFree < |q.sgs| then NoSpace
                                           else if Granted(c.useDma, q.answers) then Ok else NoMemory
    ensures st != Ok ==> v'.l == v.l && v'.d.freeHead == v.d.freeHead && v'.d.numFree == v.d.numFree
                         && v'.avail == v.avail && v'.availIdx == v.availIdx
    ensures st == Ok ==> Delivered(c, v, q, data, aside, v')
    ensures st == Ok ==> (ReadEntries(v'.desc, v.d.freeHead, c.num)[0].indirect <==> TakesTable(c, v, q))
  {
    hide ViewOk, AddedFor, IndirectFor, Delivered, ReadEntries, AllMapped, Granted, MappedBefore, Room;
    MappedIfGranted(c.useDma, q);
    MappedIfGranted(c.useDma, ForTable(q));
    if st == Ok {
      if TakesTable(c, v, q) {
        TableDelivered(c, v, q, TableAddress(c.useDma, q).value, data, aside, v');
      } else {
        DirectDelivered(c, v, q, data, aside, v');
      }
    }
  }

  /** A used entry has been taken: the buffer's token and context go back to the caller, its nodes and mappings to where
      they came from. */
  ghost predicate Taken(c: Config, v: View, id: nat, token: nat, context: Aside, v': View) {
    && Outstanding(v, id) && context == (if c.indirect then Nothing else v.d.state[id].aside)
    && v.d.state[id].data == Some(token) && v.l.tokens[id] == multiset{token}
    && v' == Detached(c, v, id).(lastUsed := Word(v.lastUsed + 1), taken := v.taken + 1)
  }

  ghost predicate Dropped(c: Config, v: View, id: nat, token: nat, v': View) {
    && Outstanding(v, id) && v.d.state[id].data == Some(token) && v.l.tokens[id] == multiset{token} && 0 < |v.posted|
    && v' == Detached(c, v, id).(posted := v.posted[..|v.posted| - 1], availIdx := Word(|v.posted| - 1),
          coherent := false)
  }

  lemma TakenHands(c: Config, v: View, id: nat, token: nat, context: Aside, v': View)
    requires ViewOk(c, v) && Taken(c, v, id, token, context, v')
    ensures HandedBack(v.l, v'.l, id, token) && ReturnsContext(v.d, id, context)
  {
    hide ViewOk, HandedBack;
    ReleaseHands(v.l, id, token);
    ChainOf(c, v, id);
  }

  lemma DroppedHands(c: Config, v: View, id: nat, token: nat, v': View)
    requires Dropped(c, v, id, token, v')
    ensures HandedBack(v.l, v'.l, id, token)
  {
    hide HandedBack;
    ReleaseHands(v.l, id, token);
  }

  lemma TakenOk(c: Config, v: View, id: nat)
    requires ViewOk(c, v) && Outstanding(v, id)
    ensures ViewOk(c, Detached(c, v, id).(lastUsed := Word(v.lastUsed + 1), taken := v.taken + 1))
  {
    hide DriverOk, Mirrored, Flagged, Shows, Detached;
    DetachedOk(c, v, id);
    DetachedRest(c, v, id);
    NextWord(v.taken);
  }

  lemma DetachedRest(c: Config, v: View, id: nat)
    requires Outstanding(v, id)
    ensures var w := Detached(c, v, id);
            w == v.(d := w.d, l := w.l) && |w.l.pool.out| == |v.l.pool.out| - 1
  {
    OutSize(v.l.pool.out, id);
  }

  lemma NextWord(x: nat)
    ensures Word(Word(x) + 1) == Word(x + 1)
  {
  }

  lemma DroppedOk(c: Config, v: View, id: nat)
    requires ViewOk(c, v) && Outstanding(v, id)
    ensures 0 < |v.posted|
    ensures ViewOk(c, Detached(c, v, id).(posted := v.posted[..|v.posted| - 1], availIdx := Word(|v.posted| - 1),
          coherent := false))
  {
    hide DriverOk, Mirrored, Flagged, Shows, Detached, Word;
    DetachedOk(c, v, id);
    DetachedRest(c, v, id);
  }

  // ----- notification -----

  /** With event indices the driver kicks exactly when the device's event lies among what was made available since the
      last kick. */
  lemma KickExact(c: Config, v: View, event: nat)
    requires ViewOk(c, v) && v.coherent && event < WORD
    ensures NeedEvent(event, v.availIdx, Word(v.availIdx - v.notes.numAdded)) <==> InWindow(event, v.notes.kicked,
          |v.posted|)
  {
    hide DriverOk, Mirrored, Flagged, Tabled, Shows, NeedEvent, InWindow, Word, Tiles;
    WordSub(v.notes.kicked, 0);
    WordBack(|v.posted|, v.notes.numAdded);
    SplitKickExact(event, v.notes.kicked, |v.posted|);
  }

  lemma WordBack(x: nat, y: nat)
    ensures Word(Word(x) - y) == Word(x - y)
  {
    WordSub(x, y);
  }

  /** The queue as set up again in place. */
  ghost function Reinitialised(c: Config, v: View, avail: seq<nat>): View {
    v.(d := v.d.(numFree := c.num), avail := avail, availIdx := 0, notes := Notes(0, 0, []), lastUsed := 0,
       posted := [], taken := 0, coherent := true)
  }

  lemma ReinitialisedOk(c: Config, v: View, avail: seq<nat>)
    requires ViewOk(c, v) && Drained(v) && |avail| == c.num
    ensures ViewOk(c, Reinitialised(c, v, avail)) && |v.l.pool.free| == c.num
  {
    hide Partition, Threaded, BuffersOk;
    FirstNotes();
  }

  lemma NewView(c: Config, v: View)
    requires RingSize(c.num) && c.num == v.d.numFree == |v.d.next| == |v.d.extra| == |v.d.state| && v.d.freeHead == 0
    requires forall i :: 0 <= i < c.num - 1 ==> v.d.next[i] == i + 1
    requires forall i :: 0 <= i < c.num ==> v.d.state[i].data.None?
    requires |v.desc| == |v.avail| == c.num && v.availIdx == v.lastUsed == v.taken == 0 && v.posted == []
    requires v.l == Opening(c.num) && v.notes == Notes(0, 0, []) && v.coherent
    ensures ViewOk(c, v)
  {
    hide DriverOk, NotesOk;
    FirstNotes();
    OpeningOk(c.useDma, c.indirect, c.num, v.d);
  }

  class Queue {
    const num: nat
    const useDma: bool
    const indirect: bool
    const event: bool
    var broken: bool
    var freeHead: nat
    var numFree: nat
    var numAdded: nat
    var lastUsedIdx: nat
    var availIdxShadow: nat
    const desc: array<SplitDesc>  // shared with the device
    const avail: array<nat>       // avail->ring, shared with the device
    const next: array<nat>        // desc_extra[].next
    const extra: array<Extra>     // desc_extra[].addr, len, flags
    const state: array<State>     // of which the source keeps `data` and `aside`

    const iommu: Iommu

    ghost var ledger: Ledger
    ghost var posted: seq<nat>
    ghost var taken: nat
    ghost var coherent: bool
    ghost var kicked: nat
    ghost var windows: seq<Window>

    ghost function Now(): View
      reads this, desc, avail, next, extra, state
    {
      View(Driver(freeHead, numFree, next[..], extra[..], state[..]), desc[..], avail[..], availIdxShadow,
           Notes(numAdded, kicked, windows), lastUsedIdx, ledger, posted, taken, coherent)
    }

    ghost function Cfg(): Config {
      Config(num, useDma, indirect)
    }

    ghost predicate Sized() {
      desc.Length == avail.Length == next.Length == extra.Length == state.Length == num && avail != next
    }

    /** What is mapped is what the ledger says. */
    ghost predicate Valid()
      reads this, desc, avail, next, extra, state, iommu
    {
      Sized() && ViewOk(Cfg(), Now()) && iommu.live == ledger.live
    }

    constructor (num: nat, useDma: bool, indirect: bool, event: bool)
      requires RingSize(num)
      ensures Valid() && this.num == num && this.useDma == useDma && this.indirect == indirect && this.event == event
      ensures fresh(desc) && fresh(avail) && fresh(next) && fresh(extra) && fresh(state) && fresh(iommu)
      ensures ledger == Opening(num) && posted == [] && taken == 0 && coherent && !broken
    {
      this.num, this.useDma, this.indirect, this.event := num, useDma, indirect, event;
      broken, freeHead, numFree, numAdded, lastUsedIdx, availIdxShadow := false, 0, num, 0, 0, 0;
      desc := new SplitDesc[num](_ => SplitDesc(0, 0, false, false, false, 0));
      avail := new nat[num](_ => 0);
      next := new nat[num](i => if 0 <= i < num - 1 then i + 1 else 0);
      extra := new Extra[num](_ => Extra(0, 0, Flags(false, false, false, false, false)));
      state := new State[num](_ => State(None, Nothing, 0, 0));
      iommu := new Iommu();
      ledger, posted, taken, coherent, kicked, windows := Opening(num), [], 0, true, 0, [];
      new;
      hide ViewOk, RingSize;
      NewView(Cfg(), Now());
    }

    // ----- detaching -----

    /** vring_unmap_one_split for node i, the n-th of those that `unmaps` lists; `rest` stay. */
    method UnmapOne(i: nat, ghost unmaps: seq<Mapping>, ghost n: nat, ghost rest: multiset<Mapping>)
      requires i < extra.Length && n < |unmaps| && unmaps[n] == ExtraMapping(extra[i])
      requires iommu.live == rest + StillMapped(useDma, unmaps, n)
      modifies iommu
      ensures iommu.live == rest + StillMapped(useDma, unmaps, n + 1)
    {
      if useDma {
        NextOut(unmaps, n);
        iommu.Unmap(extra[i].addr, extra[i].len, extra[i].flags.write, extra[i].flags.indirect);
      }
    }

    /** Unmaps the descriptors of a chain as its NEXT flags say, counting its nodes; returns the last. `rest` stay. */
    method UnmapChain(head: nat, ghost chain: seq<nat>, ghost rest: multiset<Mapping>) returns (i: nat, n: nat)
      requires desc.Length == next.Length == extra.Length && chain != [] && head == chain[0] && Linked(next[..], chain)
      requires forall k :: 0 <= k < |chain| ==> (desc[..][chain[k]].more <==> k < |chain| - 1)
      requires iommu.live == rest + if useDma then multiset(ChainMappings(extra[..], chain)) else multiset{}
      modifies iommu
      ensures n == |chain| && i == chain[|chain| - 1]
      ensures iommu.live == rest
    {
      hide ChainMappings, Linked, ExtraMapping, StillMapped;
      LinkedWithin(next[..], chain);
      ghost var unmaps := ChainMappings(extra[..], chain);
      ChainMappingsAt(extra[..], chain);
      AllMappedYet(useDma, unmaps);
      i, n := head, 0;
      while desc[i].more
        invariant 0 <= n < |chain| && i == chain[n]
        invariant iommu.live == rest + StillMapped(useDma, unmaps, n)
        decreases |chain| - n
      {
        assert desc[..][chain[n]].more;
        LinkedStep(next[..], chain, n);
        UnmapOne(i, unmaps, n, rest);
        i := next[i];
        n := n + 1;
      }
      assert !desc[..][chain[n]].more;
      UnmapOne(i, unmaps, n, rest);
      n := n + 1;
    }

    /** detach_buf_split */
    method Detach(head: nat) returns (context: Aside)
      requires Valid() && Outstanding(Now(), head)
      modifies this`freeHead, this`numFree, this`ledger, next, state, iommu
      ensures Sized() && Now() == Detached(Cfg(), old(Now()), head) && iommu.live == ledger.live
      ensures context == if indirect then Nothing else old(state[head].aside)
    {
      hide ViewOk, ToUnmap, Linked, AsideShape;
      ghost var v := Now();
      ChainOf(Cfg(), v, head);
      ReleasedLive(Cfg(), v, head);
      context := if indirect then Nothing else state[head].aside;
      var last, n := Unmap(head, ledger.pool.out[head], Release(ledger, head).live);
      Relink(head, last, n);
      ledger := Release(ledger, head);
      DetachedIs(Cfg(), v, head, Now());
    }

    /** Everything mapped for the buffer; `rest` stay. */
    method Unmap(head: nat, ghost chain: seq<nat>, ghost rest: multiset<Mapping>) returns (last: nat, n: nat)
      requires Sized() && BufferShape(Cfg(), Now(), head, chain)
      requires iommu.live == rest + ToUnmap(useDma, extra[..], chain, state[head].aside)
      modifies iommu
      ensures iommu.live == rest
      ensures last == state[head].last && n == state[head].num
    {
      hide ToUnmap, Linked, Outstanding, ChainMappings, TableMappings;
      ToUnmapParts(useDma, extra[..], chain, state[head].aside);
      ghost var aside := state[head].aside;
      last, n := UnmapChain(head, chain,
                            rest + if useDma && aside.Table? then multiset(TableMappings(aside.descs)) else multiset{});
      UnmapEntries(head, rest);
    }

    /** The chain goes in front of the free list. */
    method Relink(head: nat, last: nat, n: nat)
      requires head < state.Length && last < next.Length
      modifies this`freeHead, this`numFree, next, state
      ensures next[..] == old(next[..])[last := old(freeHead)]
      ensures state[..] == old(state[..])[head := old(state[head]).(data := None,
            aside := if indirect then Nothing else old(state[head].aside))]
      ensures freeHead == head && numFree == old(numFree) + n
    {
      state[head] := state[head].(data := None);
      next[last] := freeHead;
      freeHead := head;
      numFree := numFree + n;
      if indirect {
        state[head] := state[head].(aside := Nothing);
      }
    }

    /** The entries of an indirect table, if there is one; `rest` stay. */
    method UnmapEntries(head: nat, ghost rest: multiset<Mapping>)
      requires head < state.Length && head < extra.Length && AsideShape(indirect, state[head].aside, extra[head])
      requires iommu.live == rest + if useDma && state[head].aside.Table? then
            multiset(TableMappings(state[head].aside.descs)) else multiset{}
      modifies iommu
      ensures iommu.live == rest
    {
      if indirect && state[head].aside.Table? {
        var descs, len := state[head].aside.descs, extra[head].len;
        assert extra[head].flags.indirect && len != 0 && len % DESC_SIZE == 0;
        assert descs[..|descs|] == descs && len / DESC_SIZE == |descs|;
        if useDma {
          UnmapTable(iommu, descs, len / DESC_SIZE, rest);
        }
      }
    }

    // ----- adding -----

    /** virtqueue_add_desc_split: entry j of the request, mapped at addr, into the node at hand. */
    method StoreEntry(q: Request, j: nat, curr: nat, addr: nat, ghost v: View)
      requires Sized() && WellFormed(q) && j < |q.sgs| && Room(Cfg(), v, |q.sgs|) && Now() == MidAdd(Cfg(), v, q, j)
      requires curr == v.l.pool.free[j] && Mapped(useDma, q, j) == Some(addr)
      modifies desc, extra
      ensures Now() == MidAdd(Cfg(), v, q, j + 1)
    {
      hide Recorded, Linked, NoDup, EntriesOf, RecordsOf;
      NextEntry(Cfg(), v, q, j);
      var write := j >= q.nOut;
      desc[curr] := SplitDesc(addr, q.sgs[j].len, true, write, false, next[curr]);
      extra[curr] := Extra(addr, q.sgs[j].len, Flags(true, write, false, false, false));
    }

    /** Maps entry j and stores it in the node at hand; returns the next node. */
    method MapAndStore(q: Request, j: nat, curr: nat, ghost v: View) returns (ok: bool, following: nat)
      requires Sized() && WellFormed(q) && j < |q.sgs| && Room(Cfg(), v, |q.sgs|) && Now() == MidAdd(Cfg(), v, q, j)
      requires curr == v.l.pool.free[j]
      modifies desc, extra, iommu
      ensures ok <==> Mapped(useDma, q, j).Some?
      ensures !ok ==> Now() == old(Now()) && iommu.live == old(iommu.live)
      ensures ok ==> Now() == MidAdd(Cfg(), v, q, j + 1) && following == v.d.next[curr]
                     && iommu.live == old(iommu.live) + OneMapping(useDma, q, j)
    {
      hide Recorded, EntriesOf, RecordsOf, MidAdd, OneMapping, Linked, NoDup;
      var addr := MapEntry(iommu, useDma, q, j);
      if addr.None? {
        return false, 0;
      }
      StoreEntry(q, j, curr, addr.value, v);
      MidAddShape(Cfg(), v, q, j + 1);
      assert next[..] == v.d.next;
      return true, next[curr];
    }

    /** Maps and stores the entries of a request, up to the first that cannot be mapped. */
    method StoreChain(q: Request, ghost v: View) returns (j: nat, curr: nat, prev: nat)
      requires Sized() && WellFormed(q) && Room(Cfg(), v, |q.sgs|) && Now() == v
      modifies desc, extra, iommu
      ensures j <= |q.sgs| && Now() == MidAdd(Cfg(), v, q, j) && AllMapped(useDma, q, j) &&
            (j < |q.sgs| ==> Mapped(useDma, q, j).None?)
      ensures iommu.live == old(iommu.live) + multiset(Mappings(useDma, q, j))
      ensures j < |q.sgs| ==> curr == v.l.pool.free[j]
      ensures j == |q.sgs| ==> prev == v.l.pool.free[j - 1] && curr == v.d.next[prev]
    {
      hide Recorded, EntriesOf, RecordsOf, MidAdd, Mappings, OneMapping, Linked, NoDup, Mapped;
      StartEntries(Cfg(), v, q);
      j, curr, prev := 0, freeHead, 0;
      while j < |q.sgs|
        invariant j <= |q.sgs| && Now() == MidAdd(Cfg(), v, q, j) && AllMapped(useDma, q, j)
        invariant iommu.live == old(iommu.live) + multiset(Mappings(useDma, q, j))
        invariant j < |q.sgs| ==> curr == v.l.pool.free[j]
        invariant j > 0 ==> prev == v.l.pool.free[j - 1] && prev < |v.d.next| && curr == v.d.next[prev]
      {
        MappingsGrow(useDma, q, j);
        LinkedStep(v.d.next, v.l.pool.free, j);
        var ok, following := MapAndStore(q, j, curr, v);
        if !ok {
          return;
        }
        prev, curr, j := curr, following, j + 1;
      }
    }

    /** The last entry does not continue. */
    method EndChain(q: Request, prev: nat, ghost v: View)
      requires Sized() && WellFormed(q) && Room(Cfg(), v, |q.sgs|) && Now() == MidAdd(Cfg(), v, q, |q.sgs|)
      requires prev == v.l.pool.free[|q.sgs| - 1]
      modifies desc, extra
      ensures Now() == Entered(Cfg(), v, q)
    {
      hide Recorded, EntriesOf, RecordsOf, EntryOf, RecordOf, Linked, NoDup;
      MidAddAt(Cfg(), v, q, |q.sgs|);
      assert desc[prev] == Now().desc[prev] && extra[prev] == Now().d.extra[prev];
      desc[prev] := desc[prev].(more := false);
      if useDma {
        extra[prev] := extra[prev].(flags := extra[prev].flags.(next := false));
      }
    }

    /** unmap_release: undoes the mappings of the entries stored before node `err`; `rest` stay. */
    method UnmapRelease(total: nat, err: nat, ghost chain: seq<nat>, ghost rest: multiset<Mapping>)
      requires next.Length == extra.Length && |chain| < total && Within(chain, extra.Length)
      requires err !in chain && LeadsTo(next[..], freeHead, chain, err)
      requires iommu.live == rest + if useDma then multiset(ChainMappings(extra[..], chain)) else multiset{}
      modifies iommu
      ensures iommu.live == rest
    {
      hide ChainMappings, LeadsTo, ExtraMapping, StillMapped;
      ghost var unmaps := ChainMappings(extra[..], chain);
      ChainMappingsAt(extra[..], chain);
      AllMappedYet(useDma, unmaps);
      OnTheWay(next[..], freeHead, chain, err, 0);
      var i, n := freeHead, 0;
      while n < total && i != err
        invariant 0 <= n <= |chain| && i == (if n < |chain| then chain[n] else err) && (i == err <==> n == |chain|)
        invariant iommu.live == rest + StillMapped(useDma, unmaps, n)
      {
        OnTheWay(next[..], freeHead, chain, err, n + 1);
        UnmapOne(i, unmaps, n, rest);
        i := next[i];
        n := n + 1;
      }
    }

    /** virtqueue_kick_prepare_split; `deviceEvent`, `noNotify`: what the device has written. */
    method KickPrepare(deviceEvent: nat, noNotify: bool) returns (needed: bool)
      modifies this`numAdded, this`kicked, this`windows
      ensures numAdded == 0 && Now() == old(Now()).(notes := Asked(old(Now()).notes))
      ensures needed == if event then NeedEvent(deviceEvent, availIdxShadow, Word(availIdxShadow - old(numAdded)))
                        else !noNotify
    {
      var before, after := Word(availIdxShadow - numAdded), availIdxShadow;
      kicked, windows := kicked + numAdded, windows + [Window(kicked, kicked + numAdded)];
      numAdded := 0;
      needed := if event then NeedEvent(deviceEvent, after, before) else !noNotify;
    }

    /** Takes the first n nodes off the free list and records the token. */
    method Claim(n: nat, last: nat, newHead: nat, data: nat, aside: Aside, ghost l: Ledger)
      requires Sized() && freeHead < num && n <= numFree
      modifies this`numFree, this`freeHead, this`ledger, state
      ensures Now() == old(Now()).(d := Driver(newHead, old(numFree) - n, next[..], extra[..],
                                               old(state[..])[old(freeHead) := State(Some(data), aside, n, last)]),
                                   l := l)
    {
      state[freeHead] := State(Some(data), aside, n, last);
      numFree := numFree - n;
      freeHead := newHead;
      ledger := l;
    }

    /** Puts a head into the available ring and moves the index on; a kick is made before the count could overflow. */
    method MakeAvailable(head: nat, deviceEvent: nat, noNotify: bool)
      requires Sized() && RingSize(num) && availIdxShadow == Word(|posted|)
      modifies this`availIdxShadow, this`numAdded, this`posted, this`kicked, this`windows, avail
      ensures 0 < num && Now() == old(Now()).(avail := old(avail[..])[|old(posted)| % num := head],
            availIdx := Word(|old(posted)| + 1),
                                              notes := Counted(old(Now()).notes), posted := old(posted) + [head])
    {
      hide Word;
      SlotOf(|posted|, num);
      NextWord(|posted|);
      avail[availIdxShadow % num] := head;
      availIdxShadow := Word(availIdxShadow + 1);
      numAdded := numAdded + 1;
      if numAdded == WORD - 1 {
        var kick := KickPrepare(deviceEvent, noNotify);
      }
      posted := posted + [head];
    }

    /** Hands over the first n nodes of the free list. */
    method Commit(n: nat, last: nat, newHead: nat, data: nat, aside: Aside, deviceEvent: nat, noNotify: bool,
        ghost l: Ledger)
      requires Sized() && Room(Cfg(), Now(), n) && last == ledger.pool.free[n - 1] && last < num &&
            newHead == next[last]
      requires RingSize(num) && availIdxShadow == Word(|posted|)
      requires l == Accept(ledger, n, data, ToUnmap(useDma, extra[..], ledger.pool.free[..n], aside))
      modifies this`numFree, this`freeHead, this`availIdxShadow, this`numAdded, this`ledger, this`posted,
               this`kicked, this`windows, avail, state
      ensures Sized() && old(Room(Cfg(), Now(), n)) && Now() == Posted(Cfg(), old(Now()), n, data, aside)
    {
      hide ToUnmap, Linked, NoDup, Word, Counted;
      ghost var v := Now();
      var head := freeHead;
      Claim(n, last, newHead, data, aside, l);
      MakeAvailable(head, deviceEvent, noNotify);
      PostedIs(Cfg(), v, n, data, aside, Now());
    }

    /** Gives up a direct add at entry j, which could not be mapped and would have gone into node `err`. */
    method Rollback(q: Request, j: nat, err: nat, ghost v: View)
      requires Sized() && WellFormed(q) && ViewOk(Cfg(), v) && Room(Cfg(), v, |q.sgs|) && j < |q.sgs|
      requires Now() == MidAdd(Cfg(), v, q, j) && err == v.l.pool.free[j]
      requires iommu.live == v.l.live + multiset(Mappings(useDma, q, j))
      modifies iommu
      ensures Valid() && Now() == MidAdd(Cfg(), v, q, j)
    {
      hide ViewOk, MidAdd, Mappings, ToUnmap, Linked, NoDup, LeadsTo, ChainMappings;
      ghost var c := Cfg();
      MidAddShape(c, v, q, j);
      MidAddOk(c, v, q, j);
      ErrorNode(c, v, q, j);
      UndoneIs(c, v, q, j);
      UnmapRelease(|q.sgs|, err, ledger.pool.free[..j], ledger.live);
    }

    /** Ends the stored chain of a request and hands it over. */
    method HandOver(q: Request, prev: nat, curr: nat, data: nat, aside: Aside, deviceEvent: nat, noNotify: bool,
        ghost v: View)
      requires Sized() && WellFormed(q) && ViewOk(Cfg(), v) && Room(Cfg(), v, |q.sgs|)
      requires !aside.Table? && (indirect ==> aside.Nothing?)
      requires Now() == MidAdd(Cfg(), v, q, |q.sgs|) && prev == v.l.pool.free[|q.sgs| - 1] && curr == v.d.next[prev]
      requires iommu.live == v.l.live + multiset(Mappings(useDma, q, |q.sgs|))
      modifies this`numFree, this`freeHead, this`availIdxShadow, this`numAdded, this`ledger, this`posted,
               this`kicked, this`windows, avail, desc, extra, state
      ensures Valid() && AddedFor(Cfg(), v, q, data, aside, Now())
    {
      hide ViewOk, Entered, MidAdd, Mappings, AddedFor, Posted, ToUnmap, Linked, NoDup;
      ghost var c := Cfg();
      EndChain(q, prev, v);
      EnteredOk(c, v, q);
      RoomFor(c, Now(), |q.sgs|);
      IndicesOf(c, Now());
      AddedOk(c, v, q, data, aside);
      EnteredUnmaps(c, v, q, aside);
      Commit(|q.sgs|, prev, curr, data, aside, deviceEvent, noNotify,
             Accept(ledger, |q.sgs|, data, ToUnmap(useDma, extra[..], ledger.pool.free[..|q.sgs|], aside)));
    }

    /** Adds a request descriptor by descriptor. */
    method AddDirect(q: Request, data: nat, aside: Aside, deviceEvent: nat, noNotify: bool) returns (ok: bool)
      requires Valid() && WellFormed(q) && !aside.Table? && (indirect ==> aside.Nothing?) && |q.sgs| <= numFree
      modifies this`numFree, this`freeHead, this`availIdxShadow, this`numAdded, this`ledger, this`posted,
               this`kicked, this`windows, avail, desc, extra, state, iommu
      ensures Valid() && (ok <==> AllMapped(useDma, q, |q.sgs|))
      ensures ok ==> AddedFor(Cfg(), old(Now()), q, data, aside, Now())
      ensures !ok ==> GivenUpFor(Cfg(), old(Now()), q, Now())
    {
      hide ViewOk, MidAdd, Mappings, AddedFor, Linked, NoDup, AllMapped;
      ghost var c, v := Cfg(), Now();
      RoomFor(c, v, |q.sgs|);
      var j, curr, prev := StoreChain(q, v);
      if j < |q.sgs| {
        MappedBeforeExact(useDma, q, |q.sgs|, j);
        NotAll(c, q, j);
        Rollback(q, j, curr, v);
        return false;
      }
      HandOver(q, prev, curr, data, aside, deviceEvent, noNotify, v);
      return true;
    }

    /** Stores the descriptor of a mapped table and hands it over. */
    method PublishTable(q: Request, table: seq<TableDesc>, addr: nat, data: nat, deviceEvent: nat, noNotify: bool)
      requires Sized() && ViewOk(Cfg(), Now()) && WellFormed(q) &&
            iommu.live == ledger.live + IndirectMappings(useDma, q)
      requires indirect && 0 < numFree && TableAddress(useDma, q) == Some(addr)
      requires table == TableOf(useDma, q, |q.sgs|)
      modifies this`numFree, this`freeHead, this`availIdxShadow, this`numAdded, this`ledger, this`posted,
               this`kicked, this`windows, avail, desc, extra, state, iommu
      ensures Valid() && IndirectFor(Cfg(), old(Now()), q, addr, data, Now())
    {
      hide ViewOk, IndirectFor, Posted, ToUnmap, Linked, NoDup, TableOf, IndirectMappings, Within;
      ghost var c, v := Cfg(), Now();
      RoomFor(c, v, 1);
      IndicesOf(c, v);
      TableOk(c, v, q, addr, data);
      TableUnmaps(c, v, q, addr);
      var head, len := freeHead, DESC_SIZE * |q.sgs|;
      desc[head] := SplitDesc(addr, len, false, false, true, next[head]);
      extra[head] := Extra(addr, len, Flags(false, false, true, false, false));
      assert Now() == TableEntered(c, v, q, addr);
      Commit(1, head, next[head], data, Table(table), deviceEvent, noNotify,
             Accept(ledger, 1, data, ToUnmap(useDma, extra[..], ledger.pool.free[..1], Table(table))));
    }

    /** virtqueue_add_split */
    method Add(q: Request, data: nat, context: Option<nat>, deviceEvent: nat, noNotify: bool) returns (st: Status)
      requires Valid() && WellFormed(q) && (context.Some? ==> !indirect)
      modifies this`numFree, this`freeHead, this`availIdxShadow, this`numAdded, this`ledger, this`posted,
               this`kicked, this`windows, avail, desc, extra, state, iommu
      ensures Valid()
      ensures broken ==> st == IoError && Now() == old(Now())
      ensures !broken ==> AddOutcome(Cfg(), old(Now()), q, data,
            if context.Some? then Context(context.value) else Nothing, st, Now())
      ensures !broken ==>
                st == if old(TakesTable(Cfg(), Now(), q)) then if TableGranted(useDma, q) then Ok else NoMemory
                      else if old(numFree) < |q.sgs| then NoSpace
                      else if Granted(useDma, q.answers) then Ok else NoMemory
      ensures st == Ok ==> Delivered(Cfg(), old(Now()), q, data,
                                     if context.Some? then Context(context.value) else Nothing, Now())
      ensures st != Ok ==> ledger == old(ledger) && avail[..] == old(avail[..]) && availIdxShadow == old(availIdxShadow)
    {
      hide ViewOk, AddedFor, IndirectFor, GivenUpFor, AllMapped, TableOf, IndirectMappings, TakesTable, TableGranted,
          Granted, Delivered;
      ghost var v, aside := Now(), if context.Some? then Context(context.value) else Nothing;
      if broken {
        return IoError;
      }
      var useTable := indirect && |q.sgs| > 1 && numFree > 0 && q.gotTable;
      var descsUsed := if useTable then 1 else |q.sgs|;
      if numFree < descsUsed {
        AddMeans(Cfg(), v, q, data, aside, NoSpace, Now());
        return NoSpace;
      }
      if useTable {
        var table, addr;
        table, addr := MapTable(iommu, useDma, ForTable(q));
        if addr.None? {
          AddMeans(Cfg(), v, q, data, aside, NoMemory, Now());
          return NoMemory;
        }
        PublishTable(ForTable(q), table, addr.value, data, deviceEvent, noNotify);
        AddMeans(Cfg(), v, q, data, aside, Ok, Now());
        return Ok;
      }
      var ok := AddDirect(q, data, if context.Some? then Context(context.value) else Nothing, deviceEvent, noNotify);
      st := if ok then Ok else NoMemory;
      AddMeans(Cfg(), v, q, data, aside, st, Now());
    }

    // ----- taking buffers back -----

    /** virtqueue_get_buf_ctx_split. `usedIdx`, `id`, `written`: what the device has written to used->idx and to the
        ring entry that the driver looks at; any values at all. */
    method GetBuf(usedIdx: nat, id: nat, written: nat) returns (ret: Option<nat>, len: nat, context: Aside)
      requires Valid()
      modifies this`broken, this`freeHead, this`numFree, this`lastUsedIdx, this`ledger, this`taken, next, state, iommu
      ensures Valid()
      ensures ret.None? ==> Now() == old(Now())
      ensures ret.Some? ==> len == written && Taken(Cfg(), old(Now()), id, ret.value, context, Now())
      ensures ret.Some? ==> HandedBack(old(ledger), ledger, id, ret.value) && ReturnsContext(old(Now()).d, id, context)
      ensures ret.Some? <==> !old(broken) && usedIdx != old(lastUsedIdx) && id in old(ledger).pool.out
      ensures broken <==> old(broken) || (usedIdx != old(lastUsedIdx) && id !in old(ledger).pool.out)
      ensures forall P: nat :: !old(broken) && Conforming(old(Now()), P, usedIdx, id) ==>
                !broken && (ret.Some? <==> old(taken) < P)
    {
      hide ViewOk, Detached, Word, Conforming, ReturnsContext;
      IndexTells(Cfg(), Now(), usedIdx, id);
      if broken {
        return None, 0, Nothing;
      }
      if lastUsedIdx == usedIdx {
        return None, 0, Nothing;
      }
      if id >= num {
        OutBelow(Cfg(), Now(), id);
        broken := true;
        return None, written, Nothing;
      }
      ghost var v := Now();
      DataTells(Cfg(), v, id);
      if state[id].data.None? {
        broken := true;
        return None, written, Nothing;
      }
      TakenOk(Cfg(), v, id);
      ret, len := state[id].data, written;
      context := Detach(id);
      lastUsedIdx := Word(lastUsedIdx + 1);
      taken := taken + 1;
      DetachedRest(Cfg(), v, id);
      TakenHands(Cfg(), v, id, ret.value, context, Now());
    }

    /** virtqueue_detach_unused_buf_split */
    method DetachUnused() returns (ret: Option<nat>, ghost id: nat)
      requires Valid()
      modifies this`freeHead, this`numFree, this`availIdxShadow, this`ledger, this`posted, this`coherent, next, state,
          iommu
      ensures Valid()
      ensures ret.None? ==> Now() == old(Now()) && Drained(Now())
      ensures ret.Some? ==> Dropped(Cfg(), old(Now()), id, ret.value, Now())
      ensures ret.Some? ==> HandedBack(old(ledger), ledger, id, ret.value)
    {
      hide ViewOk, Detached, Drained, Word;
      ghost var v := Now();
      var i := 0;
      while i < num && state[i].data.None?
        invariant 0 <= i <= num && forall k :: 0 <= k < i ==> state[k].data.None?
      {
        i := i + 1;
      }
      id := i;
      if i == num {
        NoneLeft(Cfg(), v);
        FreeCount(v);
        IndicesOf(Cfg(), v);
        assert numFree == num;
        return None, id;
      }
      DataTells(Cfg(), v, i);
      DroppedOk(Cfg(), v, i);
      IndicesOf(Cfg(), v);
      PreviousWord(|posted|);
      ret := state[i].data;
      var context := Detach(i);
      availIdxShadow := Word(availIdxShadow - 1);
      posted, coherent := posted[..|posted| - 1], false;
      DetachedRest(Cfg(), v, i);
      DroppedHands(Cfg(), v, i, ret.value, Now());
    }

    /** virtqueue_reinit_split, as after a resize that failed. */
    method Reinit()
      requires Valid() && Drained(Now())
      modifies this`numFree, this`lastUsedIdx, this`numAdded, this`availIdxShadow, this`posted, this`taken,
               this`coherent, this`kicked, this`windows
      ensures Valid() && Now() == Reinitialised(Cfg(), old(Now()), avail[..])
    {
      hide ViewOk, Drained;
      IndicesOf(Cfg(), Now());
      ReinitialisedOk(Cfg(), Now(), avail[..]);
      ResetIndices();
    }

    method ResetIndices()
      modifies this`numFree, this`lastUsedIdx, this`numAdded, this`availIdxShadow, this`posted, this`taken,
               this`coherent, this`kicked, this`windows
      ensures numFree == num && lastUsedIdx == numAdded == availIdxShadow == 0
      ensures posted == [] && taken == 0 && coherent && kicked == 0 && windows == []
    {
      numFree, lastUsedIdx, numAdded, availIdxShadow := num, 0, 0, 0;
      posted, taken, coherent, kicked, windows := [], 0, true, 0, [];
    }
  }

  lemma OutBelow(c: Config, v: View, id: nat)
    requires ViewOk(c, v) && c.num <= id
    ensures id !in v.l.pool.out
  {
    hide Partition, Threaded, Flagged, Indexed, BufferOk;
  }

  lemma FreeCount(v: View)
    requires Drained(v)
    ensures v.d.numFree == v.l.pool.num
  {
  }

  lemma PreviousWord(x: nat)
    requires 0 < x
    ensures Word(Word(x) - 1) == Word(x - 1)
  {
  }

  lemma PostedIs(c: Config, v: View, n: nat, data: nat, aside: Aside, w: View)
    requires Room(c, v, n) && |v.avail| == c.num && 0 < c.num && v.l.pool.free[n - 1] < |v.d.next|
    requires w.d == Driver(v.d.next[v.l.pool.free[n - 1]], v.d.numFree - n, v.d.next, v.d.extra,
                           v.d.state[v.d.freeHead := State(Some(data), aside, n, v.l.pool.free[n - 1])])
    requires w.l == Accept(v.l, n, data, ToUnmap(c.useDma, v.d.extra, v.l.pool.free[..n], aside))
    requires w.avail == v.avail[|v.posted| % c.num := v.d.freeHead] && w.availIdx == Word(|v.posted| + 1)
    requires w == v.(d := w.d, l := w.l, avail := w.avail, availIdx := w.availIdx,
                     notes := Counted(v.notes), posted := v.posted + [v.d.freeHead])
    ensures w == Posted(c, v, n, data, aside)
  {
    hide ToUnmap, Linked, NoDup, Word, Counted;
  }

  /** A direct add of q failed at its first entry that could not be mapped: only free nodes have been written. */
  ghost predicate GivenUpFor(c: Config, v: View, q: Request, v': View) {
    && WellFormed(q) && Room(c, v, |q.sgs|) && MappedBefore(c.useDma, q, |q.sgs|) < |q.sgs|
    && v' == MidAdd(c, v, q, MappedBefore(c.useDma, q, |q.sgs|))
  }

  lemma NotAll(c: Config, q: Request, j: nat)
    requires WellFormed(q) && j < |q.sgs| && Mapped(c.useDma, q, j).None?
    ensures !AllMapped(c.useDma, q, |q.sgs|)
  {
  }

  /** Following `next` from `head` passes the chain and comes to `err`. */
  ghost predicate LeadsTo(next: seq<nat>, head: nat, chain: seq<nat>, err: nat) {
    Linked(next, chain + [err]) && head == (chain + [err])[0]
  }

  /** The n-th node on the way. */
  lemma OnTheWay(next: seq<nat>, head: nat, chain: seq<nat>, err: nat, n: nat)
    requires LeadsTo(next, head, chain, err) && err !in chain && n <= |chain|
    ensures forall k :: 0 <= k < |chain| ==> chain[k] < |next|
    ensures var x := if n < |chain| then chain[n] else err;
            (n == 0 ==> head == x) && (n > 0 ==> next[chain[n - 1]] == x) && (x == err <==> n == |chain|)
  {
    var way := chain + [err];
    assert forall k :: 0 <= k < |chain| ==> way[k] == chain[k] && chain[k] in chain;
    if n > 0 {
      assert next[way[n - 1]] == way[n];
    }
  }

  /** The node at which storing stopped, as the way to unmap_release will find it. */
  lemma ErrorNode(c: Config, v: View, q: Request, j: nat)
    requires WellFormed(q) && Room(c, v, |q.sgs|) && j < |q.sgs|
    ensures var chain, err := v.l.pool.free[..j], v.l.pool.free[j];
            err !in chain && Within(chain, c.num) && LeadsTo(v.d.next, v.d.freeHead, chain, err)
  {
    assert v.l.pool.free[..j] + [v.l.pool.free[j]] == v.l.pool.free[..j + 1];
  }

  lemma UndoneIs(c: Config, v: View, q: Request, j: nat)
    requires WellFormed(q) && Room(c, v, |q.sgs|) && j <= |q.sgs| && Carries(c, MidAdd(c, v, q, j), q, j)
    ensures var m := MidAdd(c, v, q, j);
            m.l == v.l && Within(v.l.pool.free[..j], |m.d.extra|)
            && (if c.useDma then multiset(ChainMappings(m.d.extra, v.l.pool.free[..j])) else multiset{})
               == multiset(Mappings(c.useDma, q, j))
  {
  }

  lemma IndicesOf(c: Config, v: View)
    requires ViewOk(c, v)
    ensures RingSize(c.num) && v.availIdx == Word(|v.posted|) && |v.avail| == c.num == v.l.pool.num
  {
  }

  lemma EnteredUnmaps(c: Config, v: View, q: Request, aside: Aside)
    requires ViewOk(c, v) && Room(c, v, |q.sgs|) && WellFormed(q) && !aside.Table? && (c.indirect ==> aside.Nothing?)
    ensures var e := Entered(c, v, q);
            e.l == v.l && Within(v.l.pool.free[..|q.sgs|], |e.d.extra|) && e.d.freeHead == v.d.freeHead &&
                e.d.next == v.d.next
  {
    hide ViewOk, MidAdd;
    EnteredOk(c, v, q);
  }

  lemma StartEntries(c: Config, v: View, q: Request)
    requires Room(c, v, |q.sgs|) && WellFormed(q)
    ensures MidAdd(c, v, q, 0) == v && Mappings(c.useDma, q, 0) == []
  {
  }

  lemma NextEntry(c: Config, v: View, q: Request, j: nat)
    requires Room(c, v, |q.sgs|) && WellFormed(q) && j < |q.sgs|
    ensures var m, free := MidAdd(c, v, q, j), v.l.pool.free;
            MidAdd(c, v, q, j + 1) == m.(desc := m.desc[free[j] := EntryOf(c, v, q, j)],
                                         d := m.d.(extra := m.d.extra[free[j] := RecordOf(c, q, j)]))
  {
    hide Recorded, Linked, NoDup, EntryOf, RecordOf;
    assert EntriesOf(c, v, q, j + 1) == EntriesOf(c, v, q, j) + [EntryOf(c, v, q, j)];
    assert RecordsOf(c, q, j + 1) == RecordsOf(c, q, j) + [RecordOf(c, q, j)];
    RecordedPush(v.desc, v.l.pool.free, EntriesOf(c, v, q, j), EntryOf(c, v, q, j));
    RecordedPush(v.d.extra, v.l.pool.free, RecordsOf(c, q, j), RecordOf(c, q, j));
  }

  /** What is left of the mappings to be undone, after the first n. */
  ghost function StillMapped(useDma: bool, unmaps: seq<Mapping>, n: nat): multiset<Mapping>
    requires n <= |unmaps|
  {
    if useDma then multiset(unmaps[n..]) else multiset{}
  }

  lemma AllMappedYet(useDma: bool, unmaps: seq<Mapping>)
    ensures StillMapped(useDma, unmaps, 0) == if useDma then multiset(unmaps) else multiset{}
    ensures StillMapped(useDma, unmaps, |unmaps|) == multiset{}
  {
    assert unmaps[0..] == unmaps && unmaps[|unmaps|..] == [];
  }

  lemma ReleasedLive(c: Config, v: View, id: nat)
    requires ViewOk(c, v) && Outstanding(v, id)
    ensures v.l.live == Release(v.l, id).live + v.l.maps[id]
  {
    hide Balanced, Threaded, BuffersOk;
    ReleaseBalanced(v.l, id);
  }

  /** What detaching needs to know of an outstanding buffer. */
  ghost predicate BufferShape(c: Config, v: View, id: nat, chain: seq<nat>) {
    && Outstanding(v, id) && |v.d.state| == |v.d.next| == |v.d.extra| == |v.desc| == c.num && id < c.num
    && chain == v.l.pool.out[id] && chain != [] && chain[0] == id && Linked(v.d.next, chain) && Within(chain, c.num)
    && v.d.state[id].last == chain[|chain| - 1] && v.d.state[id].num == |chain|
    && (forall k :: 0 <= k < |chain| ==> (v.desc[chain[k]].more <==> k < |chain| - 1))
    && AsideShape(c.indirect, v.d.state[id].aside, v.d.extra[id])
    && v.l.maps[id] == ToUnmap(c.useDma, v.d.extra, chain, v.d.state[id].aside)
  }

  ghost predicate AsideShape(indirect: bool, aside: Aside, e: Extra) {
    && (if indirect then !aside.Context? else !aside.Table?)
    && (aside.Table? ==> TableRecord(aside.descs, e))
  }

  lemma ChainOf(c: Config, v: View, id: nat)
    requires ViewOk(c, v) && Outstanding(v, id)
    ensures BufferShape(c, v, id, v.l.pool.out[id])
  {
    hide Partition, Threaded, BuffersOk, ToUnmap, Indexed;
    BufferFacts(c.useDma, c.indirect, v.d, v.l, id);
  }

  lemma ToUnmapParts(useDma: bool, extra: seq<Extra>, chain: seq<nat>, aside: Aside)
    requires Within(chain, |extra|)
    ensures ToUnmap(useDma, extra, chain, aside)
         == (if useDma then multiset(ChainMappings(extra, chain)) else multiset{})
            + (if useDma && aside.Table? then multiset(TableMappings(aside.descs)) else multiset{})
  {
  }

  lemma DetachedIs(c: Config, v: View, id: nat, w: View)
    requires Outstanding(v, id)
    requires w == v.(d := w.d, l := Release(v.l, id)) && w.d.extra == v.d.extra
    requires w.d.freeHead == id && w.d.numFree == v.d.numFree + v.d.state[id].num
    requires w.d.next == v.d.next[v.d.state[id].last := v.d.freeHead]
    requires w.d.state == v.d.state[id := v.d.state[id].(data := None,
          aside := if c.indirect then Nothing else v.d.state[id].aside)]
    ensures w == Detached(c, v, id)
  {
  }
}
