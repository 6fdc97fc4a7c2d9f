/** The packed driver's registers against the protocol: storing, publishing and consuming chains in memory. */
module PackedRing {
  import opened Bags
  import opened PackedMemory
  import opened PackedProtocol

  const WRAP_BIT := 0x8000

  /** The used position register: slot in the low 15 bits, wrap counter in the top bit. */
  function LastUsed(x: nat): nat { x % WRAP_BIT }

  function UsedWrap(x: nat): bool { x / WRAP_BIT == 1 }

  function EncodeUsed(u: nat, w: bool): nat { if w then u + WRAP_BIT else u }

  lemma EncodeUsedExact(u: nat, w: bool)
    requires u < WRAP_BIT
    ensures LastUsed(EncodeUsed(u, w)) == u && UsedWrap(EncodeUsed(u, w)) == w
  {
  }

  /** What the driver knows of the ring, and (ghost) the position A of its last kick. */
  datatype Regs = Regs(lastUsedIdx: nat, nextAvail: nat, availWrap: bool, numFree: nat, numAdded: nat, kicked: nat)

  /** Memory and registers encode the state r of the protocol, and the outstanding chains have the lengths it records.
      */
  ghost predicate Fits(slots: seq<Desc>, g: Regs, out: map<nat, seq<nat>>, r: Ring) {
    var u, w := LastUsed(g.lastUsedIdx), UsedWrap(g.lastUsedIdx);
    && 0 < |slots| <= WRAP_BIT && Inv(r) && r.pend == [] && Shows(slots, u, w, r)
    && g.nextAvail == Slot(u, r.A - r.U, |slots|) && g.availWrap == Lap(u, w, r.A - r.U, |slots|)
    && g.numFree + (r.A - r.U) == |slots|
    && g.kicked + g.numAdded == r.A
    && r.table.Keys == out.Keys && (forall id :: id in r.table ==> r.table[id].n == |out[id]|)
  }

  lemma StartFits(num: nat)
    requires 0 < num <= WRAP_BIT
    ensures Fits(Start(num).cells, Regs(WRAP_BIT, 0, true, num, 0, 0), map[], Start(num))
  {
    StartInv(num);
    StartShows(num);
  }

  // ----- adding a chain -----

  /** Memory after storing ds from slot `head` on, the flags of the first one withheld. */
  ghost function Stored(slots: seq<Desc>, head: nat, ds: seq<Desc>): (r: seq<Desc>)
    requires head < |slots| && |ds| <= |slots|
    ensures |r| == |slots|
  {
    if ds == [] then slots else
      var j := |ds| - 1;
      Stored(slots, head, ds[..j])[Slot(head, j, |slots|) := if j == 0 then ds[0].(flags := slots[head].flags)
          else ds[j]]
  }

  lemma StoredPush(slots: seq<Desc>, head: nat, ds: seq<Desc>, d: Desc)
    requires head < |slots| && |ds| < |slots|
    ensures Stored(slots, head, ds + [d]) ==
            Stored(slots, head, ds)[Slot(head, |ds|, |slots|) := if ds == [] then d.(flags := slots[head].flags) else d]
  {
    assert (ds + [d])[..|ds|] == ds;
  }

  lemma StoredHead(slots: seq<Desc>, head: nat, ds: seq<Desc>)
    requires head < |slots| && |ds| <= |slots|
    ensures ds == [] ==> Stored(slots, head, ds)[head] == slots[head]
  {
  }

  ghost function PublishedSlots(slots: seq<Desc>, head: nat, ds: seq<Desc>): (r: seq<Desc>)
    requires head < |slots| && 0 < |ds| <= |slots|
    ensures |r| == |slots|
  {
    var m := Stored(slots, head, ds);
    m[head := m[head].(flags := ds[0].flags)]
  }

  /** Storing and publishing puts every descriptor of the chain in its slot and touches no other slot. */
  lemma {:induction false} StoredAt(slots: seq<Desc>, head: nat, ds: seq<Desc>, k: nat)
    requires head < |slots| && |ds| <= |slots| && k < |slots|
    ensures Stored(slots, head, ds)[Slot(head, k, |slots|)] ==
            if k >= |ds| then slots[Slot(head, k, |slots|)]
            else if k == 0 then ds[0].(flags := slots[head].flags) else ds[k]
  {
    if ds != [] {
      StoredAt(slots, head, ds[..|ds| - 1], k);
    }
  }

  lemma PublishedAt(slots: seq<Desc>, head: nat, ds: seq<Desc>, k: nat)
    requires head < |slots| && 0 < |ds| <= |slots| && k < |slots|
    ensures PublishedSlots(slots, head, ds)[Slot(head, k, |slots|)] ==
            if k < |ds| then ds[k] else slots[Slot(head, k, |slots|)]
  {
    StoredAt(slots, head, ds, k);
    StoredAt(slots, head, ds, 0);
  }

  /** The descriptors that the device reads from slot i on, following NEXT around the end of the ring. */
  ghost function ReadDescs(slots: seq<Desc>, i: nat, left: nat): seq<Desc>
    requires i < |slots|
    decreases left
  {
    if left == 0 then [] else
      [slots[i]] + if slots[i].flags.next then ReadDescs(slots, if i + 1 == |slots| then 0 else i + 1, left - 1) else []
  }

  /** ds stands in the slots from head on, and NEXT leads through it to its end. */
  ghost predicate Strung(slots: seq<Desc>, head: nat, ds: seq<Desc>) {
    && head < |slots| && |ds| <= |slots|
    && forall j :: 0 <= j < |ds| ==> slots[Slot(head, j, |slots|)] == ds[j] && (ds[j].flags.next <==> j < |ds| - 1)
  }

  lemma StrungAt(slots: seq<Desc>, head: nat, ds: seq<Desc>, i: nat, k: nat)
    requires Strung(slots, head, ds) && k < |ds| && i == Slot(head, k, |slots|)
    ensures i < |slots| && slots[i] == ds[k] && (ds[k].flags.next <==> k < |ds| - 1)
    ensures Slot(head, k + 1, |slots|) == if i + 1 == |slots| then 0 else i + 1
  {
  }

  lemma {:induction false} ReadsWhole(slots: seq<Desc>, head: nat, ds: seq<Desc>, i: nat, k: nat, left: nat)
    requires Strung(slots, head, ds) && k < |ds| <= k + left && i == Slot(head, k, |slots|) < |slots|
    ensures ReadDescs(slots, i, left) == ds[k..]
    decreases left
  {
    hide Strung, Slot;
    StrungAt(slots, head, ds, i, k);
    if k < |ds| - 1 {
      ReadsWhole(slots, head, ds, if i + 1 == |slots| then 0 else i + 1, k + 1, left - 1);
      assert ds[k..] == [ds[k]] + ds[k + 1..];
    }
  }

  /** Until it is published the device finds the head's slot as it was: its flags are withheld. */
  lemma {:induction false} HeadWithheld(slots: seq<Desc>, head: nat, ds: seq<Desc>)
    requires head < |slots| && |ds| <= |slots|
    ensures Stored(slots, head, ds)[head].flags == slots[head].flags
  {
    if ds != [] {
      HeadWithheld(slots, head, ds[..|ds| - 1]);
    }
  }

  lemma StoredOne(slots: seq<Desc>, head: nat, d: Desc)
    requires head < |slots|
    ensures Stored(slots, head, [d]) == slots[head := d.(flags := slots[head].flags)]
  {
    assert [d][..0] == [] && Stored(slots, head, []) == slots;
  }

  lemma PublishedOne(slots: seq<Desc>, head: nat, d: Desc)
    requires head < |slots|
    ensures PublishedSlots(slots, head, [d]) == slots[head := d]
  {
    StoredOne(slots, head, d);
  }

  /** ds is a chain for buffer id that may be stored at the next available position of r. */
  ghost predicate ChainFor(r: Ring, ds: seq<Desc>, id: nat)
    requires Shape(r)
  {
    && r.A - r.U + |ds| <= |r.cells| && id !in r.table
    && (forall j :: 0 <= j < |ds| ==> ds[j].id == id)
    && (forall j :: 0 <= j < |ds| ==>
          ds[j].flags.avail == r.laps[r.A - r.U + j] && ds[j].flags.used == !r.laps[r.A - r.U + j])
  }

  ghost function AfterStores(r: Ring, ds: seq<Desc>): (r': Ring)
    requires Shape(r) && r.pend == [] && r.A - r.U + |ds| <= |r.cells|
    ensures |r'.cells| == |r.cells| && r' == r.(cells := r'.cells, pend := ds)
  {
    if ds == [] then r else
      var j := |ds| - 1;
      var m := AfterStores(r, ds[..j]);
      var k := r.A - r.U + j;
      m.(cells := m.cells[k := if j == 0 then ds[0].(flags := m.cells[k].flags) else ds[j]], pend := ds)
  }

  /** Each store of the loop is a step of the protocol: every memory on the way satisfies its invariant. */
  lemma {:induction false} StoresKeep(r: Ring, ds: seq<Desc>, id: nat)
    requires Inv(r) && r.pend == [] && ChainFor(r, ds, id)
    requires forall j :: 0 <= j < |ds| - 1 ==> ds[j].flags.next
    ensures Inv(AfterStores(r, ds))
  {
    hide Queues, Bits, UsedElements, Published, Pending;
    if ds != [] {
      var j := |ds| - 1;
      StoresKeep(r, ds[..j], id);
      var m := AfterStores(r, ds[..j]);
      assert ds[..j] + [ds[j]] == ds;
      assert Shape(m) && Enabled(m, Store(ds[j]));
      StoreKeeps(m, ds[j]);
      assert AfterStores(r, ds) == Next(m, Store(ds[j]));
    }
  }

  lemma ShowsSize(slots: seq<Desc>, u: nat, w: bool, r: Ring)
    requires Shows(slots, u, w, r)
    ensures |r.cells| == |slots| && u < |slots|
  {
  }

  lemma ShowsDepends(slots: seq<Desc>, u: nat, w: bool, r: Ring, r': Ring)
    requires Shows(slots, u, w, r) && r'.cells == r.cells && r'.laps == r.laps && r'.U == r.U
    ensures Shows(slots, u, w, r')
  {
  }

  lemma ShowsLap(slots: seq<Desc>, u: nat, w: bool, r: Ring, k: nat)
    requires Shows(slots, u, w, r) && k <= |slots|
    ensures |r.laps| == |slots| + 1 && r.laps[k] == Lap(u, w, k, |slots|)
  {
  }

  lemma ShowsCell(slots: seq<Desc>, u: nat, w: bool, r: Ring, k: nat)
    requires Shows(slots, u, w, r) && k < |slots|
    ensures slots[Slot(u, k, |slots|)] == r.cells[k]
  {
  }

  lemma {:induction false} StoresShow(slots: seq<Desc>, u: nat, w: bool, r: Ring, ds: seq<Desc>)
    requires Shape(r) && r.pend == [] && r.A - r.U + |ds| <= |r.cells| && Shows(slots, u, w, r)
    requires r.A < r.U + |slots|
    ensures Shows(Stored(slots, Slot(u, r.A - r.U, |slots|), ds), u, w, AfterStores(r, ds))
  {
    hide Shows;
    ShowsSize(slots, u, w, r);
    var a, num := r.A - r.U, |slots|;
    var head := Slot(u, a, num);
    if ds != [] {
      var j := |ds| - 1;
      StoresShow(slots, u, w, r, ds[..j]);
      var m, b := Stored(slots, head, ds[..j]), AfterStores(r, ds[..j]);
      assert Slot(head, j, num) == Slot(u, a + j, num);
      ShowsCell(slots, u, w, r, a);
      var d := if j == 0 then ds[0].(flags := slots[head].flags) else ds[j];
      WriteShows(m, u, w, b, a + j, d);
      ShowsDepends(m[Slot(u, a + j, num) := d], u, w, b.(cells := b.cells[a + j := d]), AfterStores(r, ds));
    }
  }

  /** The registers after adding a chain of n descriptors. */
  function RegsAfterAdd(g: Regs, num: nat, n: nat): Regs
    requires g.nextAvail < num && n <= num && n <= g.numFree
  {
    Regs(g.lastUsedIdx, Slot(g.nextAvail, n, num), Lap(g.nextAvail, g.availWrap, n, num),
         g.numFree - n, g.numAdded + n, g.kicked)
  }

  ghost function AfterAdd(r: Ring, ds: seq<Desc>): Ring
    requires Shape(r) && r.pend == [] && r.A - r.U + |ds| <= |r.cells| && ds != []
  {
    var m := AfterStores(r, ds);
    var a, n := r.A - r.U, |ds|;
    m.(cells := m.cells[a := m.cells[a].(flags := ds[0].flags)], A := r.A + n, pend := [],
       avail := r.avail + [Buf(ds[0].id, n, r.A)], table := r.table[ds[0].id := Entry(n, Avail)])
  }

  lemma AddKeeps(r: Ring, ds: seq<Desc>)
    requires Inv(r) && r.pend == [] && ds != [] && ChainFor(r, ds, ds[0].id)
    requires forall j :: 0 <= j < |ds| ==> ds[j].flags.next == (j < |ds| - 1)
    ensures Inv(AfterAdd(r, ds))
  {
    hide Queues, Bits, UsedElements, Published, Pending, AfterStores;
    StoresKeep(r, ds, ds[0].id);
    var m := AfterStores(r, ds);
    PublishKeeps(m);
    assert AfterAdd(r, ds) == Next(m, Publish);
  }

  /** A chain with the flags of the driver's current lap may be stored at position A. */
  lemma ChainFitsRing(slots: seq<Desc>, g: Regs, out: map<nat, seq<nat>>, r: Ring, ds: seq<Desc>)
    requires Fits(slots, g, out, r) && ds != [] && |ds| <= g.numFree && ds[0].id !in out
    requires forall j :: 0 <= j < |ds| ==> ds[j].id == ds[0].id
    requires forall j :: 0 <= j < |ds| ==> ds[j].flags.avail == Lap(g.nextAvail, g.availWrap, j, |slots|)
    requires forall j :: 0 <= j < |ds| ==> ds[j].flags.used == !ds[j].flags.avail
    ensures ChainFor(r, ds, ds[0].id) && r.A < r.U + |slots|
  {
    hide Queues, Bits, UsedElements, Published, Pending;
    var u, w, num, a := LastUsed(g.lastUsedIdx), UsedWrap(g.lastUsedIdx), |slots|, r.A - r.U;
    forall j | 0 <= j < |ds| ensures ds[j].flags.avail == r.laps[a + j] {
      assert Lap(Slot(u, a, num), Lap(u, w, a, num), j, num) == Lap(u, w, a + j, num);
    }
  }

  lemma PublishShows(slots: seq<Desc>, u: nat, w: bool, r: Ring, ds: seq<Desc>)
    requires Shape(r) && r.pend == [] && r.A - r.U + |ds| <= |r.cells| && Shows(slots, u, w, r) && ds != []
    ensures Shows(PublishedSlots(slots, Slot(u, r.A - r.U, |slots|), ds), u, w, AfterAdd(r, ds))
  {
    hide Stored, AfterStores;
    var a, head := r.A - r.U, Slot(u, r.A - r.U, |slots|);
    StoresShow(slots, u, w, r, ds);
    var m, s := Stored(slots, head, ds), AfterStores(r, ds);
    assert m[head] == s.cells[a];
    WriteShows(m, u, w, s, a, m[head].(flags := ds[0].flags));
  }

  /** A chain added with the driver's registers is published at position A, and the registers follow. */
  lemma AddFits(slots: seq<Desc>, g: Regs, out: map<nat, seq<nat>>, r: Ring, ds: seq<Desc>, chain: seq<nat>)
    requires Fits(slots, g, out, r) && ds != [] && |ds| == |chain| <= g.numFree && ds[0].id !in out
    requires forall j :: 0 <= j < |ds| ==> ds[j].id == ds[0].id && ds[j].flags.next == (j < |ds| - 1)
    requires forall j :: 0 <= j < |ds| ==> ds[j].flags.avail == Lap(g.nextAvail, g.availWrap, j, |slots|)
    requires forall j :: 0 <= j < |ds| ==> ds[j].flags.used == !ds[j].flags.avail
    ensures Fits(PublishedSlots(slots, g.nextAvail, ds), RegsAfterAdd(g, |slots|, |ds|), out[ds[0].id := chain],
          AfterAdd(r, ds))
  {
    hide Queues, Bits, UsedElements, Published, Pending, AfterStores, PublishedSlots, ChainFor, Shows;
    ChainFitsRing(slots, g, out, r, ds);
    AddKeeps(r, ds);
    PublishShows(slots, LastUsed(g.lastUsedIdx), UsedWrap(g.lastUsedIdx), r, ds);
    ShowsSize(slots, LastUsed(g.lastUsedIdx), UsedWrap(g.lastUsedIdx), r);
  }

  /** Giving up after storing at most the head of a chain leaves the ring as it was. */
  lemma AbandonFits(slots: seq<Desc>, g: Regs, out: map<nat, seq<nat>>, r: Ring, ds: seq<Desc>)
    requires Fits(slots, g, out, r) && |ds| <= 1 && |ds| <= g.numFree
    requires forall j :: 0 <= j < |ds| ==> ds[j].id !in out
    requires forall j :: 0 <= j < |ds| ==> ds[j].flags.avail == g.availWrap && ds[j].flags.used == !g.availWrap
    ensures Fits(Stored(slots, g.nextAvail, ds), g, out, AfterStores(r, ds).(pend := []))
  {
    hide Queues, Bits, UsedElements, Published, Pending, Shows, Stored, AfterStores;
    var u, w := LastUsed(g.lastUsedIdx), UsedWrap(g.lastUsedIdx);
    ShowsSize(slots, u, w, r);
    if ds == [] {
      NothingStoredYet(slots, g.nextAvail, r);
      assert r.(pend := []) == r;
    } else {
      ShowsLap(slots, u, w, r, r.A - r.U);
      StoresKeep(r, ds, ds[0].id);
      AbandonKeeps(AfterStores(r, ds));
      StoresShow(slots, u, w, r, ds);
      ShowsDepends(Stored(slots, g.nextAvail, ds), u, w, AfterStores(r, ds), AfterStores(r, ds).(pend := []));
    }
  }

  lemma NothingStoredYet(slots: seq<Desc>, head: nat, r: Ring)
    requires head < |slots| && Shape(r) && r.pend == []
    ensures Stored(slots, head, []) == slots && AfterStores(r, []) == r
  {
  }

  /** What the device sees after a half-stored chain was given up and a one-descriptor chain has been added and read:
      one more chain, that nobody published, exactly if more than the head had been stored. */
  lemma AbandonedSeen(r: Ring, d: Desc)
    requires Inv(r) && r.pend != [] && ChainFor(r.(pend := []), [d], d.id) && !d.flags.next
    ensures var t := AfterAdd(r.(pend := []), [d]);
            DeviceSees(t.(D := t.A)) <==> |r.pend| > 1
  {
    hide Queues, UsedElements, Published;
    var a, r0 := r.A - r.U, r.(pend := []);
    assert [d][..0] == [] && AfterStores(r0, []) == r0;
    var t := AfterAdd(r0, [d]);
    assert t.cells == r.cells[a := d];
    if |r.pend| > 1 {
      assert t.cells[a + 1] == r.pend[1];
    } else if a + 1 < |r.cells| {
      assert t.cells[a + 1] == r.cells[a + 1] && !Written(a + 1, a, 1);
    } else if a > 0 {
      assert t.cells[0] == r.cells[0] && Written(0, a, 1);
    }
  }

  // ----- consuming a used buffer -----

  function RegsAfterConsume(g: Regs, num: nat, n: nat): Regs
    requires LastUsed(g.lastUsedIdx) < num && n <= num
  {
    var u, w := LastUsed(g.lastUsedIdx), UsedWrap(g.lastUsedIdx);
    g.(lastUsedIdx := EncodeUsed(Slot(u, n, num), Lap(u, w, n, num)), numFree := g.numFree + n)
  }

  lemma ConsumeFits(slots: seq<Desc>, g: Regs, out: map<nat, seq<nat>>, r: Ring)
    requires Fits(slots, g, out, r) && MoreUsed(r)
    ensures r.used != [] && r.cells[0].id == r.used[0].id && r.cells[0].id in out && |out[r.cells[0].id]| <= |slots|
    ensures var id := r.cells[0].id;
            Fits(slots, RegsAfterConsume(g, |slots|, |out[id]|), Without(out, id), Next(r, Consume))
  {
    hide Bits, UsedElements, Published, Pending, Tracked, EndToEnd, Turned;
    MoreUsedExact(r);
    FirstEnds(r.used, r.U, r.P);
    ConsumeKeeps(r);
    var id := r.cells[0].id;
    var n := |out[id]|;
    var u, w := LastUsed(g.lastUsedIdx), UsedWrap(g.lastUsedIdx);
    TurnShows(slots, u, w, r, n, Next(r, Consume));
    EncodeUsedExact(Slot(u, n, |slots|), Lap(u, w, n, |slots|));
  }

  // ----- what the device does -----

  lemma DevReadFits(slots: seq<Desc>, g: Regs, out: map<nat, seq<nat>>, r: Ring, n: nat)
    requires Fits(slots, g, out, r) && Enabled(r, DevRead(n))
    ensures Fits(slots, g, out, Next(r, DevRead(n)))
  {
    hide Queues, Bits, UsedElements, Published, Pending, Shows;
    DeviceSeesExact(r);
    DevReadKeeps(r, n);
    FirstEntry(r);
    assert Shows(slots, LastUsed(g.lastUsedIdx), UsedWrap(g.lastUsedIdx), Next(r, DevRead(n))) by {
      ShowsDepends(slots, LastUsed(g.lastUsedIdx), UsedWrap(g.lastUsedIdx), r, Next(r, DevRead(n)));
    }
  }

  lemma FirstEntry(r: Ring)
    requires Inv(r) && r.avail != []
    ensures r.avail[0].id in r.table && r.table[r.avail[0].id].n == r.avail[0].n
  {
    Member(r.table, r.avail, Avail, 0);
  }

  lemma DevUseFits(slots: seq<Desc>, g: Regs, out: map<nat, seq<nat>>, r: Ring, i: nat, d: Desc)
    requires Fits(slots, g, out, r) && Enabled(r, DevUse(i, d))
    ensures r.P - r.U < |slots|
    ensures Fits(slots[Slot(LastUsed(g.lastUsedIdx), r.P - r.U, |slots|) := d], g, out, Next(r, DevUse(i, d)))
  {
    hide Bits, UsedElements, Published, Pending, EndToEnd;
    DevUseKeeps(r, i, d);
    Member(r.table, r.held, Held, i);
    hide Tracked;
    var u, w := LastUsed(g.lastUsedIdx), UsedWrap(g.lastUsedIdx);
    WriteShows(slots, u, w, r, r.P - r.U, d);
    ShowsDepends(slots[Slot(u, r.P - r.U, |slots|) := d], u, w, r.(cells := r.cells[r.P - r.U := d]),
        Next(r, DevUse(i, d)));
  }

  /** The register of the next available slot and its wrap counter are position A. */
  lemma RegistersTellA(slots: seq<Desc>, g: Regs, out: map<nat, seq<nat>>, r: Ring)
    requires Fits(slots, g, out, r)
    ensures 0 < |slots| <= WRAP_BIT && g.nextAvail == r.A % |slots| && g.availWrap == Even(r.A, |slots|)
    ensures r.U <= r.P <= r.D <= r.A <= r.U + |slots| && g.kicked + g.numAdded == r.A
    ensures LastUsed(g.lastUsedIdx) == r.U % |slots| && UsedWrap(g.lastUsedIdx) == Even(r.U, |slots|)
  {
    hide Queues, Bits, UsedElements, Published, Pending, Even;
    PositionShows(r.U, r.A - r.U, |slots|);
  }
}
