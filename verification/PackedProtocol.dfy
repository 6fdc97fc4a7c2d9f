/**
 * The packed virtqueue as a shared-memory protocol (section 2.8 of VIRTIO 1.2): one store of the driver
 * or one action of a conforming device at a time.
 *
 * Positions U <= P <= D <= A <= U + num count descriptors for ever and never wrap; the memory and the
 * two sides only ever see a slot index and a one-bit lap parity.
 */
module PackedProtocol {

  datatype Flags = Flags(next: bool, write: bool, indirect: bool, avail: bool, used: bool)

  datatype Desc = Desc(addr: nat, len: nat, id: nat, flags: Flags)

  /** A buffer of `n` descriptors; `at` is the position of its first descriptor in the queue it waits in. */
  datatype Buf = Buf(id: nat, n: nat, at: nat)

  /** Where an outstanding buffer is: published, read by the device, or written back. */
  datatype Phase = Avail | Held | Used

  /** An outstanding buffer id as the driver recorded it, and where it is. */
  datatype Entry = Entry(n: nat, phase: Phase)

  /**
   * cells, laps: the ring as seen from position U on: descriptor and lap parity of positions U, U + 1, ...
   * U: driver has consumed up to here; P: device has used up to here; D: device has read up to here;
   * A: driver has published up to here.
   * used, held, avail: buffers written back, read by the device, published but unread.
   * pend: descriptors of the chain being added that are stored so far (flags of the first one withheld).
   */
  datatype Ring = Ring(cells: seq<Desc>, laps: seq<bool>, U: nat, P: nat, D: nat, A: nat,
                       used: seq<Buf>, held: seq<Buf>, avail: seq<Buf>, pend: seq<Desc>,
                       table: map<nat, Entry>)

  // ----- the invariant, piece by piece -----

  ghost predicate Shape(r: Ring) {
    && r.cells != [] && |r.laps| == |r.cells| + 1 && r.laps[|r.cells|] == !r.laps[0]
    && r.U <= r.P <= r.D <= r.A && r.A + |r.pend| <= r.U + |r.cells|
  }

  /** Buffers lying end to end from one position to another. */
  ghost predicate EndToEnd(q: seq<Buf>, from: nat, to: nat) {
    && (if q == [] then from == to else q[0].at == from && q[|q| - 1].at + q[|q| - 1].n == to)
    && (forall j :: 0 <= j < |q| ==> from <= q[j].at && 1 <= q[j].n && q[j].at + q[j].n <= to)
    && (forall i, j :: 0 <= i < j < |q| ==> q[i].at + q[i].n <= q[j].at && (j == i + 1 ==> q[j].at == q[i].at + q[i].n))
  }

  ghost predicate Tracked(table: map<nat, Entry>, q: seq<Buf>, phase: Phase) {
    && (forall j :: 0 <= j < |q| ==> q[j].id in table && table[q[j].id] == Entry(q[j].n, phase) && 1 <= q[j].n)
    && (forall i, j :: 0 <= i < j < |q| ==> q[i].id != q[j].id)
  }

  ghost function Descs(q: seq<Buf>): nat {
    if q == [] then 0 else Descs(q[..|q| - 1]) + q[|q| - 1].n
  }

  ghost predicate Queues(r: Ring) {
    && EndToEnd(r.used, r.U, r.P) && EndToEnd(r.avail, r.D, r.A) && r.D == r.P + Descs(r.held)
    && Tracked(r.table, r.used, Used) && Tracked(r.table, r.held, Held) && Tracked(r.table, r.avail, Avail)
  }

  /** Cell k carries the driver's mark of the current lap; a is the first unpublished cell, n cells follow it half done.
      */
  ghost predicate Written(k: nat, a: nat, n: nat) {
    k < a || a < k < a + n
  }

  /** AVAIL tells the lap of the driver's last write to a cell, USED whether the device wrote it back since. */
  ghost predicate Bits(cells: seq<Desc>, laps: seq<bool>, p: nat, a: nat, n: nat)
    requires |laps| == |cells| + 1
  {
    && (forall k :: 0 <= k < |cells| ==> cells[k].flags.avail == (Written(k, a, n) == laps[k]))
    && (forall k :: 0 <= p <= k < |cells| && Written(k, a, n) ==> cells[k].flags.used == !laps[k])
  }

  ghost predicate UsedElement(cells: seq<Desc>, laps: seq<bool>, U: nat, b: Buf)
    requires |laps| == |cells| + 1
  {
    U <= b.at < U + |cells| && cells[b.at - U].id == b.id && cells[b.at - U].flags.used == laps[b.at - U]
  }

  ghost predicate UsedElements(cells: seq<Desc>, laps: seq<bool>, U: nat, used: seq<Buf>)
    requires |laps| == |cells| + 1
  {
    forall j :: 0 <= j < |used| ==> UsedElement(cells, laps, U, used[j])
  }

  ghost predicate Chain(cells: seq<Desc>, U: nat, b: Buf) {
    && U <= b.at && b.at + b.n <= U + |cells|
    && (forall k :: b.at - U <= k < b.at - U + b.n ==> cells[k].id == b.id &&
                                                       cells[k].flags.next == (k < b.at - U + b.n - 1))
  }

  ghost predicate Published(cells: seq<Desc>, U: nat, avail: seq<Buf>) {
    forall j :: 0 <= j < |avail| ==> Chain(cells, U, avail[j])
  }

  ghost predicate Pending(cells: seq<Desc>, laps: seq<bool>, a: nat, pend: seq<Desc>, table: map<nat, Entry>)
    requires |laps| == |cells| + 1 && a + |pend| <= |cells|
  {
    && (pend != [] ==> pend[0].id !in table && cells[a] == pend[0].(flags := cells[a].flags))
    && (forall j :: 1 <= j < |pend| ==> cells[a + j] == pend[j])
    && (forall j :: 0 <= j < |pend| ==>
          pend[j].id == pend[0].id && pend[j].flags.avail == laps[a + j] && pend[j].flags.used == !laps[a + j])
    && (forall j :: 0 <= j < |pend| - 1 ==> pend[j].flags.next)
  }

  ghost predicate Inv(r: Ring) {
    && Shape(r) && Queues(r)
    && Bits(r.cells, r.laps, r.P - r.U, r.A - r.U, |r.pend|)
    && UsedElements(r.cells, r.laps, r.U, r.used)
    && Published(r.cells, r.U, r.avail)
    && Pending(r.cells, r.laps, r.A - r.U, r.pend, r.table)
  }

  ghost function Start(num: nat): Ring {
    var zero := Desc(0, 0, 0, Flags(false, false, false, false, false));
    Ring(seq(num, _ => zero), seq(num + 1, k => k < num), 0, 0, 0, 0, [], [], [], [], map[])
  }

  lemma StartInv(num: nat)
    requires num > 0
    ensures Inv(Start(num))
  {
  }

  // ----- what the two sides look at, and that it is exact -----

  /** The slot of position U + num is the slot of U. */
  ghost function At(r: Ring, p: nat): Desc
    requires r.cells != [] && r.U <= p < r.U + 2 * |r.cells|
  {
    var k := p - r.U;
    if k < |r.cells| then r.cells[k] else r.cells[k - |r.cells|]
  }

  /** The driver's test on the slot it expects to be written back next. */
  ghost predicate MoreUsed(r: Ring)
    requires Shape(r)
  {
    var f := r.cells[0].flags;
    f.avail == f.used && f.used == r.laps[0]
  }

  /** The device's test on the slot it expects to be published next. */
  ghost predicate DeviceSees(r: Ring)
    requires Shape(r)
  {
    var f := At(r, r.D).flags;
    f.avail == r.laps[r.D - r.U] && f.used != r.laps[r.D - r.U]
  }

  /** Following the NEXT flags from the device's position ends after exactly n descriptors. */
  ghost predicate ReadsChain(r: Ring, n: nat)
    requires Shape(r)
  {
    && 1 <= n && r.D + n <= r.U + 2 * |r.cells|
    && (forall p :: r.D <= p < r.D + n - 1 ==> At(r, p).flags.next)
    && !At(r, r.D + n - 1).flags.next
  }

  /** The driver's test is true exactly when the device has written back something not yet consumed. */
  lemma MoreUsedExact(r: Ring)
    requires Inv(r)
    ensures MoreUsed(r) <==> r.U < r.P
    ensures MoreUsed(r) ==> r.used != [] && r.cells[0].id == r.used[0].id
                            && r.cells[0].id in r.table && r.table[r.cells[0].id].n == r.used[0].n
  {
    if r.used != [] {
      assert UsedElement(r.cells, r.laps, r.U, r.used[0]);
    }
  }

  lemma FirstEnds(q: seq<Buf>, from: nat, to: nat)
    requires EndToEnd(q, from, to) && q != []
    ensures q[0].at == from && 1 <= q[0].n && from + q[0].n <= to
  {
  }

  lemma ChainEndsOnce(r: Ring, b: Buf, n: nat)
    requires Shape(r) && ReadsChain(r, n) && Chain(r.cells, r.U, b) && b.at == r.D && 1 <= b.n
    ensures n == b.n
  {
    assert forall p :: r.D <= p < r.D + b.n ==> At(r, p) == r.cells[p - r.U];
    assert !At(r, r.D + b.n - 1).flags.next;
  }

  /**
   * The device's test is true exactly when a published chain is waiting, also while the driver is in the
   * middle of storing the next chain; and the chain it then reads is the one that was published.
   */
  lemma DeviceSeesExact(r: Ring)
    requires Inv(r)
    ensures DeviceSees(r) <==> r.D < r.A
    ensures DeviceSees(r) ==> r.avail != []
    ensures forall n: nat :: DeviceSees(r) && ReadsChain(r, n) ==>
              n == r.avail[0].n && r.D + n <= r.A && At(r, r.D + n - 1).id == r.avail[0].id
  {
    hide EndToEnd, Tracked, Descs, UsedElements, Pending, ReadsChain;
    SeesExact(r);
    if r.D < r.A {
      FirstAvail(r);
      FirstEnds(r.avail, r.D, r.A);
      assert Chain(r.cells, r.U, r.avail[0]);
      forall n: nat | ReadsChain(r, n) ensures n == r.avail[0].n { ChainEndsOnce(r, r.avail[0], n); }
    }
  }

  lemma SeesExact(r: Ring)
    requires Inv(r)
    ensures DeviceSees(r) <==> r.D < r.A
  {
    hide EndToEnd, Tracked, Descs, UsedElements, Published, Pending;
  }

  lemma FirstAvail(r: Ring)
    requires Inv(r) && r.D < r.A
    ensures r.avail != []
  {
    hide Tracked, Descs, UsedElements, Bits, Published, Pending;
  }

  // ----- steps -----

  datatype Step =
    | Store(d: Desc)            // driver: fill the next descriptor, the flags of the head withheld
    | Publish                   // driver: store the flags of the head
    | Consume                   // driver: take back the buffer whose used element is next
    | DevRead(n: nat)           // device: read a published chain
    | DevUse(i: nat, d: Desc)   // device: write back one of the buffers it holds, in any order

  ghost predicate Enabled(r: Ring, s: Step)
    requires Shape(r)
  {
    match s
    case Store(d) =>
      var k := r.A - r.U + |r.pend|;
      && k < |r.cells|
      && d.flags.avail == r.laps[k] && d.flags.used == !r.laps[k]
      && d.id !in r.table
      && (r.pend != [] ==> d.id == r.pend[0].id && r.pend[|r.pend| - 1].flags.next)
    case Publish => r.pend != [] && !r.pend[|r.pend| - 1].flags.next
    case Consume => r.pend == [] && MoreUsed(r)
    case DevRead(n) => DeviceSees(r) && ReadsChain(r, n)
    case DevUse(i, d) =>
      && i < |r.held| && d.id == r.held[i].id && r.P < r.D
      && d.flags.avail == r.laps[r.P - r.U] && d.flags.used == r.laps[r.P - r.U]
  }

  ghost function Turned(laps: seq<bool>, n: nat): seq<bool>
    requires n < |laps|
  {
    laps[n..] + seq(n, k requires 0 <= k < n => !laps[k + 1])
  }

  /** Each step touches one cell, and reads nothing but the cells and its own side's records. */
  ghost function Next(r: Ring, s: Step): Ring
    requires Inv(r) && Enabled(r, s)
  {
    match s
    case Store(d) =>
      var k := r.A - r.U + |r.pend|;
      r.(cells := r.cells[k := if r.pend == [] then d.(flags := r.cells[k].flags) else d], pend := r.pend + [d])
    case Publish =>
      var a, id, n := r.A - r.U, r.pend[0].id, |r.pend|;
      r.(cells := r.cells[a := r.cells[a].(flags := r.pend[0].flags)], A := r.A + n, pend := [],
         avail := r.avail + [Buf(id, n, r.A)], table := r.table[id := Entry(n, Avail)])
    case Consume =>
      MoreUsedExact(r);
      var id := r.cells[0].id;
      var n := r.table[id].n;
      r.(cells := r.cells[n..] + r.cells[..n], laps := Turned(r.laps, n), U := r.U + n,
         used := r.used[1..], table := r.table - {id})
    case DevRead(n) =>
      DeviceSeesExact(r);
      var id := At(r, r.D + n - 1).id;
      r.(D := r.D + n, held := r.held + [Buf(id, n, r.D)], avail := r.avail[1..],
          table := r.table[id := Entry(n, Held)])
    case DevUse(i, d) =>
      var b := r.held[i];
      r.(cells := r.cells[r.P - r.U := d], P := r.P + b.n, held := r.held[..i] + r.held[i + 1..],
         used := r.used + [Buf(b.id, b.n, r.P)], table := r.table[b.id := Entry(b.n, Used)])
  }

  // ----- every step keeps the invariant -----

  lemma {:induction false} DescsRemove(q: seq<Buf>, i: nat)
    requires i < |q|
    ensures Descs(q) == Descs(q[..i] + q[i + 1..]) + q[i].n
  {
    var last := |q| - 1;
    if i < last {
      DescsRemove(q[..last], i);
      assert (q[..i] + q[i + 1..])[..last - 1] == q[..last][..i] + q[..last][i + 1..];
    } else {
      assert q[..i] + q[i + 1..] == q[..last];
    }
  }

  // The cells first: each lemma names only the part of the state it needs.

  /** Used elements survive when the cells up to P do. */
  lemma UsedStay(cells: seq<Desc>, cells': seq<Desc>, laps: seq<bool>, U: nat, to: nat, used: seq<Buf>)
    requires |laps| == |cells| + 1 && |cells'| == |cells| && EndToEnd(used, U, to) && to <= U + |cells|
    requires UsedElements(cells, laps, U, used)
    requires forall k :: 0 <= k < to - U ==> cells'[k] == cells[k]
    ensures UsedElements(cells', laps, U, used)
  {
    forall j | 0 <= j < |used| ensures UsedElement(cells', laps, U, used[j]) {
      assert UsedElement(cells, laps, U, used[j]);
    }
  }

  lemma UsedPush(cells: seq<Desc>, laps: seq<bool>, U: nat, used: seq<Buf>, b: Buf)
    requires |laps| == |cells| + 1 && UsedElements(cells, laps, U, used) && UsedElement(cells, laps, U, b)
    ensures UsedElements(cells, laps, U, used + [b])
  {
  }

  /** Published chains survive when the cells from D to A do. */
  lemma PublishedStay(cells: seq<Desc>, cells': seq<Desc>, U: nat, from: nat, to: nat, avail: seq<Buf>)
    requires |cells'| == |cells| && EndToEnd(avail, from, to) && U <= from && to <= U + |cells|
    requires Published(cells, U, avail)
    requires forall k :: from - U <= k < to - U ==> cells'[k] == cells[k]
    ensures Published(cells', U, avail)
  {
    forall j | 0 <= j < |avail| ensures Chain(cells', U, avail[j]) {
      assert Chain(cells, U, avail[j]);
    }
  }

  lemma StoreCells(cells: seq<Desc>, laps: seq<bool>, p: nat, a: nat, pend: seq<Desc>, d: Desc,
                   table: map<nat, Entry>, cells': seq<Desc>)
    requires |laps| == |cells| + 1 && a + |pend| < |cells| && p <= a
    requires Bits(cells, laps, p, a, |pend|) && Pending(cells, laps, a, pend, table)
    requires cells' == cells[a + |pend| := if pend == [] then d.(flags := cells[a].flags) else d]
    requires d.flags.avail == laps[a + |pend|] && d.flags.used == !laps[a + |pend|] && d.id !in table
    requires pend != [] ==> d.id == pend[0].id && pend[|pend| - 1].flags.next
    ensures Bits(cells', laps, p, a, |pend| + 1) && Pending(cells', laps, a, pend + [d], table)
  {
  }

  lemma PublishCells(cells: seq<Desc>, laps: seq<bool>, U: nat, p: nat, a: nat, pend: seq<Desc>,
                     table: map<nat, Entry>, cells': seq<Desc>)
    requires |laps| == |cells| + 1 && pend != [] && a + |pend| <= |cells| && p <= a
    requires Bits(cells, laps, p, a, |pend|) && Pending(cells, laps, a, pend, table)
    requires cells' == cells[a := cells[a].(flags := pend[0].flags)] && !pend[|pend| - 1].flags.next
    ensures Bits(cells', laps, p, a + |pend|, 0) && Chain(cells', U, Buf(pend[0].id, |pend|, U + a))
  {
    forall k | a <= k < a + |pend| ensures cells'[k] == pend[k - a] {
      assert a < k ==> cells[a + (k - a)] == pend[k - a];
    }
  }

  lemma TurnBits(cells: seq<Desc>, laps: seq<bool>, p: nat, a: nat, n: nat, cells': seq<Desc>, laps': seq<bool>)
    requires |laps| == |cells| + 1 && laps[|cells|] == !laps[0] && n <= p <= a <= |cells| && 0 < |cells|
    requires Bits(cells, laps, p, a, 0)
    requires cells' == cells[n..] + cells[..n] && laps' == Turned(laps, n)
    ensures |laps'| == |laps| && laps'[|cells|] == !laps'[0] && Bits(cells', laps', p - n, a - n, 0)
  {
  }

  lemma TurnUsed(cells: seq<Desc>, laps: seq<bool>, U: nat, p: nat, n: nat, used: seq<Buf>,
                 cells': seq<Desc>, laps': seq<bool>)
    requires |laps| == |cells| + 1 && n <= p <= |cells|
    requires UsedElements(cells, laps, U, used) && EndToEnd(used, U, U + p) && used != [] && n == used[0].n
    requires cells' == cells[n..] + cells[..n] && laps' == Turned(laps, n)
    ensures UsedElements(cells', laps', U + n, used[1..])
  {
    forall j | 0 <= j < |used[1..]| ensures UsedElement(cells', laps', U + n, used[1..][j]) {
      assert UsedElement(cells, laps, U, used[j + 1]);
    }
  }

  lemma TurnPublished(cells: seq<Desc>, U: nat, n: nat, from: nat, to: nat, avail: seq<Buf>, cells': seq<Desc>)
    requires n <= |cells| && Published(cells, U, avail) && EndToEnd(avail, from, to) && U + n <= from
    requires to <= U + |cells| && cells' == cells[n..] + cells[..n]
    ensures Published(cells', U + n, avail)
  {
    forall j | 0 <= j < |avail| ensures Chain(cells', U + n, avail[j]) {
      assert Chain(cells, U, avail[j]);
    }
  }

  lemma UseCells(cells: seq<Desc>, laps: seq<bool>, p: nat, n: nat, a: nat, d: Desc, pend: seq<Desc>,
                 table: map<nat, Entry>, table': map<nat, Entry>, cells': seq<Desc>)
    requires |laps| == |cells| + 1 && 1 <= n && p + n <= a && a + |pend| <= |cells|
    requires Bits(cells, laps, p, a, |pend|) && Pending(cells, laps, a, pend, table) && table'.Keys == table.Keys
    requires cells' == cells[p := d] && d.flags.avail == laps[p] && d.flags.used == laps[p]
    ensures Bits(cells', laps, p + n, a, |pend|) && Pending(cells', laps, a, pend, table')
  {
  }

  // Then the queues.

  lemma TrackedPush(table: map<nat, Entry>, q: seq<Buf>, phase: Phase, b: Buf)
    requires Tracked(table, q, phase) && 1 <= b.n && (b.id in table ==> table[b.id].phase != phase)
    ensures Tracked(table[b.id := Entry(b.n, phase)], q + [b], phase)
  {
  }

  lemma Push(q: seq<Buf>, from: nat, to: nat, b: Buf, table: map<nat, Entry>, phase: Phase)
    requires EndToEnd(q, from, to) && b.at == to && 1 <= b.n && Tracked(table, q, phase)
    requires b.id in table ==> table[b.id].phase != phase
    ensures EndToEnd(q + [b], from, to + b.n) && Tracked(table[b.id := Entry(b.n, phase)], q + [b], phase)
  {
    TrackedPush(table, q, phase, b);
  }

  lemma Pop(q: seq<Buf>, from: nat, to: nat)
    requires EndToEnd(q, from, to) && q != []
    ensures EndToEnd(q[1..], from + q[0].n, to)
  {
  }

  /** A queue does not notice what happens to a buffer that is not in it. */
  lemma Elsewhere(table: map<nat, Entry>, table': map<nat, Entry>, q: seq<Buf>, phase: Phase, id: nat)
    requires Tracked(table, q, phase) && (id in table ==> table[id].phase != phase)
    requires forall x :: x in table && x != id ==> x in table' && table'[x] == table[x]
    ensures Tracked(table', q, phase)
  {
  }

  lemma Member(table: map<nat, Entry>, q: seq<Buf>, phase: Phase, j: nat)
    requires Tracked(table, q, phase) && j < |q|
    ensures q[j].id in table && table[q[j].id] == Entry(q[j].n, phase) && 1 <= q[j].n
  {
  }

  lemma Removed(table: map<nat, Entry>, q: seq<Buf>, phase: Phase, i: nat, table': map<nat, Entry>)
    requires Tracked(table, q, phase) && i < |q|
    requires forall x :: x in table && x != q[i].id ==> x in table' && table'[x] == table[x]
    ensures Tracked(table', q[..i] + q[i + 1..], phase)
  {
  }

  lemma DescsPush(q: seq<Buf>, b: Buf)
    ensures Descs(q + [b]) == Descs(q) + b.n
  {
    assert (q + [b])[..|q|] == q;
  }

  lemma StoreKeeps(r: Ring, d: Desc)
    requires Inv(r) && Enabled(r, Store(d))
    ensures Inv(Next(r, Store(d)))
  {
    hide EndToEnd, Tracked, Bits, UsedElements, Published, Pending;
    var r' := Next(r, Store(d));
    StoreCells(r.cells, r.laps, r.P - r.U, r.A - r.U, r.pend, d, r.table, r'.cells);
    UsedStay(r.cells, r'.cells, r.laps, r.U, r.P, r.used);
    PublishedStay(r.cells, r'.cells, r.U, r.D, r.A, r.avail);
  }

  lemma PublishKeeps(r: Ring)
    requires Inv(r) && Enabled(r, Publish)
    ensures Inv(Next(r, Publish))
  {
    hide EndToEnd, Tracked, Bits, UsedElements, Chain;
    var r' := Next(r, Publish);
    var b := Buf(r.pend[0].id, |r.pend|, r.A);
    PublishCells(r.cells, r.laps, r.U, r.P - r.U, r.A - r.U, r.pend, r.table, r'.cells);
    UsedStay(r.cells, r'.cells, r.laps, r.U, r.P, r.used);
    PublishedStay(r.cells, r'.cells, r.U, r.D, r.A, r.avail);
    Push(r.avail, r.D, r.A, b, r.table, Avail);
    Elsewhere(r.table, r'.table, r.used, Used, b.id);
    Elsewhere(r.table, r'.table, r.held, Held, b.id);
  }

  lemma ConsumeFields(r: Ring)
    requires Inv(r) && Enabled(r, Consume)
    ensures r.used != [] && Next(r, Consume) == r.(cells := Next(r, Consume).cells, laps := Next(r, Consume).laps,
                                                   U := r.U + r.used[0].n, used := r.used[1..],
                                                       table := r.table - {r.used[0].id})
    ensures Shape(r) && Queues(r)
  {
    hide EndToEnd, Tracked, Bits, UsedElements, Published, Pending, MoreUsed, Turned, Descs, Queues;
    MoreUsedExact(r);
  }

  /** What the queues see of it. */
  lemma ConsumeSeen(r: Ring)
    requires Inv(r) && Enabled(r, Consume)
    ensures r.used != [] && Queues(r)
    ensures var r' := Next(r, Consume);
            && r'.U == r.U + r.used[0].n && r'.P == r.P && r'.D == r.D && r'.A == r.A
            && r'.used == r.used[1..] && r'.held == r.held && r'.avail == r.avail
            && forall x :: x in r.table && x != r.used[0].id ==> x in r'.table && r'.table[x] == r.table[x]
  {
    hide Inv, Enabled, Next, Queues;
    ConsumeFields(r);
  }

  lemma ConsumeQueues(r: Ring)
    requires Inv(r) && Enabled(r, Consume)
    ensures Queues(Next(r, Consume))
  {
    hide EndToEnd, Tracked, Inv, Enabled, Shape, Next, Descs;
    ConsumeSeen(r);
    var r' := Next(r, Consume);
    var b := r.used[0];
    Member(r.table, r.used, Used, 0);
    Pop(r.used, r.U, r.P);
    Removed(r.table, r.used, Used, 0, r'.table);
    assert r.used[..0] + r.used[1..] == r'.used;
    Elsewhere(r.table, r'.table, r.avail, Avail, b.id);
    Elsewhere(r.table, r'.table, r.held, Held, b.id);
  }

  lemma ConsumeKeeps(r: Ring)
    requires Inv(r) && Enabled(r, Consume)
    ensures Inv(Next(r, Consume)) && |Next(r, Consume).cells| == |r.cells|
  {
    hide EndToEnd, Tracked, Bits, UsedElements, Published, MoreUsed, Turned, Descs;
    ConsumeQueues(r);
    MoreUsedExact(r);
    var r' := Next(r, Consume);
    FirstEnds(r.used, r.U, r.P);
    var n := r.used[0].n;
    TurnBits(r.cells, r.laps, r.P - r.U, r.A - r.U, n, r'.cells, r'.laps);
    TurnUsed(r.cells, r.laps, r.U, r.P - r.U, n, r.used, r'.cells, r'.laps);
    TurnPublished(r.cells, r.U, n, r.D, r.A, r.avail, r'.cells);
  }

  /** What the queues see of a device read. */
  lemma DevReadSeen(r: Ring, n: nat)
    requires Inv(r) && Enabled(r, DevRead(n))
    ensures Queues(r) && r.avail != [] && n == r.avail[0].n && r.avail[0].at == r.D
    ensures var r' := Next(r, DevRead(n)); var id := r.avail[0].id;
            && r'.U == r.U && r'.P == r.P && r'.D == r.D + n && r'.A == r.A
            && r'.used == r.used && r'.held == r.held + [Buf(id, n, r.D)] && r'.avail == r.avail[1..]
            && r'.table == r.table[id := Entry(n, Held)]
  {
    hide Tracked, Bits, UsedElements, Published, Pending, DeviceSees, ReadsChain, Descs, At;
    DeviceSeesExact(r);
    FirstEnds(r.avail, r.D, r.A);
  }

  lemma DevReadQueues(r: Ring, n: nat)
    requires Inv(r) && Enabled(r, DevRead(n))
    ensures Queues(Next(r, DevRead(n)))
  {
    hide EndToEnd, Tracked, Inv, Enabled, Next, Descs;
    DevReadSeen(r, n);
    var r' := Next(r, DevRead(n));
    Member(r.table, r.avail, Avail, 0);
    Pop(r.avail, r.D, r.A);
    DescsPush(r.held, Buf(r.avail[0].id, n, r.D));
    Removed(r.table, r.avail, Avail, 0, r'.table);
    assert r.avail[..0] + r.avail[1..] == r'.avail;
    Elsewhere(r.table, r'.table, r.used, Used, r.avail[0].id);
    TrackedPush(r.table, r.held, Held, Buf(r.avail[0].id, n, r.D));
  }

  lemma DevReadKeeps(r: Ring, n: nat)
    requires Inv(r) && Enabled(r, DevRead(n))
    ensures Inv(Next(r, DevRead(n)))
  {
    hide EndToEnd, Bits, UsedElements, Chain, DeviceSees, ReadsChain, Descs;
    DevReadQueues(r, n);
    DeviceSeesExact(r);
    FirstEnds(r.avail, r.D, r.A);
    assert r.avail[0].id in r.table;
  }

  lemma DevUseQueues(r: Ring, i: nat, d: Desc)
    requires Inv(r) && Enabled(r, DevUse(i, d))
    ensures Queues(Next(r, DevUse(i, d))) && 1 <= r.held[i].n && r.P + r.held[i].n <= r.D
  {
    hide EndToEnd, Tracked, Bits, Published, Pending, UsedElements, Descs;
    DescsRemove(r.held, i);
    var b := r.held[i];
    var r' := Next(r, DevUse(i, d));
    Member(r.table, r.held, Held, i);
    Push(r.used, r.U, r.P, Buf(b.id, b.n, r.P), r.table, Used);
    Removed(r.table, r.held, Held, i, r'.table);
    Elsewhere(r.table, r'.table, r.avail, Avail, b.id);
  }

  lemma DevUseKeeps(r: Ring, i: nat, d: Desc)
    requires Inv(r) && Enabled(r, DevUse(i, d))
    ensures Inv(Next(r, DevUse(i, d)))
  {
    hide EndToEnd, Tracked, Bits, Published, Pending, UsedElements, Descs;
    var b := r.held[i];
    var r' := Next(r, DevUse(i, d));
    DevUseQueues(r, i, d);
    Member(r.table, r.held, Held, i);
    UseCells(r.cells, r.laps, r.P - r.U, b.n, r.A - r.U, d, r.pend, r.table, r'.table, r'.cells);
    UsedStay(r.cells, r'.cells, r.laps, r.U, r.P, r.used);
    PublishedStay(r.cells, r'.cells, r.U, r.D, r.A, r.avail);
    UsedPush(r'.cells, r.laps, r.U, r.used, Buf(b.id, b.n, r.P));
  }

  lemma StepKeeps(r: Ring, s: Step)
    requires Inv(r) && Enabled(r, s)
    ensures Inv(Next(r, s)) && |Next(r, s).cells| == |r.cells|
  {
    hide Queues, Bits, UsedElements, Published, Pending, Descs;
    match s
    case Store(d) => StoreKeeps(r, d);
    case Publish => PublishKeeps(r);
    case Consume => ConsumeKeeps(r);
    case DevRead(n) => DevReadKeeps(r, n);
    case DevUse(i, d) => DevUseKeeps(r, i, d);
  }

  // ----- whole runs -----

  /** A step is possible whenever its own side's test allows it; what it does is only fixed by Next. */
  ghost predicate Moves(r: Ring, s: Step, r': Ring) {
    Shape(r) && Enabled(r, s) && (Inv(r) ==> r' == Next(r, s))
  }

  /** In every state of every run the positions are ordered and both tests are exact. */
  lemma {:induction false} EveryRun(num: nat, states: seq<Ring>, steps: seq<Step>, i: nat)
    requires num > 0 && |states| == |steps| + 1 && states[0] == Start(num) && i < |states|
    requires forall j :: 0 <= j < |steps| ==> Moves(states[j], steps[j], states[j + 1])
    ensures var r := states[i];
            && Inv(r) && r.U <= r.P <= r.D <= r.A <= r.U + num && |r.cells| == num
            && (MoreUsed(r) <==> r.U < r.P) && (DeviceSees(r) <==> r.D < r.A)
  {
    hide EndToEnd, Tracked, Bits, UsedElements, Published, Pending, MoreUsed, DeviceSees, Queues;
    if i == 0 {
      StartInv(num);
    } else {
      EveryRun(num, states, steps, i - 1);
      assert Moves(states[i - 1], steps[i - 1], states[i]);
      StepKeeps(states[i - 1], steps[i - 1]);
    }
    MoreUsedExact(states[i]);
    DeviceSeesExact(states[i]);
  }

  // ----- giving up a half-stored chain -----

  /** Dropping a chain of which only the head is stored, its flags withheld, is harmless. */
  lemma AbandonKeeps(r: Ring)
    requires Inv(r) && |r.pend| == 1
    ensures Inv(r.(pend := []))
  {
    hide EndToEnd, Tracked, Descs, UsedElements, Published;
  }
}
