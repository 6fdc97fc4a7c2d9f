/** Buffers handed to a virtqueue, and the DMA mappings made for them. */
module Dma {
  import opened Options

  /** One scatter-gather entry: physical address and length. */
  datatype Sg = Sg(phys: nat, len: nat)

  /** A live streaming mapping; `single` ones are indirect tables, the others are pages of a buffer. */
  datatype Mapping = Mapping(addr: nat, len: nat, fromDevice: bool, single: bool)

  /** One entry of an indirect descriptor table. */
  datatype TableDesc = TableDesc(addr: nat, len: nat, write: bool)

  /** What the driver keeps beside an outstanding buffer: nothing, its indirect table, or the caller's context. */
  datatype Aside = Nothing | Table(descs: seq<TableDesc>) | Context(ctx: nat)

  const DESC_SIZE := 16

  datatype Status = Ok | NoSpace | NoMemory | IoError

  /** The streaming mappings of one queue. Only Map and Unmap change them. */
  class Iommu {
    ghost var live: multiset<Mapping>

    constructor ()
      ensures live == multiset{}
    {
      live := multiset{};
    }

    /** dma_map_page and dma_map_single; `answer` is what the IOMMU says (None: it fails). */
    method Map(answer: Option<nat>, len: nat, fromDevice: bool, single: bool) returns (addr: Option<nat>)
      modifies this
      ensures addr == answer
      ensures live == old(live) + if addr.None? then multiset{}
            else multiset{Mapping(addr.value, len, fromDevice, single)}
    {
      addr := answer;
      if addr.Some? {
        live := live + multiset{Mapping(addr.value, len, fromDevice, single)};
      }
    }

    /** dma_unmap_page and dma_unmap_single: only what is mapped may be unmapped. */
    method Unmap(addr: nat, len: nat, fromDevice: bool, single: bool)
      requires Mapping(addr, len, fromDevice, single) in live
      modifies this
      ensures live == old(live) - multiset{Mapping(addr, len, fromDevice, single)}
    {
      live := live - multiset{Mapping(addr, len, fromDevice, single)};
    }
  }

  /** The mappings from i on are the i-th and those after it. */
  lemma NextOut(ms: seq<Mapping>, i: nat)
    requires i < |ms|
    ensures multiset(ms[i..]) == multiset{ms[i]} + multiset(ms[i + 1..])
  {
    assert ms[i..] == [ms[i]] + ms[i + 1..];
  }

  /** A request: entries from nOut on are written by the device; `answers` is what the IOMMU says to each mapping
      attempt (None: it fails). An indirect table, if one can be allocated, lies at tablePhys and mapping it
      yields tableAnswer, after the entries have been mapped for it with tableAnswers. */
  datatype Request = Request(sgs: seq<Sg>, nOut: nat, answers: seq<Option<nat>>, tableAnswers: seq<Option<nat>>,
                             gotTable: bool, tablePhys: nat, tableAnswer: Option<nat>)

  predicate WellFormed(q: Request) {
    0 < |q.sgs| == |q.answers| == |q.tableAnswers| && q.nOut <= |q.sgs|
  }

  /** The request as the attempt through a table sees it. */
  function ForTable(q: Request): Request {
    q.(answers := q.tableAnswers)
  }

  /** The IOMMU has been asked for entry k, with its length and direction; without one its physical address does. */
  ghost predicate Answered(useDma: bool, q: Request, k: nat, addr: Option<nat>,
                           was: multiset<Mapping>, now: multiset<Mapping>)
    requires WellFormed(q) && k < |q.sgs|
  {
    if !useDma then addr == Some(q.sgs[k].phys) && now == was
    else if q.answers[k].None? then addr == None && now == was
    else addr == q.answers[k] && now == was + multiset{Mapping(addr.value, q.sgs[k].len, q.nOut <= k, false)}
  }

  /** vring_map_one_sg for entry k. */
  method MapEntry(iommu: Iommu, useDma: bool, q: Request, k: nat) returns (addr: Option<nat>)
    requires WellFormed(q) && k < |q.sgs|
    modifies iommu
    ensures addr == Mapped(useDma, q, k)
    ensures iommu.live == old(iommu.live) + if addr.None? then multiset{} else OneMapping(useDma, q, k)
  {
    if !useDma {
      return Some(q.sgs[k].phys);
    }
    addr := iommu.Map(q.answers[k], q.sgs[k].len, k >= q.nOut, false);
  }

  /** That is the answer for this very entry. */
  lemma EntryAnswered(useDma: bool, q: Request, k: nat, was: multiset<Mapping>)
    requires WellFormed(q) && k < |q.sgs|
    ensures var addr := Mapped(useDma, q, k);
            Answered(useDma, q, k, addr, was, was + if addr.None? then multiset{} else OneMapping(useDma, q, k))
  {
  }

  /** What mapping entry k yields; without DMA it is the physical address. */
  function Mapped(useDma: bool, q: Request, k: nat): Option<nat>
    requires WellFormed(q) && k < |q.sgs|
  {
    if useDma then q.answers[k] else Some(q.sgs[k].phys)
  }

  function AddressOf(useDma: bool, q: Request, k: nat): nat
    requires WellFormed(q) && k < |q.sgs|
  {
    var a := Mapped(useDma, q, k);
    if a.Some? then a.value else 0
  }

  function TableAddress(useDma: bool, q: Request): Option<nat> {
    if useDma then q.tableAnswer else Some(q.tablePhys)
  }

  ghost predicate AllMapped(useDma: bool, q: Request, n: nat)
    requires WellFormed(q) && n <= |q.sgs|
  {
    forall k :: 0 <= k < n ==> Mapped(useDma, q, k).Some?
  }

  /** How many entries are mapped before the first failure. */
  ghost function MappedBefore(useDma: bool, q: Request, n: nat): nat
    requires WellFormed(q) && n <= |q.sgs|
  {
    if n == 0 then 0
    else if MappedBefore(useDma, q, n - 1) == n - 1 && Mapped(useDma, q, n - 1).Some? then n
    else MappedBefore(useDma, q, n - 1)
  }

  lemma {:induction false} MappedBeforeExact(useDma: bool, q: Request, n: nat, j: nat)
    requires WellFormed(q) && n <= |q.sgs| && j <= n && AllMapped(useDma, q, j)
    requires j < n ==> Mapped(useDma, q, j).None?
    ensures MappedBefore(useDma, q, n) == j
  {
    if n > 0 {
      if j == n {
        MappedBeforeExact(useDma, q, n - 1, n - 1);
      } else if j < n - 1 {
        MappedBeforeExact(useDma, q, n - 1, j);
      } else {
        MappedBeforeExact(useDma, q, n - 1, n - 1);
      }
    }
  }

  /** The mappings of the first n entries, in order; none without DMA. */
  ghost function Mappings(useDma: bool, q: Request, n: nat): seq<Mapping>
    requires WellFormed(q) && n <= |q.sgs|
  {
    if !useDma then [] else
      seq(n, k requires 0 <= k < n => Mapping(AddressOf(useDma, q, k), q.sgs[k].len, k >= q.nOut, false))
  }

  /** The mapping made for entry k. */
  ghost function OneMapping(useDma: bool, q: Request, k: nat): multiset<Mapping>
    requires WellFormed(q) && k < |q.sgs|
  {
    if !useDma then multiset{} else multiset{Mapping(AddressOf(useDma, q, k), q.sgs[k].len, k >= q.nOut, false)}
  }

  lemma MappingsGrow(useDma: bool, q: Request, k: nat)
    requires WellFormed(q) && k < |q.sgs|
    ensures multiset(Mappings(useDma, q, k + 1)) == multiset(Mappings(useDma, q, k)) + OneMapping(useDma, q, k)
  {
    if useDma {
      assert Mappings(useDma, q, k + 1) ==
             Mappings(useDma, q, k) + [Mapping(AddressOf(useDma, q, k), q.sgs[k].len, k >= q.nOut, false)];
    }
  }

  lemma NothingMapped(useDma: bool, q: Request)
    requires WellFormed(q)
    ensures Mappings(useDma, q, 0) == []
  {
  }

  lemma UnmappedPrefix(useDma: bool, q: Request, j: nat)
    requires WellFormed(q) && j <= |q.sgs|
    ensures !useDma ==> Mappings(useDma, q, j) == []
  {
  }

  // ----- indirect tables -----

  ghost function TableMapping(d: TableDesc): Mapping {
    Mapping(d.addr, d.len, d.write, false)
  }

  ghost function TableMappings(t: seq<TableDesc>): seq<Mapping> {
    seq(|t|, i requires 0 <= i < |t| => TableMapping(t[i]))
  }

  /** The first n entries of the indirect table of a request. */
  ghost function TableOf(useDma: bool, q: Request, n: nat): seq<TableDesc>
    requires WellFormed(q) && n <= |q.sgs|
  {
    seq(n, k requires 0 <= k < n => TableDesc(AddressOf(useDma, q, k), q.sgs[k].len, k >= q.nOut))
  }

  /** The entries of the table carry exactly the mappings made for it. */
  lemma TableMapsRequest(useDma: bool, q: Request, n: nat)
    requires WellFormed(q) && n <= |q.sgs|
    ensures useDma ==> TableMappings(TableOf(useDma, q, n)) == Mappings(useDma, q, n)
  {
  }

  lemma TableGrows(useDma: bool, q: Request, n: nat)
    requires WellFormed(q) && n < |q.sgs|
    ensures TableOf(useDma, q, n + 1) ==
            TableOf(useDma, q, n) + [TableDesc(AddressOf(useDma, q, n), q.sgs[n].len, n >= q.nOut)]
  {
  }

  /** Undo the mappings of the first n entries of an indirect table; `rest` stay. */
  method UnmapTable(iommu: Iommu, descs: seq<TableDesc>, n: nat, ghost rest: multiset<Mapping>)
    requires n <= |descs| && iommu.live == rest + multiset(TableMappings(descs[..n]))
    modifies iommu
    ensures iommu.live == rest
  {
    ghost var unmaps := TableMappings(descs[..n]);
    assert unmaps[0..] == unmaps;
    for i := 0 to n
      invariant iommu.live == rest + multiset(unmaps[i..])
    {
      NextOut(unmaps, i);
      assert unmaps[i] == TableMapping(descs[i]);
      iommu.Unmap(descs[i].addr, descs[i].len, descs[i].write, false);
    }
    assert unmaps[n..] == [];
  }

  /** Map every entry into a new table; on a failure undo those already mapped. */
  method FillTable(iommu: Iommu, useDma: bool, q: Request) returns (table: seq<TableDesc>, ok: bool)
    requires WellFormed(q)
    modifies iommu
    ensures ok <==> AllMapped(useDma, q, |q.sgs|)
    ensures ok ==> table == TableOf(useDma, q, |q.sgs|) &&
                   iommu.live == old(iommu.live) + multiset(Mappings(useDma, q, |q.sgs|))
    ensures !ok ==> iommu.live == old(iommu.live)
  {
    hide Mappings;
    table, ok := [], true;
    ghost var rest := iommu.live;
    var i := 0;
    NothingMapped(useDma, q);
    while i < |q.sgs|
      invariant 0 <= i <= |q.sgs| && AllMapped(useDma, q, i)
      invariant table == TableOf(useDma, q, i) && iommu.live == rest + multiset(Mappings(useDma, q, i))
    {
      var addr := MapEntry(iommu, useDma, q, i);
      if addr.None? {
        TableMapsRequest(useDma, q, i);
        assert table[..i] == table;
        UnmapTable(iommu, table, i, rest);
        return table, false;
      }
      MappingsGrow(useDma, q, i);
      TableGrows(useDma, q, i);
      table := table + [TableDesc(addr.value, q.sgs[i].len, i >= q.nOut)];
      i := i + 1;
    }
  }

  /** The mappings behind an indirect buffer: its entries and the table itself. */
  ghost function IndirectMappings(useDma: bool, q: Request): multiset<Mapping>
    requires WellFormed(q)
  {
    if !useDma || q.tableAnswer.None? then multiset{} else
      multiset(Mappings(useDma, q, |q.sgs|)) + multiset{Mapping(q.tableAnswer.value, DESC_SIZE * |q.sgs|, false, true)}
  }

  /** Map a request through a table: every entry, then the table. Nothing stays mapped on a failure. */
  method MapTable(iommu: Iommu, useDma: bool, q: Request) returns (table: seq<TableDesc>, addr: Option<nat>)
    requires WellFormed(q)
    modifies iommu
    ensures addr == if AllMapped(useDma, q, |q.sgs|) then TableAddress(useDma, q) else None
    ensures addr.Some? ==> table == TableOf(useDma, q, |q.sgs|) &&
                           iommu.live == old(iommu.live) + IndirectMappings(useDma, q)
    ensures addr.None? ==> iommu.live == old(iommu.live)
  {
    hide Mappings;
    ghost var rest := iommu.live;
    var ok;
    table, ok := FillTable(iommu, useDma, q);
    if !ok {
      return table, None;
    }
    if !useDma {
      UnmappedPrefix(useDma, q, |q.sgs|);
      return table, Some(q.tablePhys);
    }
    addr := iommu.Map(q.tableAnswer, DESC_SIZE * |q.sgs|, false, true);
    if addr.None? {
      assert table[..|table|] == table;
      TableMapsRequest(useDma, q, |q.sgs|);
      UnmapTable(iommu, table, |table|, rest);
    }
  }
}
