/** What the device finds of a request, and what the caller asked for, with nothing of the driver in between. */
module Delivery {
  import opened Dma
  import opened Options

  /** One piece of a buffer as the device reads it. */
  datatype Piece = Piece(addr: nat, len: nat, write: bool)

  /** The pieces are the entries of the request in order: each where the IOMMU has put it, or at its physical address,
      with its length, and for the device to write exactly if it is not one of the first nOut. */
  ghost predicate Serves(useDma: bool, q: Request, answers: seq<Option<nat>>, ps: seq<Piece>) {
    && |ps| == |q.sgs| == |answers|
    && (forall k :: 0 <= k < |ps| ==> if useDma then answers[k] == Some(ps[k].addr) else ps[k].addr == q.sgs[k].phys)
    && (forall k :: 0 <= k < |ps| ==> ps[k].len == q.sgs[k].len && (ps[k].write <==> q.nOut <= k))
  }

  /** The mappings that let the device at these pieces, each in the direction that it is shown. */
  ghost function Behind(useDma: bool, ps: seq<Piece>): multiset<Mapping> {
    if !useDma then multiset{} else
      multiset(seq(|ps|, k requires 0 <= k < |ps| => Mapping(ps[k].addr, ps[k].len, ps[k].write, false)))
  }

  ghost function ReadTable(t: seq<TableDesc>): seq<Piece> {
    seq(|t|, k requires 0 <= k < |t| => Piece(t[k].addr, t[k].len, t[k].write))
  }

  /** The table at addr, of len bytes, holds the request. */
  ghost predicate ServesTable(useDma: bool, q: Request, addr: nat, len: nat, table: seq<TableDesc>) {
    && Serves(useDma, q, q.tableAnswers, ReadTable(table)) && len == DESC_SIZE * |q.sgs|
    && if useDma then q.tableAnswer == Some(addr) else addr == q.tablePhys
  }

  ghost function BehindTable(useDma: bool, addr: nat, len: nat, table: seq<TableDesc>): multiset<Mapping> {
    Behind(useDma, ReadTable(table)) + if useDma then multiset{Mapping(addr, len, false, true)} else multiset{}
  }

  /** The IOMMU, if there is one, refuses nothing. */
  ghost predicate Granted(useDma: bool, answers: seq<Option<nat>>) {
    useDma ==> forall k :: 0 <= k < |answers| ==> answers[k].Some?
  }

  /** The request can be had through a table of its own. */
  ghost predicate TableGranted(useDma: bool, q: Request) {
    q.gotTable && Granted(useDma, q.tableAnswers) && (useDma ==> q.tableAnswer.Some?)
  }

  lemma MappedIfGranted(useDma: bool, q: Request)
    requires WellFormed(q)
    ensures AllMapped(useDma, q, |q.sgs|) <==> Granted(useDma, q.answers)
  {
    if AllMapped(useDma, q, |q.sgs|) && useDma {
      forall k | 0 <= k < |q.answers| ensures q.answers[k].Some? {
        assert Mapped(useDma, q, k).Some?;
      }
    }
  }

  /** What is mapped for a request is what is behind the pieces that serve it. */
  lemma MappingsBehind(useDma: bool, q: Request, ps: seq<Piece>)
    requires WellFormed(q) && Serves(useDma, q, q.answers, ps)
    ensures multiset(Mappings(useDma, q, |q.sgs|)) == Behind(useDma, ps)
  {
    if useDma {
      assert Mappings(useDma, q, |q.sgs|) ==
             seq(|ps|, k requires 0 <= k < |ps| => Mapping(ps[k].addr, ps[k].len, ps[k].write, false));
    }
  }

  lemma TableServes(useDma: bool, q: Request)
    requires WellFormed(q) && AllMapped(useDma, q, |q.sgs|)
    ensures Serves(useDma, q, q.answers, ReadTable(TableOf(useDma, q, |q.sgs|)))
  {
    var ps := ReadTable(TableOf(useDma, q, |q.sgs|));
    forall k | 0 <= k < |ps| ensures if useDma then q.answers[k] == Some(ps[k].addr) else ps[k].addr == q.sgs[k].phys {
      assert Mapped(useDma, q, k).Some?;
    }
  }

  /** A table made for the request holds it, and what is mapped for that is behind it. */
  lemma ThroughTable(useDma: bool, q: Request, addr: nat)
    requires WellFormed(q) && AllMapped(useDma, ForTable(q), |q.sgs|) && TableAddress(useDma, q) == Some(addr)
    ensures var t := TableOf(useDma, ForTable(q), |q.sgs|);
            && ServesTable(useDma, q, addr, DESC_SIZE * |q.sgs|, t)
            && IndirectMappings(useDma, ForTable(q)) == BehindTable(useDma, addr, DESC_SIZE * |q.sgs|, t)
  {
    hide TableOf, Mappings, AllMapped;
    TableServes(useDma, ForTable(q));
    MappingsBehind(useDma, ForTable(q), ReadTable(TableOf(useDma, ForTable(q), |q.sgs|)));
  }
}
