/** Sorted lists of page intervals, and the sets of pages they stand for. */
module Regions {
  import opened Numbers
  import opened Options

  /** Pages from..to-1, reserved on behalf of the cgroup `info` (0: none). */
  datatype Region = Region(from: int, to: int, info: nat)

  ghost predicate Sorted(rs: seq<Region>) {
    && (forall i :: 0 <= i < |rs| ==> rs[i].from < rs[i].to)
    && (forall i, j :: 0 <= i < j < |rs| ==> rs[i].to <= rs[j].from)
  }

  /** No two neighbours could be one region. */
  ghost predicate Apart(rs: seq<Region>) {
    forall i, j :: 0 <= i < j < |rs| && j == i + 1 ==> !(rs[i].to == rs[j].from && rs[i].info == rs[j].info)
  }

  /** The meaning of a list: for whom is page x reserved? */
  ghost function Lookup(rs: seq<Region>, x: int): Option<nat> {
    if rs == [] then None
    else if rs[0].from <= x < rs[0].to then Some(rs[0].info)
    else Lookup(rs[1..], x)
  }

  lemma {:induction false} LookupConcat(rs: seq<Region>, ts: seq<Region>, x: int)
    ensures Lookup(rs + ts, x) == if Lookup(rs, x).Some? then Lookup(rs, x) else Lookup(ts, x)
  {
    if rs == [] {
      assert rs + ts == ts;
    } else {
      LookupConcat(rs[1..], ts, x);
      assert (rs + ts)[1..] == rs[1..] + ts;
    }
  }

  lemma {:induction false} LookupExact(rs: seq<Region>, x: int, i: nat)
    requires Sorted(rs) && i < |rs| && rs[i].from <= x < rs[i].to
    ensures Lookup(rs, x) == Some(rs[i].info)
  {
    if i > 0 {
      assert rs[0].to <= rs[i].from;
      LookupExact(rs[1..], x, i - 1);
    }
  }

  lemma {:induction false} LookupNone(rs: seq<Region>, x: int)
    requires forall i :: 0 <= i < |rs| ==> !(rs[i].from <= x < rs[i].to)
    ensures Lookup(rs, x) == None
  {
    if rs != [] {
      LookupNone(rs[1..], x);
    }
  }

  // ----- inserting a region between two others -----

  function Joinable(p: Region, q: Region): bool {
    p.to == q.from && p.info == q.info
  }

  /** Merge region i into its left neighbour where they touch. */
  function JoinLeft(rs: seq<Region>, i: nat): seq<Region>
    requires i < |rs|
  {
    if i > 0 && Joinable(rs[i - 1], rs[i])
    then rs[..i - 1] + [rs[i - 1].(to := rs[i].to)] + rs[i + 1..]
    else rs
  }

  /** Merge region k into its right neighbour where they touch. */
  function JoinRight(rs: seq<Region>, k: nat): seq<Region>
    requires k < |rs|
  {
    if k + 1 < |rs| && Joinable(rs[k], rs[k + 1])
    then rs[..k] + [rs[k + 1].(from := rs[k].from)] + rs[k + 2..]
    else rs
  }

  lemma JoinedRight(rs: seq<Region>, k: nat)
    requires k + 1 < |rs| && Joinable(rs[k], rs[k + 1])
    ensures var now := rs[k + 1 := rs[k + 1].(from := rs[k].from)]; now[..k] + now[k + 1..] == JoinRight(rs, k)
  {
  }

  function Coalesce(rs: seq<Region>, i: nat): seq<Region>
    requires i < |rs|
  {
    JoinRight(JoinLeft(rs, i), if i > 0 && Joinable(rs[i - 1], rs[i]) then i - 1 else i)
  }

  function Insert(rs: seq<Region>, i: nat, r: Region): seq<Region>
    requires i <= |rs|
  {
    Coalesce(rs[..i] + [r] + rs[i..], i)
  }

  /** r lies strictly between regions i-1 and i. */
  ghost predicate Between(rs: seq<Region>, i: nat, r: Region) {
    i <= |rs| && r.from < r.to && (i > 0 ==> rs[i - 1].to <= r.from) && (i < |rs| ==> r.to <= rs[i].from)
  }

  ghost function Splice(rs: seq<Region>, a: nat, m: Region, b: nat): seq<Region>
    requires a <= b <= |rs|
  {
    rs[..a] + [m] + rs[b..]
  }

  lemma LeftJoined(ps: seq<Region>, r: Region, qs: seq<Region>)
    ensures JoinLeft(ps + [r] + qs, |ps|)
         == if ps != [] && Joinable(ps[|ps| - 1], r) then ps[..|ps| - 1] + [ps[|ps| - 1].(to := r.to)] + qs
             else ps + [r] + qs
  {
    var rs, i := ps + [r] + qs, |ps|;
    assert rs[i + 1..] == qs;
    assert i > 0 ==> rs[..i - 1] == ps[..i - 1];
  }

  lemma RightJoined(ps: seq<Region>, r: Region, qs: seq<Region>)
    ensures JoinRight(ps + [r] + qs, |ps|)
         == if qs != [] && Joinable(r, qs[0]) then ps + [qs[0].(from := r.from)] + qs[1..] else ps + [r] + qs
  {
    var rs, k := ps + [r] + qs, |ps|;
    assert rs[..k] == ps;
    assert qs != [] ==> rs[k + 2..] == qs[1..] && rs[k + 1] == qs[0];
  }

  lemma Neighbours(rs: seq<Region>, i: nat)
    requires Sorted(rs) && i <= |rs|
    ensures 1 < i ==> rs[i - 2].to <= rs[i - 1].from
    ensures 0 < i ==> rs[i - 1].from < rs[i - 1].to
    ensures i < |rs| ==> rs[i].from < rs[i].to
    ensures i + 1 < |rs| ==> rs[i].to <= rs[i + 1].from
  {
  }

  /** The pieces of an insertion: what is before, the region that replaces the touching neighbours, what is after. */
  lemma InsertShape(rs: seq<Region>, i: nat, r: Region) returns (a: nat, m: Region, b: nat)
    requires Sorted(rs) && Between(rs, i, r)
    ensures a == (if i > 0 && Joinable(rs[i - 1], r) then i - 1 else i)
    ensures b == (if i < |rs| && Joinable(r, rs[i]) then i + 1 else i)
    ensures m == Region(if a < i then rs[a].from else r.from, if i < b then rs[i].to else r.to, r.info)
    ensures m.from <= r.from && r.to <= m.to && Insert(rs, i, r) == Splice(rs, a, m, b)
    ensures (a > 0 ==> rs[a - 1].to <= m.from) && (b < |rs| ==> m.to <= rs[b].from)
  {
    hide JoinLeft, JoinRight, Sorted;
    Neighbours(rs, i);
    a := if i > 0 && Joinable(rs[i - 1], r) then i - 1 else i;
    b := if i < |rs| && Joinable(r, rs[i]) then i + 1 else i;
    m := Region(if a < i then rs[a].from else r.from, if i < b then rs[i].to else r.to, r.info);
    var c := if a < i then rs[a].(to := r.to) else r;
    LeftJoined(rs[..i], r, rs[i..]);
    assert a < i ==> rs[..i][..i - 1] == rs[..a];
    RightJoined(rs[..a], c, rs[i..]);
    assert i < b ==> rs[i..][1..] == rs[b..];
  }

  lemma SpliceSorted(rs: seq<Region>, a: nat, m: Region, b: nat)
    requires Sorted(rs) && a <= b <= |rs| && m.from < m.to
    requires (a > 0 ==> rs[a - 1].to <= m.from) && (b < |rs| ==> m.to <= rs[b].from)
    ensures Sorted(Splice(rs, a, m, b))
  {
    var ts := Splice(rs, a, m, b);
    forall i, j | 0 <= i < j < |ts| ensures ts[i].to <= ts[j].from {
      SpliceAt(rs, a, m, b, i);
      SpliceAt(rs, a, m, b, j);
    }
    forall i | 0 <= i < |ts| ensures ts[i].from < ts[i].to {
      SpliceAt(rs, a, m, b, i);
    }
  }

  lemma SpliceAt(rs: seq<Region>, a: nat, m: Region, b: nat, i: nat)
    requires a <= b <= |rs| && i < |Splice(rs, a, m, b)|
    ensures |Splice(rs, a, m, b)| == a + 1 + |rs| - b
    ensures Splice(rs, a, m, b)[i] == if i < a then rs[i] else if i == a then m else rs[i - a - 1 + b]
  {
  }

  lemma SpliceTail(rs: seq<Region>, a: nat, m: Region, b: nat)
    requires a <= b <= |rs|
    ensures var ts := Splice(rs, a, m, b); |ts| == a + 1 + |rs| - b && ts[a] == m && ts[a + 1..] == rs[b..]
  {
  }

  lemma SpliceApart(rs: seq<Region>, a: nat, m: Region, b: nat)
    requires Apart(rs) && a <= b <= |rs|
    requires (a > 0 ==> !Joinable(rs[a - 1], m)) && (b < |rs| ==> !Joinable(m, rs[b]))
    ensures Apart(Splice(rs, a, m, b))
  {
    var ts := Splice(rs, a, m, b);
    assert forall i :: a < i < |ts| ==> ts[i] == rs[i - a - 1 + b];
  }

  lemma SpliceLookup(rs: seq<Region>, a: nat, m: Region, b: nat, x: int)
    requires a <= b <= |rs|
    requires forall i :: a <= i < b ==> m.from <= rs[i].from && rs[i].to <= m.to && rs[i].info == m.info
    requires forall i :: 0 <= i < a ==> rs[i].to <= m.from
    ensures Lookup(Splice(rs, a, m, b), x) == if m.from <= x < m.to then Some(m.info) else Lookup(rs, x)
  {
    var ps, cs, qs := rs[..a], rs[a..b], rs[b..];
    Lookup3(ps, [m], qs, x);
    Lookup3(ps, cs, qs, x);
    assert rs == ps + cs + qs;
    if m.from <= x < m.to {
      LookupNone(ps, x);
    } else {
      LookupNone(cs, x);
    }
  }

  lemma Lookup3(ps: seq<Region>, cs: seq<Region>, qs: seq<Region>, x: int)
    ensures Lookup(ps + cs + qs, x)
         == if Lookup(ps, x).Some? then Lookup(ps, x) else if Lookup(cs, x).Some? then Lookup(cs, x) else Lookup(qs, x)
  {
    LookupConcat(ps + cs, qs, x);
    LookupConcat(ps, cs, x);
  }

  /** Insertion keeps the list sorted and, if it was, without touching neighbours; and it means just the new pages. */
  lemma InsertExact(rs: seq<Region>, i: nat, r: Region)
    requires Sorted(rs) && Between(rs, i, r)
    ensures Sorted(Insert(rs, i, r)) && (Apart(rs) ==> Apart(Insert(rs, i, r)))
    ensures forall x :: Lookup(Insert(rs, i, r), x) == if r.from <= x < r.to then Some(r.info) else Lookup(rs, x)
  {
    hide Lookup, Insert, Splice;
    var a, m, b := InsertShape(rs, i, r);
    SpliceSorted(rs, a, m, b);
    if Apart(rs) {
      SpliceApart(rs, a, m, b);
    }
    forall x ensures Lookup(Insert(rs, i, r), x) == if r.from <= x < r.to then Some(r.info) else Lookup(rs, x) {
      SpliceLookup(rs, a, m, b, x);
      if m.from <= x < r.from {
        LookupExact(rs, x, i - 1);
      }
      if r.to <= x < m.to {
        LookupExact(rs, x, i);
      }
    }
  }

  /** Whatever follows the insertion point keeps its place counted from the end, and its upper end. */
  lemma InsertSuffix(rs: seq<Region>, i: nat, r: Region)
    requires Sorted(rs) && Between(rs, i, r)
    ensures var ts := Insert(rs, i, r); var n := |ts| - (|rs| - i);
            0 <= n <= |ts| && (i < |rs| ==> n < |ts| && ts[n].to == rs[i].to && ts[n + 1..] == rs[i + 1..])
  {
    hide Insert, Splice, Sorted;
    var a, m, b := InsertShape(rs, i, r);
    var ts := Insert(rs, i, r);
    SpliceTail(rs, a, m, b);
    if i < |rs| && b == i {
      assert ts[a + 1] == ts[a + 1..][0] && ts[a + 2..] == ts[a + 1..][1..];
    }
  }

  // ----- one list for one meaning -----

  lemma {:induction false} LookupSome(rs: seq<Region>, x: int) returns (i: nat)
    requires Lookup(rs, x).Some?
    ensures i < |rs| && rs[i].from <= x < rs[i].to && Lookup(rs, x) == Some(rs[i].info)
  {
    if rs[0].from <= x < rs[0].to {
      i := 0;
    } else {
      i := LookupSome(rs[1..], x);
      i := i + 1;
    }
  }

  ghost predicate SameMeaning(rs: seq<Region>, ts: seq<Region>) {
    forall x :: Lookup(rs, x) == Lookup(ts, x)
  }

  lemma EndsThere(rs: seq<Region>)
    requires Sorted(rs) && Apart(rs) && rs != []
    ensures Lookup(rs, rs[0].to) != Some(rs[0].info)
  {
    hide Lookup;
    assert forall j :: 1 < j < |rs| ==> rs[0].to <= rs[1].from < rs[1].to <= rs[j].from;
    if Lookup(rs, rs[0].to).Some? {
      var j := LookupSome(rs, rs[0].to);
      assert j == 1 && !Joinable(rs[0], rs[1]);
    }
  }

  lemma FirstNotLonger(rs: seq<Region>, ts: seq<Region>)
    requires Sorted(rs) && Apart(rs) && Sorted(ts) && rs != [] && ts != []
    requires SameMeaning(rs, ts)
    ensures ts[0].from <= rs[0].from
    ensures rs[0].from == ts[0].from ==> rs[0].info == ts[0].info && ts[0].to <= rs[0].to
  {
    hide Lookup, Apart;
    LookupExact(rs, rs[0].from, 0);
    var i := LookupSome(ts, rs[0].from);
    assert ts[0].from <= ts[i].from;
    if rs[0].from == ts[0].from {
      LookupExact(ts, ts[0].from, 0);
      EndsThere(rs);
      if rs[0].to < ts[0].to {
        LookupExact(ts, rs[0].to, 0);
      }
    }
  }

  lemma SameFirst(rs: seq<Region>, ts: seq<Region>)
    requires Sorted(rs) && Apart(rs) && Sorted(ts) && Apart(ts) && SameMeaning(rs, ts) && rs != []
    ensures ts != [] && rs[0] == ts[0]
  {
    hide Lookup, Apart;
    LookupExact(rs, rs[0].from, 0);
    if ts == [] {
      LookupNone(ts, rs[0].from);
    } else {
      FirstNotLonger(rs, ts);
      FirstNotLonger(ts, rs);
    }
  }

  lemma TailOk(rs: seq<Region>)
    requires Sorted(rs) && Apart(rs) && rs != []
    ensures Sorted(rs[1..]) && Apart(rs[1..])
  {
  }

  /** A sorted list without touching neighbours is determined by its meaning. */
  lemma {:induction false} Canonical(rs: seq<Region>, ts: seq<Region>)
    requires Sorted(rs) && Apart(rs) && Sorted(ts) && Apart(ts)
    requires SameMeaning(rs, ts)
    ensures rs == ts
  {
    hide Lookup, Sorted, Apart, SameMeaning;
    if rs != [] {
      SameFirst(rs, ts);
      TailOk(rs);
      TailOk(ts);
      TailMeaning(rs, ts);
      Canonical(rs[1..], ts[1..]);
      assert rs == [rs[0]] + rs[1..] && ts == [ts[0]] + ts[1..];
    } else if ts != [] {
      MeaningSymmetric(rs, ts);
      SameFirst(ts, rs);
    }
  }

  lemma MeaningSymmetric(rs: seq<Region>, ts: seq<Region>)
    requires SameMeaning(rs, ts)
    ensures SameMeaning(ts, rs)
  {
  }

  lemma TailMeaning(rs: seq<Region>, ts: seq<Region>)
    requires Sorted(rs) && Sorted(ts) && rs != [] && ts != [] && rs[0] == ts[0] && SameMeaning(rs, ts)
    ensures SameMeaning(rs[1..], ts[1..])
  {
    forall x ensures Lookup(rs[1..], x) == Lookup(ts[1..], x) {
      assert Lookup(rs, x) == Lookup(ts, x);
      if rs[0].from <= x < rs[0].to {
        LookupNone(rs[1..], x);
        LookupNone(ts[1..], x);
      }
    }
  }

  // ----- counting pages -----

  /** Pages of [f, t) that no region holds. */
  ghost function Missing(rs: seq<Region>, f: int, t: int): set<int> {
    set x | f <= x < t && Lookup(rs, x) == None
  }

  /** Pages of [f, t) that some region holds. */
  ghost function Present(rs: seq<Region>, f: int, t: int): set<int> {
    set x | f <= x < t && Lookup(rs, x) != None
  }

  ghost predicate StartsGap(rs: seq<Region>, f: int, x: int) {
    Lookup(rs, x) == None && (x == f || Lookup(rs, x - 1) != None)
  }

  /** Where the gaps of [f, t) begin: one new region is needed for each. */
  ghost function GapStarts(rs: seq<Region>, f: int, t: int): set<int> {
    set x | f <= x < t && StartsGap(rs, f, x)
  }

  ghost function Pages(f: int, t: int): (s: set<int>)
    ensures forall x :: x in s <==> f <= x < t
    ensures f <= t ==> |s| == t - f
    decreases t - f
  {
    if f < t then Pages(f, t - 1) + {t - 1} else {}
  }

  /** What is held and what is missing make up the whole range. */
  lemma PresentAndMissing(rs: seq<Region>, f: int, t: int)
    requires f <= t
    ensures |Present(rs, f, t)| + |Missing(rs, f, t)| == t - f
  {
    hide Lookup;
    assert Pages(f, t) == Present(rs, f, t) + Missing(rs, f, t);
  }

  /** One gap from a to b adds its pages to the count and one region. */
  lemma CountGap(rs: seq<Region>, f: int, a: int, b: int)
    requires f <= a < b && (a == f || Lookup(rs, a - 1) != None)
    requires forall x :: a <= x < b ==> Lookup(rs, x) == None
    ensures |Missing(rs, f, b)| == |Missing(rs, f, a)| + (b - a)
    ensures |GapStarts(rs, f, b)| == |GapStarts(rs, f, a)| + 1
  {
    hide Lookup, GapStarts;
    assert Missing(rs, f, b) == Missing(rs, f, a) + Pages(a, b);
    OneStart(rs, f, a, b);
  }

  lemma OneStart(rs: seq<Region>, f: int, a: int, b: int)
    requires f <= a < b && (a == f || Lookup(rs, a - 1) != None)
    requires forall x :: a <= x < b ==> Lookup(rs, x) == None
    ensures GapStarts(rs, f, b) == GapStarts(rs, f, a) + {a} && a !in GapStarts(rs, f, a)
  {
    hide Lookup;
    forall x ensures x in GapStarts(rs, f, b) <==> x in GapStarts(rs, f, a) + {a} {
      if a < x < b {
        assert Lookup(rs, x - 1) == None;
      }
    }
  }

  /** Pages already held add nothing. */
  lemma CountHeld(rs: seq<Region>, f: int, a: int, b: int)
    requires f <= a <= b
    requires forall x :: a <= x < b ==> Lookup(rs, x) != None
    ensures Missing(rs, f, b) == Missing(rs, f, a) && GapStarts(rs, f, b) == GapStarts(rs, f, a)
  {
  }

  lemma CountNothing(rs: seq<Region>, f: int)
    ensures Missing(rs, f, f) == {} && GapStarts(rs, f, f) == {}
  {
  }

  /** No region holds x between the end of region k-1 and the start of region k. */
  lemma InGap(rs: seq<Region>, k: nat, x: int)
    requires Sorted(rs) && k <= |rs| && (k > 0 ==> rs[k - 1].to <= x) && (k < |rs| ==> x < rs[k].from)
    ensures Lookup(rs, x) == None
  {
    assert forall i :: 0 <= i < k ==> rs[i].to <= rs[k - 1].to;
    assert forall i :: k <= i < |rs| ==> rs[k].from <= rs[i].from;
    LookupNone(rs, x);
  }

  // ----- taking pages out -----

  /** What is left of one region. */
  function Piece(r: Region, f: int, t: int): seq<Region> {
    var end, start := Min(r.to, f), Max(r.from, t);
    (if r.from < end then [Region(r.from, end, r.info)] else []) +
        (if start < r.to then [Region(start, r.to, r.info)] else [])
  }

  ghost function Cut(rs: seq<Region>, f: int, t: int): seq<Region> {
    if rs == [] then [] else Cut(rs[..|rs| - 1], f, t) + Piece(rs[|rs| - 1], f, t)
  }

  lemma LookupOne(r: Region, x: int)
    ensures Lookup([r], x) == if r.from <= x < r.to then Some(r.info) else None
  {
    assert [r][1..] == [];
  }

  lemma PieceLookup(r: Region, f: int, t: int, x: int)
    requires f <= t && r.from < r.to
    ensures Lookup(Piece(r, f, t), x) == if r.from <= x < r.to && !(f <= x < t) then Some(r.info) else None
  {
    var ps := Piece(r, f, t);
    if |ps| == 2 {
      assert ps == [ps[0]] + [ps[1]];
      LookupConcat([ps[0]], [ps[1]], x);
      LookupOne(ps[0], x);
      LookupOne(ps[1], x);
    } else if |ps| == 1 {
      assert ps == [ps[0]];
      LookupOne(ps[0], x);
    }
  }

  lemma PieceWithin(r: Region, f: int, t: int)
    requires f <= t && r.from < r.to
    ensures Sorted(Piece(r, f, t)) && (f < t ==> Apart(Piece(r, f, t))) && Below(Piece(r, f, t), r.to)
    ensures forall p :: p in Piece(r, f, t) ==> r.from <= p.from && p.info == r.info
  {
  }

  /** Cutting [f, t) out leaves a list that means the old pages outside [f, t). */
  lemma {:induction false} CutLookup(rs: seq<Region>, f: int, t: int, x: int)
    requires Sorted(rs) && f <= t
    ensures Lookup(Cut(rs, f, t), x) == if f <= x < t then None else Lookup(rs, x)
  {
    hide Piece;
    if rs != [] {
      var n := |rs| - 1;
      CutLookup(rs[..n], f, t, x);
      PieceLookup(rs[n], f, t, x);
      LookupConcat(Cut(rs[..n], f, t), Piece(rs[n], f, t), x);
      LookupConcat(rs[..n], [rs[n]], x);
      LookupOne(rs[n], x);
      assert rs == rs[..n] + [rs[n]];
    }
  }

  ghost predicate Below(rs: seq<Region>, bound: int) {
    forall i :: 0 <= i < |rs| ==> rs[i].to <= bound
  }

  lemma {:induction false} CutSorted(rs: seq<Region>, f: int, t: int)
    requires Sorted(rs) && f <= t
    ensures Sorted(Cut(rs, f, t))
    ensures rs != [] ==> Below(Cut(rs, f, t), rs[|rs| - 1].to)
  {
    hide Piece;
    if rs != [] {
      var n := |rs| - 1;
      CutSorted(rs[..n], f, t);
      PieceWithin(rs[n], f, t);
      ConcatSorted(Cut(rs[..n], f, t), Piece(rs[n], f, t), rs[n].from);
    }
  }

  lemma ConcatSorted(ps: seq<Region>, qs: seq<Region>, bound: int)
    requires Sorted(ps) && Sorted(qs) && Below(ps, bound)
    requires forall q :: q in qs ==> bound <= q.from
    ensures Sorted(ps + qs)
  {
    assert forall i :: 0 <= i < |qs| ==> qs[i] in qs;
  }

  ghost predicate NotInside(rs: seq<Region>, f: int, t: int) {
    forall i :: 0 <= i < |rs| ==> f < t || !(rs[i].from < f < rs[i].to)
  }

  lemma ConcatApart(ps: seq<Region>, qs: seq<Region>)
    requires Apart(ps) && Apart(qs) && (ps != [] && qs != [] ==> !Joinable(ps[|ps| - 1], qs[0]))
    ensures Apart(ps + qs)
  {
  }

  lemma PieceApart(r: Region, f: int, t: int)
    requires f <= t && r.from < r.to && (f < t || !(r.from < f < r.to))
    ensures Apart(Piece(r, f, t)) && forall p :: p in Piece(r, f, t) ==> r.from <= p.from && p.info == r.info
  {
  }

  lemma {:induction false} CutApart(rs: seq<Region>, f: int, t: int)
    requires Sorted(rs) && Apart(rs) && f <= t && NotInside(rs, f, t)
    ensures Apart(Cut(rs, f, t))
    ensures var ts := Cut(rs, f, t);
            rs != [] && ts != [] && ts[|ts| - 1].to == rs[|rs| - 1].to ==> ts[|ts| - 1].info == rs[|rs| - 1].info
  {
    hide Piece;
    if rs != [] {
      var n := |rs| - 1;
      CutApart(rs[..n], f, t);
      CutSorted(rs[..n], f, t);
      PieceApart(rs[n], f, t);
      assert n > 0 ==> rs[..n][n - 1] == rs[n - 1] && !Joinable(rs[n - 1], rs[n]);
      ConcatApart(Cut(rs[..n], f, t), Piece(rs[n], f, t));
    }
  }

  lemma {:induction false} NothingAcross(rs: seq<Region>, f: int)
    ensures forall c :: c in Cut(rs, f, f) ==> !(c.from < f < c.to)
  {
    if rs != [] {
      NothingAcross(rs[..|rs| - 1], f);
    }
  }

  /** Cutting out nothing at f leaves two touching halves exactly when some region lies across f. */
  lemma EmptyCut(rs: seq<Region>, f: int)
    requires Sorted(rs) && Apart(rs)
    ensures Apart(Cut(rs, f, f)) <==> NotInside(rs, f, f)
  {
    if NotInside(rs, f, f) {
      CutApart(rs, f, f);
    }
    if Apart(Cut(rs, f, f)) {
      CutSorted(rs, f, f);
      forall x ensures Lookup(rs, x) == Lookup(Cut(rs, f, f), x) {
        CutLookup(rs, f, f, x);
      }
      Canonical(rs, Cut(rs, f, f));
      NothingAcross(rs, f);
      assert forall i :: 0 <= i < |rs| ==> rs[i] in rs;
    }
  }

  function Width(r: Region, f: int, t: int): int {
    var a, b := Max(r.from, f), Min(r.to, t);
    if a < b then b - a else 0
  }

  ghost function Overlap(rs: seq<Region>, f: int, t: int): int {
    if rs == [] then 0 else Overlap(rs[..|rs| - 1], f, t) + Width(rs[|rs| - 1], f, t)
  }

  /** Summing the overlaps counts the pages of [f, t) that are held. */
  lemma {:induction false} OverlapCounts(rs: seq<Region>, f: int, t: int)
    requires Sorted(rs) && f <= t
    ensures Overlap(rs, f, t) == |Present(rs, f, t)|
  {
    if rs == [] {
      assert Present(rs, f, t) == {};
    } else {
      var n := |rs| - 1;
      OverlapCounts(rs[..n], f, t);
      AddedPages(rs, f, t);
    }
  }

  lemma PresentUnion(rs: seq<Region>, f: int, t: int)
    requires rs != []
    ensures var r := rs[|rs| - 1];
            Present(rs, f, t) == Present(rs[..|rs| - 1], f, t) + Pages(Max(r.from, f), Min(r.to, t))
  {
    hide Lookup, Sorted;
    var n := |rs| - 1;
    forall x
      ensures x in Present(rs, f, t) <==> x in Present(rs[..n], f, t) + Pages(Max(rs[n].from, f), Min(rs[n].to, t))
    {
      LookupConcat(rs[..n], [rs[n]], x);
      LookupOne(rs[n], x);
      assert rs == rs[..n] + [rs[n]];
    }
  }

  lemma AddedPages(rs: seq<Region>, f: int, t: int)
    requires Sorted(rs) && f <= t && rs != []
    ensures |Present(rs, f, t)| == |Present(rs[..|rs| - 1], f, t)| + Width(rs[|rs| - 1], f, t)
  {
    hide Lookup, Sorted, Pages;
    var n := |rs| - 1;
    var more := Pages(Max(rs[n].from, f), Min(rs[n].to, t));
    PresentUnion(rs, f, t);
    forall x | x in more ensures x !in Present(rs[..n], f, t) {
      NotBefore(rs, x);
    }
    assert Max(rs[n].from, f) >= Min(rs[n].to, t) ==> more == {};
  }

  lemma NotBefore(rs: seq<Region>, x: int)
    requires Sorted(rs) && rs != [] && rs[|rs| - 1].from <= x
    ensures Lookup(rs[..|rs| - 1], x) == None
  {
    LookupNone(rs[..|rs| - 1], x);
  }

  lemma Untouched(r: Region, f: int, t: int)
    requires f <= t && r.from < r.to && (t <= r.from || r.to <= f)
    ensures Piece(r, f, t) == [r] && Width(r, f, t) == 0
  {
  }

  lemma Beyond(rs: seq<Region>, k: nat, n: nat)
    requires Sorted(rs) && k <= n < |rs|
    ensures rs[k].from <= rs[n].from < rs[n].to && Sorted(rs[..n])
  {
  }

  lemma LastCut(rs: seq<Region>, f: int, t: int)
    requires rs != []
    ensures var n := |rs| - 1;
            && Cut(rs, f, t) == Cut(rs[..n], f, t) + Piece(rs[n], f, t)
            && Overlap(rs, f, t) == Overlap(rs[..n], f, t) + Width(rs[n], f, t)
  {
    hide Piece, Width;
  }

  /** Regions from t on are not touched. */
  lemma {:induction false} BeyondCut(rs: seq<Region>, k: nat, f: int, t: int)
    requires Sorted(rs) && k <= |rs| && f <= t && (k < |rs| ==> t <= rs[k].from)
    ensures Cut(rs, f, t) == Cut(rs[..k], f, t) + rs[k..] && Overlap(rs, f, t) == Overlap(rs[..k], f, t)
  {
    hide Piece, Width, Sorted, Cut, Overlap;
    if k < |rs| {
      var n := |rs| - 1;
      Beyond(rs, k, n);
      BeyondCut(rs[..n], k, f, t);
      Untouched(rs[n], f, t);
      LastCut(rs, f, t);
      assert rs[..n][..k] == rs[..k] && rs[k..] == rs[..n][k..] + [rs[n]];
    } else {
      assert rs[..k] == rs && rs[k..] == [];
    }
  }

  /** Nothing that ends by f is touched. */
  lemma {:induction false} BeforeCut(rs: seq<Region>, f: int, t: int)
    requires Sorted(rs) && f <= t && Below(rs, f)
    ensures Cut(rs, f, t) == rs && Overlap(rs, f, t) == 0
  {
    hide Piece, Width, Sorted;
    if rs != [] {
      var n := |rs| - 1;
      Beyond(rs, n, n);
      BeforeCut(rs[..n], f, t);
      Untouched(rs[n], f, t);
      assert rs == rs[..n] + [rs[n]];
    }
  }
}
