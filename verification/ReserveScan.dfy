/** The walk of add_reservation_in_range over a region list that it may edit while it walks. */
module ReserveScan {
  import opened Numbers
  import opened Options
  import opened Regions

  /** x has become `info`'s if it was free and lies in [f, t). */
  ghost predicate Filled(was: seq<Region>, now: seq<Region>, f: int, t: int, info: nat) {
    forall x :: Lookup(now, x) == if f <= x < t && Lookup(was, x) == None then Some(info) else Lookup(was, x)
  }

  /** The list after the pages of [f, t) have been added. */
  ghost predicate Extended(was: seq<Region>, now: seq<Region>, f: int, t: int, info: nat) {
    Sorted(now) && (Apart(was) ==> Apart(now)) && Filled(was, now, f, t, info)
  }

  /** The walk has passed k regions of the old list, stands at i in the edited one, and has dealt with [f, last). */
  ghost predicate Scan(was: seq<Region>, now: seq<Region>, k: nat, i: nat, f: int, last: int, t: int, info: nat) {
    && k <= |was| && i <= |now| && now[i..] == was[k..]
    && f <= last && (last == f || (k > 0 && last == was[k - 1].to))
    && (k > 0 ==> was[k - 1].to <= last && was[k - 1].from < t)
    && (i > 0 ==> now[i - 1].to <= last)
    && Extended(was, now, f, last, info)
  }

  /** The tallies so far: pages added and regions used. */
  ghost predicate Tally(was: seq<Region>, f: int, last: int, add: int, used: int) {
    add == |Missing(was, f, last)| && used == |GapStarts(was, f, last)|
  }

  lemma ScanStart(rs: seq<Region>, f: int, t: int, info: nat)
    requires Sorted(rs)
    ensures Scan(rs, rs, 0, 0, f, f, t, info) && Tally(rs, f, f, 0, 0)
  {
    CountNothing(rs, f);
  }

  lemma FillMore(was: seq<Region>, now: seq<Region>, i: nat, f: int, a: int, b: int, info: nat)
    requires Sorted(now) && Between(now, i, Region(a, b, info)) && f <= a
    requires Extended(was, now, f, a, info)
    requires forall x :: a <= x < b ==> Lookup(was, x) == None
    ensures Extended(was, Insert(now, i, Region(a, b, info)), f, b, info)
  {
    hide Lookup, Sorted, Apart, Insert;
    InsertExact(now, i, Region(a, b, info));
  }

  lemma FillHeld(was: seq<Region>, now: seq<Region>, f: int, a: int, b: int, info: nat)
    requires f <= a <= b && Extended(was, now, f, a, info)
    requires forall x :: a <= x < b ==> Lookup(was, x) != None
    ensures Extended(was, now, f, b, info)
  {
  }

  lemma HeldBy(rs: seq<Region>, k: nat, a: int, b: int)
    requires Sorted(rs) && k < |rs| && rs[k].from <= a && b <= rs[k].to
    ensures forall x :: a <= x < b ==> Lookup(rs, x) != None
  {
    forall x | a <= x < b ensures Lookup(rs, x) != None {
      LookupExact(rs, x, k);
    }
  }

  lemma FreeBefore(rs: seq<Region>, k: nat, a: int, b: int)
    requires Sorted(rs) && k <= |rs| && (k > 0 ==> rs[k - 1].to <= a) && (k < |rs| ==> b <= rs[k].from)
    ensures forall x :: a <= x < b ==> Lookup(rs, x) == None
  {
    forall x | a <= x < b ensures Lookup(rs, x) == None {
      InGap(rs, k, x);
    }
  }

  /** Passing region k, up to whose start everything is dealt with. */
  lemma PassRegion(was: seq<Region>, now: seq<Region>, k: nat, i: nat, f: int, last: int, t: int, info: nat, add: int,
      used: int)
    requires Sorted(was) && k < |was| && i < |now| && now[i].to == was[k].to && now[i + 1..] == was[k + 1..]
    requires f <= last && was[k].from <= last && was[k].from < t
    requires Extended(was, now, f, last, info) && Tally(was, f, last, add, used)
    requires was[k].to <= last ==> last == f
    ensures var upto := Max(last, was[k].to);
            Scan(was, now, k + 1, i + 1, f, upto, t, info) && Tally(was, f, upto, add, used)
  {
    hide Lookup, Sorted, Extended;
    var upto := Max(last, was[k].to);
    HeldBy(was, k, last, was[k].to);
    FillHeld(was, now, f, last, upto, info);
    CountHeld(was, f, last, upto);
  }

  lemma Aligned(was: seq<Region>, now: seq<Region>, k: nat, i: nat)
    requires k < |was| && i <= |now| && now[i..] == was[k..]
    ensures i < |now| && now[i] == was[k] && now[i + 1..] == was[k + 1..]
  {
    assert now[i..][0] == was[k..][0];
    assert now[i..][1..] == was[k..][1..];
  }

  lemma ScanFacts(was: seq<Region>, now: seq<Region>, k: nat, i: nat, f: int, last: int, t: int, info: nat)
    requires Scan(was, now, k, i, f, last, t, info)
    ensures k <= |was| && i <= |now| && |now| - i == |was| - k && f <= last && Extended(was, now, f, last, info)
    ensures k < |was| ==> now[i] == was[k]
  {
    hide Extended;
    assert |now[i..]| == |was[k..]|;
    if k < |was| {
      Aligned(was, now, k, i);
    }
  }

  /** The walk passes a region that begins before or where the gap would. */
  lemma Pass(was: seq<Region>, now: seq<Region>, k: nat, i: nat, f: int, last: int, t: int, info: nat, add: int,
      used: int)
    requires Sorted(was) && Scan(was, now, k, i, f, last, t, info) && Tally(was, f, last, add, used)
    requires k < |was| && was[k].from <= last && was[k].from < t
    ensures var upto := Max(last, was[k].to);
            Scan(was, now, k + 1, i + 1, f, upto, t, info) && Tally(was, f, upto, add, used)
            && (f <= was[k].from ==> upto == was[k].to)
  {
    hide Extended, Tally;
    Aligned(was, now, k, i);
    PassRegion(was, now, k, i, f, last, t, info, add, used);
  }

  /** What one more gap, from last to b, does to the tallies. */
  lemma TallyGap(was: seq<Region>, k: nat, f: int, last: int, b: int, add: int, used: int)
    requires Sorted(was) && k <= |was| && f <= last < b
    requires last == f || (k > 0 && last == was[k - 1].to)
    requires (k > 0 ==> was[k - 1].to <= last) && (k < |was| ==> b <= was[k].from)
    requires Tally(was, f, last, add, used)
    ensures Tally(was, f, b, add + (b - last), used + 1)
    ensures forall x :: last <= x < b ==> Lookup(was, x) == None
  {
    hide Lookup, GapStarts, Missing;
    FreeBefore(was, k, last, b);
    if last != f {
      assert was[k - 1].from < was[k - 1].to;
      LookupExact(was, last - 1, k - 1);
    }
    CountGap(was, f, last, b);
  }

  /** Gap starts up to an earlier point are gap starts up to a later one. */
  lemma FewerStarts(rs: seq<Region>, f: int, a: int, b: int)
    requires a <= b
    ensures |GapStarts(rs, f, a)| <= |GapStarts(rs, f, b)|
  {
    hide StartsGap;
    var rest := GapStarts(rs, f, b) - GapStarts(rs, f, a);
    assert GapStarts(rs, f, b) == GapStarts(rs, f, a) + rest;
  }

  /** A region list has room for a new region where the walk stands. */
  lemma Room(was: seq<Region>, now: seq<Region>, k: nat, i: nat, f: int, last: int, t: int, info: nat, b: int)
    requires Scan(was, now, k, i, f, last, t, info) && last < b && (k < |was| ==> b <= was[k].from)
    ensures Between(now, i, Region(last, b, info))
  {
    assert i < |now| ==> k < |was| && now[i] == now[i..][0] && was[k] == was[k..][0];
  }

  /** The walk inserts the gap before region k and passes the region, wherever merging has moved it. */
  lemma FillAndPass(was: seq<Region>, now: seq<Region>, k: nat, i: nat, f: int, last: int, t: int, info: nat, add: int,
      used: int)
    requires Sorted(was) && Scan(was, now, k, i, f, last, t, info) && Tally(was, f, last, add, used)
    requires k < |was| && last < was[k].from < t
    ensures var b := was[k].from;
            var ts := Insert(now, i, Region(last, b, info)); var n := |ts| - (|now| - i);
            0 <= n && Scan(was, ts, k + 1, n + 1, f, was[k].to, t, info) &&
                Tally(was, f, was[k].to, add + (b - last), used + 1)
    ensures used + 1 <= |GapStarts(was, f, t)|
  {
    hide Lookup, Insert, Extended, GapStarts;
    var b := was[k].from;
    var r := Region(last, b, info);
    var ts := Insert(now, i, r);
    var n := |ts| - (|now| - i);
    Aligned(was, now, k, i);
    Room(was, now, k, i, f, last, t, info, b);
    TallyGap(was, k, f, last, b, add, used);
    ExtendedSorted(was, now, f, last, info);
    FillMore(was, now, i, f, last, b, info);
    InsertSuffix(now, i, r);
    FewerStarts(was, f, b, t);
    PassRegion(was, ts, k, n, f, b, t, info, add + (b - last), used + 1);
  }

  lemma ExtendedSorted(was: seq<Region>, now: seq<Region>, f: int, t: int, info: nat)
    requires Extended(was, now, f, t, info)
    ensures Sorted(now)
  {
  }

  /** The last gap, up to t, and the end of the walk. */
  lemma FillTail(was: seq<Region>, now: seq<Region>, k: nat, i: nat, f: int, last: int, t: int, info: nat, add: int,
      used: int)
    requires Sorted(was) && Scan(was, now, k, i, f, last, t, info) && Tally(was, f, last, add, used)
    requires last < t && (k < |was| ==> t <= was[k].from)
    ensures Between(now, i, Region(last, t, info))
    ensures Extended(was, Insert(now, i, Region(last, t, info)), f, t, info) &&
          Tally(was, f, t, add + (t - last), used + 1)
  {
    hide Lookup, Insert, Tally;
    Room(was, now, k, i, f, last, t, info, t);
    TallyGap(was, k, f, last, t, add, used);
    FillMore(was, now, i, f, last, t, info);
  }

  /** Nothing is missing after all. */
  lemma NoTail(was: seq<Region>, now: seq<Region>, k: nat, i: nat, f: int, last: int, t: int, info: nat, add: int,
      used: int)
    requires Sorted(was) && Scan(was, now, k, i, f, last, t, info) && Tally(was, f, last, add, used)
    requires f <= t <= last
    ensures Extended(was, now, f, t, info) && Tally(was, f, t, add, used)
  {
    hide Lookup;
    if t < last {
      HeldBy(was, k - 1, t, last);
      CountHeld(was, f, t, last);
    }
  }
}
