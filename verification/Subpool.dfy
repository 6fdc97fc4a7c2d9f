/** The ledger of a hugetlbfs subpool: what it has charged to the global reserve, page for page. */
module Subpools {

  const ENOMEM := 12

  /** `max`, `min`: -1 when not set. `charge` is what has been charged to the global reserve on the subpool's behalf,
      `outstanding` the pages got and not put. */
  datatype Ledger = Ledger(count: nat, max: int, used: int, min: int, rsv: int, outstanding: nat, charge: int)

  function Kept(l: Ledger): int {
    if l.min == -1 then 0 else l.rsv
  }

  /** Every page charged is either outstanding or held back for the minimum. */
  ghost predicate Balanced(l: Ledger) {
    && -1 <= l.max && -1 <= l.min
    && l.charge == l.outstanding + Kept(l)
    && (l.min == -1 ==> l.rsv == -1)
    && (l.min != -1 ==> 0 <= l.rsv <= l.min <= l.charge)
    && l.used == (if l.max == -1 then 0 else l.outstanding)
    && (l.max != -1 ==> l.used <= l.max)
  }

  function Opened(max: int, min: int): Ledger {
    Ledger(1, max, 0, min, min, 0, if min == -1 then 0 else min)
  }

  predicate Refuses(l: Ledger, delta: nat) {
    l.max != -1 && l.max < l.used + delta
  }

  /** What `delta` more pages cost the global reserve: those that the minimum does not cover. */
  function Cost(l: Ledger, delta: nat): nat {
    if l.min == -1 || l.rsv < 0 then delta else if delta > l.rsv then delta - l.rsv else 0
  }

  function AfterGet(l: Ledger, delta: nat): Ledger {
    if Refuses(l, delta) then l else
      l.(used := if l.max == -1 then l.used else l.used + delta,
         rsv := if l.min == -1 then l.rsv else l.rsv - (delta - Cost(l, delta)),
         outstanding := l.outstanding + delta, charge := l.charge + Cost(l, delta))
  }

  function UsedAfterPut(l: Ledger, delta: nat): int {
    if l.max == -1 then l.used else l.used - delta
  }

  /** What `delta` pages put back return to the global reserve: those that the minimum does not claim. */
  function Return(l: Ledger, delta: nat): int {
    if l.min == -1 || l.min <= UsedAfterPut(l, delta) then delta
    else if l.rsv + delta <= l.min then 0
    else l.rsv + delta - l.min
  }

  function AfterPut(l: Ledger, delta: nat): Ledger
    requires delta <= l.outstanding
  {
    l.(used := UsedAfterPut(l, delta),
       rsv := if l.min == -1 then l.rsv else l.rsv + (delta - Return(l, delta)),
       outstanding := l.outstanding - delta, charge := l.charge - Return(l, delta))
  }

  predicate IsFree(l: Ledger) {
    l.count == 0 && if l.max != -1 then l.used == 0 else l.min == -1 || l.rsv == l.min
  }

  /** The charge that stays when the subpool goes. */
  function Residue(l: Ledger): int {
    if l.min == -1 then l.charge else l.charge - l.min
  }

  // ----- any run of gets and puts -----

  datatype Op = Get(delta: nat) | Put(delta: nat)

  function AfterOp(l: Ledger, op: Op): Ledger {
    if op.Get? then AfterGet(l, op.delta) else if op.delta <= l.outstanding then AfterPut(l, op.delta) else l
  }

  function AfterRun(l: Ledger, ops: seq<Op>): Ledger {
    if ops == [] then l else AfterOp(AfterRun(l, ops[..|ops| - 1]), ops[|ops| - 1])
  }

  lemma GetKeeps(l: Ledger, delta: nat)
    requires Balanced(l)
    ensures Balanced(AfterGet(l, delta)) && Cost(l, delta) <= delta
    ensures AfterGet(l, delta) == l <== Refuses(l, delta)
  {
  }

  lemma PutKeeps(l: Ledger, delta: nat)
    requires Balanced(l) && delta <= l.outstanding
    ensures Balanced(AfterPut(l, delta)) && 0 <= Return(l, delta) <= delta
  {
  }

  /** From l to m, `delta` pages have been got: the global reserve has been charged for some only once nothing was
      kept. */
  ghost predicate Got(l: Ledger, m: Ledger, delta: nat) {
    && m.outstanding == l.outstanding + delta && l.charge <= m.charge
    && (l.charge < m.charge ==> m.min == -1 || m.rsv == 0)
  }

  /** Only the maximum stands in the way of a get, and the minimum is used up first. */
  lemma GetMeans(l: Ledger, delta: nat)
    requires Balanced(l)
    ensures var m := AfterGet(l, delta);
            if l.max != -1 && l.max < l.outstanding + delta then m == l
            else Got(l, m, delta) && m.charge - l.charge == Cost(l, delta) && (delta > 0 ==> m != l)
    ensures Refuses(l, delta) <==> l.max != -1 && l.max < l.outstanding + delta
  {
  }

  /** From l to m, `delta` pages have been put: while less than the minimum looks used, some return to the global
      reserve only once the minimum is kept in full; otherwise all do. */
  ghost predicate PutBack(l: Ledger, m: Ledger, delta: nat) {
    && m.outstanding == l.outstanding - delta && l.charge - delta <= m.charge <= l.charge
    && if m.min == -1 || m.min <= m.used then m.charge == l.charge - delta
       else m.charge < l.charge ==> m.rsv == m.min
  }

  lemma PutMeans(l: Ledger, delta: nat)
    requires Balanced(l) && delta <= l.outstanding
    ensures var m := AfterPut(l, delta); PutBack(l, m, delta) && l.charge - m.charge == Return(l, delta)
  {
  }

  /** With a maximum, a subpool is free exactly when nobody holds it and no page is out; without, when the minimum, if
      there is one, is kept in full. */
  lemma FreeMeans(l: Ledger)
    requires Balanced(l)
    ensures l.max != -1 ==> (IsFree(l) <==> l.count == 0 && l.outstanding == 0)
    ensures l.max == -1 ==> (IsFree(l) <==> l.count == 0 && (l.min != -1 ==> l.charge - l.outstanding == l.min))
  {
  }

  lemma OpKeeps(l: Ledger, op: Op)
    requires Balanced(l)
    ensures var m := AfterOp(l, op); Balanced(m) && m.max == l.max && m.min == l.min && m.count == l.count
  {
    hide Balanced;
    GetKeeps(l, op.delta);
    if op.delta <= l.outstanding {
      PutKeeps(l, op.delta);
    }
  }

  /** With nothing outstanding exactly the minimum is charged and kept. */
  lemma AllBack(l: Ledger)
    requires Balanced(l) && l.outstanding == 0
    ensures l.charge == Opened(l.max, l.min).charge && l.rsv == l.min
  {
  }

  lemma OpenedBalanced(max: int, min: int)
    requires -1 <= max && -1 <= min
    ensures Balanced(Opened(max, min))
  {
  }

  /** However many pages come and go, the charge is the outstanding pages and what is kept, and never below the minimum;
      with nothing outstanding it is exactly the minimum again. */
  lemma {:induction false} EveryRun(max: int, min: int, ops: seq<Op>)
    requires -1 <= max && -1 <= min
    ensures var l := AfterRun(Opened(max, min), ops);
            Balanced(l) && l.max == max && l.min == min && l.count == 1
            && (l.outstanding == 0 ==> l.charge == Opened(max, min).charge && l.rsv == min)
  {
    hide AfterOp, Balanced;
    OpenedBalanced(max, min);
    if ops != [] {
      var n := |ops| - 1;
      EveryRun(max, min, ops[..n]);
      OpKeeps(AfterRun(Opened(max, min), ops[..n]), ops[n]);
    }
    var l := AfterRun(Opened(max, min), ops);
    if l.outstanding == 0 {
      AllBack(l);
    }
  }

  /** A subpool with a maximum goes only when nothing of it is in use, and leaves no charge behind. */
  lemma FreedClean(l: Ledger)
    requires Balanced(l) && IsFree(l)
    ensures Residue(l) == l.outstanding
    ensures l.max != -1 ==> l.outstanding == 0 && (l.min != -1 ==> l.rsv == l.min)
  {
  }

  /** Without a maximum, whatever the minimum, it can go while a page of it is in use. */
  lemma FreedInUse(min: int)
    requires -1 <= min
    ensures var m := if min < 0 then 0 else min;
            var l := AfterRun(Opened(-1, min), [Get(m + 1), Put(m)]);
            IsFree(l.(count := 0)) && l.outstanding == 1
  {
    var m := if min < 0 then 0 else min;
    var ops := [Get(m + 1), Put(m)];
    var l := Opened(-1, min);
    assert ops[..1] == [Get(m + 1)] && ops[..1][..0] == [];
    assert AfterRun(l, ops[..1]) == AfterOp(AfterRun(l, []), ops[0]);
    assert AfterRun(l, ops) == AfterOp(AfterRun(l, ops[..1]), ops[1]);
  }

  // ----- the subpool -----

  class Subpool {
    var count: nat
    var maxHpages: int
    var usedHpages: int
    var minHpages: int
    var rsvHpages: int
    var freed: bool
    ghost var outstanding: nat
    ghost var charge: int

    ghost function Books(): Ledger
      reads this
    {
      Ledger(count, maxHpages, usedHpages, minHpages, rsvHpages, outstanding, charge)
    }

    constructor (max: int, min: int)
      ensures Books() == Opened(max, min) && !freed
    {
      count, maxHpages, usedHpages, minHpages, rsvHpages, freed := 1, max, 0, min, min, false;
      outstanding, charge := 0, if min == -1 then 0 else min;
    }

    /** Frees the subpool, and gives the minimum back, once nobody holds it and it looks unused. */
    method UnlockOrRelease()
      requires !freed
      modifies this`freed, this`charge
      ensures freed <==> IsFree(old(Books()))
      ensures Books() == old(Books()).(charge := if freed then Residue(old(Books())) else old(charge))
    {
      if count == 0 && (if maxHpages != -1 then usedHpages == 0 else minHpages == -1 || rsvHpages == minHpages) {
        if minHpages != -1 {
          charge := charge - minHpages;
        }
        freed := true;
      }
    }

    method TakePages(delta: nat) returns (ret: int)
      requires Balanced(Books())
      modifies this
      ensures Books() == AfterGet(old(Books()), delta) && Balanced(Books()) && freed == old(freed)
      ensures ret == if Refuses(old(Books()), delta) then -ENOMEM else Cost(old(Books()), delta)
      ensures ret == -ENOMEM <==> old(maxHpages != -1 && maxHpages < outstanding + delta)
      ensures if ret < 0 then Books() == old(Books())
              else Got(old(Books()), Books(), delta) && charge == old(charge) + ret
    {
      GetKeeps(Books(), delta);
      GetMeans(Books(), delta);
      ret := delta;
      if maxHpages != -1 {
        if usedHpages + delta <= maxHpages {
          usedHpages := usedHpages + delta;
        } else {
          return -ENOMEM;
        }
      }
      if minHpages != -1 && rsvHpages != 0 {
        if delta > rsvHpages {
          ret := delta - rsvHpages;
          rsvHpages := 0;
        } else {
          ret := 0;
          rsvHpages := rsvHpages - delta;
        }
      }
      outstanding := outstanding + delta;
      charge := charge + ret;
    }

    method GiveBack(delta: nat) returns (ret: int)
      requires Balanced(Books()) && !freed && delta <= outstanding
      modifies this
      ensures ret == Return(old(Books()), delta)
      ensures !freed ==> PutBack(old(Books()), Books(), delta) && charge == old(charge) - ret
      ensures var l := AfterPut(old(Books()), delta);
              (freed <==> IsFree(l)) && Books() == l.(charge := if freed then Residue(l) else l.charge)
    {
      PutKeeps(Books(), delta);
      PutMeans(Books(), delta);
      ret := delta;
      if maxHpages != -1 {
        usedHpages := usedHpages - delta;
      }
      if minHpages != -1 && usedHpages < minHpages {
        if rsvHpages + delta <= minHpages {
          ret := 0;
        } else {
          ret := rsvHpages + delta - minHpages;
        }
        rsvHpages := rsvHpages + delta;
        if rsvHpages > minHpages {
          rsvHpages := minHpages;
        }
      }
      outstanding := outstanding - delta;
      charge := charge - ret;
      UnlockOrRelease();
    }

    /** hugepage_put_subpool: drops a handle. */
    method PutSubpool()
      requires Balanced(Books()) && !freed && 0 < count
      modifies this
      ensures var l := old(Books()).(count := old(count) - 1);
              (freed <==> IsFree(l)) && Books() == l.(charge := if freed then Residue(l) else l.charge)
    {
      count := count - 1;
      UnlockOrRelease();
    }
  }

  /** `granted`: whether the global reserve has the minimum to give. */
  method NewSubpool(max: int, min: int, granted: bool) returns (spool: Subpool?)
    requires -1 <= max && -1 <= min
    ensures spool == null <==> (min != -1 && !granted)
    ensures spool != null ==> fresh(spool) && spool.Books() == Opened(max, min) && Balanced(spool.Books()) &&
                              !spool.freed
  {
    if min != -1 && !granted {
      return null;
    }
    spool := new Subpool(max, min);
  }

  /** The pages to charge to the global reserve for `delta` more, or -ENOMEM. */
  method GetPages(spool: Subpool?, delta: nat) returns (ret: int)
    requires spool != null ==> Balanced(spool.Books())
    modifies spool
    ensures spool == null ==> ret == delta
    ensures spool != null ==> Balanced(spool.Books()) && spool.Books() == AfterGet(old(spool.Books()), delta)
    ensures spool != null ==>
              ret == if Refuses(old(spool.Books()), delta) then -ENOMEM else Cost(old(spool.Books()), delta)
    ensures spool != null ==>
              if ret < 0 then spool.Books() == old(spool.Books())
              else Got(old(spool.Books()), spool.Books(), delta) && spool.charge == old(spool.charge) + ret
  {
    ret := delta;
    if spool != null {
      ret := spool.TakePages(delta);
    }
  }

  /** The global reservations to drop for `delta` pages put back. */
  method PutPages(spool: Subpool?, delta: nat) returns (ret: int)
    requires spool != null ==> Balanced(spool.Books()) && !spool.freed && delta <= spool.outstanding
    modifies spool
    ensures spool == null ==> ret == delta
    ensures spool != null ==> ret == Return(old(spool.Books()), delta) &&
                              (spool.freed <==> IsFree(AfterPut(old(spool.Books()), delta)))
    ensures spool != null && !spool.freed ==> Balanced(spool.Books()) &&
                                              spool.Books() == AfterPut(old(spool.Books()), delta)
    ensures spool != null && !spool.freed ==> PutBack(old(spool.Books()), spool.Books(), delta)
    ensures spool != null && spool.freed ==> spool.charge == spool.outstanding &&
                                             (spool.maxHpages != -1 ==> spool.charge == 0)
  {
    ret := delta;
    if spool != null {
      PutKeeps(spool.Books(), delta);
      if IsFree(AfterPut(spool.Books(), delta)) {
        FreedClean(AfterPut(spool.Books(), delta));
      }
      ret := spool.GiveBack(delta);
    }
  }
}
