/** Products and quotients, kept apart from the proofs that use them. */
module Quotients {

  function Mul(a: nat, b: nat): nat {
    a * b
  }

  function Quot(x: nat, y: nat): nat
    requires 0 < y
  {
    x / y
  }

  lemma MulMono(a: nat, b: nat, c: nat, d: nat)
    requires a <= c && b <= d
    ensures Mul(a, b) <= Mul(c, d)
  {
    assert c * d - a * b == (c - a) * d + a * (d - b);
  }

  lemma QuotExact(x: nat, y: nat)
    requires 0 < y
    ensures Mul(Quot(x, y), y) <= x < Mul(Quot(x, y) + 1, y)
  {
    assert x == y * (x / y) + x % y;
    assert (x / y + 1) * y == (x / y) * y + y;
  }

  lemma QuotAtLeast(x: nat, y: nat, s: nat)
    requires 0 < y && Mul(s, y) <= x
    ensures s <= Quot(x, y)
  {
    hide Mul, Quot;
    QuotExact(x, y);
    if Quot(x, y) + 1 <= s {
      MulMono(Quot(x, y) + 1, y, s, y);
    }
  }

  lemma QuotAtMost(x: nat, y: nat, s: nat)
    requires 0 < y && x < Mul(s + 1, y)
    ensures Quot(x, y) <= s
  {
    hide Mul, Quot;
    QuotExact(x, y);
    if s + 1 <= Quot(x, y) {
      MulMono(s + 1, y, Quot(x, y), y);
    }
  }

  lemma MulSums(a: nat, b: nat)
    ensures Mul(a + 1, b) == Mul(a, b) + b && Mul(1, b) == b && Mul(b, 1) == b && Mul(0, b) == 0
  {
  }

  lemma MulComm(a: nat, b: nat)
    ensures Mul(a, b) == Mul(b, a)
  {
  }
}

/** How much of each LRU list a reclaim pass may scan, and how the pass spends it. */
module ScanBudget {
  import opened Numbers
  import opened Quotients

  const SWAP_CLUSTER_MAX := 32

  // ----- get_scan_count: how much pressure on which list -----

  datatype Fraction = Fraction(ap: nat, fp: nat)

  function AnonCost(a: nat, f: nat): nat { a + f + a }

  function FileCost(a: nat, f: nat): nat { a + f + f }

  /** The weights of anon and file pages, for the refault costs a and f. */
  function Weights(swappiness: nat, a: nat, f: nat): Fraction
    requires swappiness <= 200
  {
    var total := AnonCost(a, f) + FileCost(a, f);
    Fraction(Quot(Mul(swappiness, total + 1), AnonCost(a, f) + 1),
        Quot(Mul(200 - swappiness, total + 1), FileCost(a, f) + 1))
  }

  /** The denominator is never small, whatever the costs. */
  lemma WeightsSum(swappiness: nat, a: nat, f: nat)
    requires swappiness <= 200
    ensures var w := Weights(swappiness, a, f); 200 <= w.ap + w.fp && swappiness <= w.ap && 200 - swappiness <= w.fp
  {
    hide Mul, Quot;
    var total := AnonCost(a, f) + FileCost(a, f);
    MulMono(swappiness, AnonCost(a, f) + 1, swappiness, total + 1);
    QuotAtLeast(Mul(swappiness, total + 1), AnonCost(a, f) + 1, swappiness);
    MulMono(200 - swappiness, FileCost(a, f) + 1, 200 - swappiness, total + 1);
    QuotAtLeast(Mul(200 - swappiness, total + 1), FileCost(a, f) + 1, 200 - swappiness);
  }

  /** Each weight is its type's share of swappiness over its part of the cost, rounded down. */
  lemma WeightsExact(swappiness: nat, a: nat, f: nat)
    requires swappiness <= 200
    ensures var w := Weights(swappiness, a, f);
            && w.ap * (2 * a + f + 1) <= swappiness * (3 * a + 3 * f + 1) < (w.ap + 1) * (2 * a + f + 1)
            && w.fp * (a + 2 * f + 1) <= (200 - swappiness) * (3 * a + 3 * f + 1) < (w.fp + 1) * (a + 2 * f + 1)
  {
    QuotExact(Mul(swappiness, AnonCost(a, f) + FileCost(a, f) + 1), AnonCost(a, f) + 1);
    QuotExact(Mul(200 - swappiness, AnonCost(a, f) + FileCost(a, f) + 1), FileCost(a, f) + 1);
  }

  /** With equal IO cost each type gets at least a third of the pressure exactly if the other type has any cost at all,
      or its own is below 199: what is missing then is lost by rounding. */
  lemma AThird(a: nat, f: nat)
    ensures var w := Weights(100, a, f);
            && (w.ap + w.fp <= 3 * w.ap <==> 1 <= f || a <= 198)
            && (w.ap + w.fp <= 3 * w.fp <==> 1 <= a || f <= 198)
  {
    AnonThird(a, f);
    AnonThird(f, a);
    Mirrored(a, f);
  }

  lemma Mirrored(a: nat, f: nat)
    ensures var w := Weights(100, a, f); Weights(100, f, a) == Fraction(w.fp, w.ap)
  {
    hide Mul, Quot;
  }

  lemma AnonThird(a: nat, f: nat)
    ensures var w := Weights(100, a, f); w.fp <= 2 * w.ap <==> 1 <= f || a <= 198
  {
    hide Mul, Quot;
    var w, n := Weights(100, a, f), Mul(100, AnonCost(a, f) + FileCost(a, f) + 1);
    if 1 <= f {
      Hundreds(n, a, f, 150, 299);
    } else if a <= 24 {
      SmallCost(n, a);
    } else if a <= 198 {
      Hundreds(n, a, f, 149, 298);
    } else {
      TooLarge(n, a);
    }
  }

  /** The two quotients lie on the right sides of fixed numbers. */
  lemma Hundreds(n: nat, a: nat, f: nat, low: nat, high: nat)
    requires n == Mul(100, AnonCost(a, f) + FileCost(a, f) + 1)
    requires (1 <= f && low == 150 && high == 299) || (f == 0 && 25 <= a <= 198 && low == 149 && high == 298)
    ensures low <= Quot(n, AnonCost(a, f) + 1) && Quot(n, FileCost(a, f) + 1) <= high
  {
    assert n == 300 * (a + f) + 100;
    assert Mul(low, AnonCost(a, f) + 1) <= n && n < Mul(high + 1, FileCost(a, f) + 1);
    QuotAtLeast(n, AnonCost(a, f) + 1, low);
    QuotAtMost(n, FileCost(a, f) + 1, high);
  }

  lemma TooLarge(n: nat, a: nat)
    requires n == Mul(100, AnonCost(a, 0) + FileCost(a, 0) + 1) && 199 <= a
    ensures Quot(n, AnonCost(a, 0) + 1) <= 149 && 299 <= Quot(n, FileCost(a, 0) + 1)
  {
    assert n == 300 * a + 100;
    assert n < Mul(150, AnonCost(a, 0) + 1) && Mul(299, FileCost(a, 0) + 1) <= n;
    QuotAtMost(n, AnonCost(a, 0) + 1, 149);
    QuotAtLeast(n, FileCost(a, 0) + 1, 299);
  }

  lemma SmallCost(n: nat, a: nat)
    requires n == Mul(100, AnonCost(a, 0) + FileCost(a, 0) + 1) && a <= 24
    ensures Quot(n, FileCost(a, 0) + 1) <= 2 * Quot(n, AnonCost(a, 0) + 1)
  {
    assert n == 300 * a + 100;
    var low, high := if a == 0 then 100 else if a <= 2 then 133 else if a <= 11 then 142 else 148,
                     if a == 0 then 100 else if a <= 2 then 240 else if a <= 11 then 283 else 293;
    QuotAtLeast(n, AnonCost(a, 0) + 1, low);
    QuotAtMost(n, FileCost(a, 0) + 1, high);
  }

  datatype Balance = Equal | Fract(w: Fraction) | FileOnly | AnonOnly

  /** A list's cgroup: its size, its protection, and whether it still exists. */
  datatype Cgroup = Cgroup(usage: nat, min: nat, low: nat, lowReclaim: bool, online: bool)

  function Pow2(n: nat): (p: nat)
    ensures 0 < p
  {
    if n == 0 then 1 else 2 * Pow2(n - 1)
  }

  /** The part of a list that its cgroup's protection leaves open to reclaim. */
  function Exposed(size: nat, c: Cgroup): nat {
    if c.min == 0 && c.low == 0 then size else
      var protection := if !c.lowReclaim && c.low > c.min then c.low else c.min;
      var whole := Max(c.usage, protection) + 1;
      Max(size - Quot(Mul(size, protection), whole), SWAP_CLUSTER_MAX)
  }

  function Pressed(size: nat, c: Cgroup, priority: nat): nat {
    var scan := Quot(Exposed(size, c), Pow2(priority));
    if scan == 0 && !c.online then Min(size, SWAP_CLUSTER_MAX) else scan
  }

  /** The pages of a list of `size` to scan. */
  function ScanCount(size: nat, file: bool, balance: Balance, c: Cgroup, priority: nat): nat
    requires balance.Fract? ==> 0 < balance.w.ap + balance.w.fp
  {
    var scan := Pressed(size, c, priority);
    match balance
    case Equal => scan
    case Fract(w) =>
      var product, denominator := Mul(scan, if file then w.fp else w.ap), w.ap + w.fp;
      if c.online then Quot(product, denominator) else Quot(product + denominator - 1, denominator)
    case FileOnly => if file then scan else 0
    case AnonOnly => if file then 0 else scan
  }

  /** Taking a share, rounded down or up, never makes more, nor nothing of something when rounded up. */
  lemma ShareAtMost(scan: nat, part: nat, whole: nat)
    requires part <= whole && 0 < whole
    ensures Quot(Mul(scan, part), whole) <= scan && Quot(Mul(scan, part) + whole - 1, whole) <= scan
    ensures 0 < scan && 0 < part ==> 0 < Quot(Mul(scan, part) + whole - 1, whole)
  {
    hide Mul, Quot;
    MulMono(scan, part, scan, whole);
    MulSums(scan, whole);
    QuotAtMost(Mul(scan, part), whole, scan);
    QuotAtMost(Mul(scan, part) + whole - 1, whole, scan);
    if 0 < scan && 0 < part {
      MulMono(1, 1, scan, part);
      MulSums(0, 1);
      MulSums(0, whole);
      QuotAtLeast(Mul(scan, part) + whole - 1, whole, 1);
    }
  }

  lemma QuotLess(n: nat, y: nat)
    requires 0 < y
    ensures Quot(n, y) <= n
  {
    hide Mul, Quot;
    MulMono(n + 1, 1, n + 1, y);
    MulSums(0, n + 1);
    QuotAtMost(n, y, n);
  }

  /** The share of a list never exceeds the scan that size, protection and priority allow it, nor the list, but for the
      minimum batch; and the last page of a dead cgroup is not lost to rounding. */
  lemma ScanBounded(size: nat, file: bool, balance: Balance, c: Cgroup, priority: nat)
    requires balance.Fract? ==> 0 < balance.w.ap + balance.w.fp
    ensures var n := ScanCount(size, file, balance, c, priority);
            && n <= Pressed(size, c, priority) && n <= Max(size, SWAP_CLUSTER_MAX)
            && (c.min == 0 && c.low == 0 ==> n <= size)
            && (!c.online && 0 < size && (balance.Equal? ||
                  (balance.Fract? && 0 < if file then balance.w.fp else balance.w.ap))
                ==> 0 < n)
  {
    hide Mul, Quot, Pow2;
    QuotLess(Exposed(size, c), Pow2(priority));
    if balance.Fract? {
      ShareAtMost(Pressed(size, c, priority), if file then balance.w.fp else balance.w.ap, balance.w.ap + balance.w.fp);
    }
  }

  /** What each balance makes of the scan: all of it, all of its own type's and none of the other's, or the type's part,
      rounded down, or up for a cgroup that is gone. */
  lemma BalanceDecides(size: nat, file: bool, balance: Balance, c: Cgroup, priority: nat)
    requires balance.Fract? ==> 0 < balance.w.ap + balance.w.fp
    ensures var n, scan := ScanCount(size, file, balance, c, priority), Pressed(size, c, priority);
            && (balance.Equal? ==> n == scan)
            && (balance.FileOnly? ==> n == if file then scan else 0)
            && (balance.AnonOnly? ==> n == if file then 0 else scan)
            && (balance.Fract? ==>
                  var part, whole := scan * if file then balance.w.fp else balance.w.ap, balance.w.ap + balance.w.fp;
                  if c.online then n * whole <= part < (n + 1) * whole else part <= n * whole < part + whole)
  {
    if balance.Fract? {
      var w := balance.w;
      var part := Mul(Pressed(size, c, priority), if file then w.fp else w.ap);
      QuotExact(part, w.ap + w.fp);
      QuotExact(part + w.ap + w.fp - 1, w.ap + w.fp);
    }
  }

  /** The two types together never get more than one scan, and lose less than two pages of it to rounding. */
  lemma PartsAddUp(size: nat, w: Fraction, c: Cgroup, priority: nat)
    requires 0 < w.ap + w.fp && c.online
    ensures var scan := Pressed(size, c, priority);
            var anon := ScanCount(size, false, Fract(w), c, priority);
            var file := ScanCount(size, true, Fract(w), c, priority);
            anon + file <= scan < anon + file + 2
  {
    hide ScanCount, Pressed;
    var scan := Pressed(size, c, priority);
    BalanceDecides(size, false, Fract(w), c, priority);
    BalanceDecides(size, true, Fract(w), c, priority);
    var anon, file := ScanCount(size, false, Fract(w), c, priority), ScanCount(size, true, Fract(w), c, priority);
    Between(anon, file, scan, w.ap, w.fp);
  }

  lemma Between(x: nat, y: nat, scan: nat, ap: nat, fp: nat)
    requires 0 < ap + fp && x * (ap + fp) <= scan * ap < (x + 1) * (ap + fp)
    requires y * (ap + fp) <= scan * fp < (y + 1) * (ap + fp)
    ensures x + y <= scan < x + y + 2
  {
    var whole := ap + fp;
    assert scan * ap + scan * fp == scan * whole;
    assert (x + y) * whole <= scan * whole < (x + y + 2) * whole;
    if scan < x + y {
      MulMono(scan + 1, whole, x + y, whole);
    } else if x + y + 2 <= scan {
      MulMono(x + y + 2, whole, scan, whole);
    }
  }

  /** Protection keeps from reclaim the part of a list that it is of the cgroup's usage, low as long as it is honoured
      and above min, but never more than leaves a batch. The rest is halved for each step of priority; of a cgroup that
      is gone a batch is left over. */
  lemma PressedExact(size: nat, c: Cgroup, priority: nat) returns (kept: nat, scan: nat)
    ensures c.min == 0 && c.low == 0 ==> kept == 0
    ensures c.min != 0 || c.low != 0 ==>
              var protection := if c.min < c.low && !c.lowReclaim then c.low else c.min;
              var whole := 1 + if c.usage < protection then protection else c.usage;
              kept * whole <= size * protection < (kept + 1) * whole
    ensures kept <= size
    ensures var open := if (c.min == 0 && c.low == 0) || SWAP_CLUSTER_MAX <= size - kept then size - kept
                        else SWAP_CLUSTER_MAX;
            scan * Pow2(priority) <= open < (scan + 1) * Pow2(priority)
    ensures Pressed(size, c, priority) ==
            if 0 < scan || c.online then scan else if size < SWAP_CLUSTER_MAX then size else SWAP_CLUSTER_MAX
  {
    hide Pow2;
    kept := 0;
    if c.min != 0 || c.low != 0 {
      var protection := if c.min < c.low && !c.lowReclaim then c.low else c.min;
      var whole := Max(c.usage, protection) + 1;
      kept := Quot(Mul(size, protection), whole);
      QuotExact(Mul(size, protection), whole);
      KeptSmall(size, protection, whole);
    }
    scan := Quot(Exposed(size, c), Pow2(priority));
    QuotExact(Exposed(size, c), Pow2(priority));
  }

  lemma KeptSmall(size: nat, protection: nat, whole: nat)
    requires protection < whole
    ensures Quot(Mul(size, protection), whole) <= size
  {
    hide Mul, Quot;
    MulMono(size, protection, size, whole);
    MulSums(size, whole);
    QuotAtMost(Mul(size, protection), whole, size);
  }

  /** Every step of priority halves the scan, down to nothing. */
  lemma EachStepHalves(size: nat, c: Cgroup, priority: nat)
    requires c.online
    ensures Pressed(size, c, priority + 1) == Pressed(size, c, priority) / 2
    ensures c.min == 0 && c.low == 0 ==> Pressed(size, c, 0) == size
  {
    var x, p := Exposed(size, c), Pow2(priority);
    var q := Quot(x, p);
    QuotExact(x, p);
    QuotExact(x, 2 * p);
    var h := Quot(x, 2 * p);
    Halved(x, p, q, h);
  }

  lemma MulTwice(h: nat, p: nat)
    ensures Mul(h, 2 * p) == Mul(2 * h, p)
  {
  }

  lemma Halved(x: nat, p: nat, q: nat, h: nat)
    requires Mul(q, p) <= x < Mul(q + 1, p) && Mul(h, 2 * p) <= x < Mul(h + 1, 2 * p)
    ensures h == q / 2
  {
    hide Mul;
    MulTwice(h, p);
    MulTwice(h + 1, p);
    if q < 2 * h {
      MulMono(q + 1, p, 2 * h, p);
    } else if 2 * h + 2 <= q {
      MulMono(2 * h + 2, p, q, p);
    }
  }

  // ----- shrink_lruvec: spending the budget -----

  /** The evictable lists. */
  const LRU_INACTIVE_ANON := 0
  const LRU_ACTIVE_ANON := 1
  const LRU_INACTIVE_FILE := 2
  const LRU_ACTIVE_FILE := 3
  const EVICTABLE := 4

  /** One call of shrink_list. */
  datatype Call = Call(lru: nat, pages: nat)

  ghost function Handed(calls: seq<Call>, lru: nat): nat {
    if calls == [] then 0 else
      Handed(calls[..|calls| - 1], lru) + if calls[|calls| - 1].lru == lru then calls[|calls| - 1].pages else 0
  }

  lemma HandedPush(calls: seq<Call>, call: Call, lru: nat)
    ensures Handed(calls + [call], lru) == Handed(calls, lru) + if call.lru == lru then call.pages else 0
  {
    assert (calls + [call])[..|calls|] == calls;
  }

  /** What the reclaimer made of the first n calls. */
  ghost function Reclaimed(answer: nat -> nat, n: nat): nat {
    if n == 0 then 0 else Reclaimed(answer, n - 1) + answer(n - 1)
  }

  function Total(nr: seq<nat>): nat
    requires |nr| == EVICTABLE
  {
    nr[0] + nr[1] + nr[2] + nr[3]
  }

  lemma HandedNothing()
    ensures forall lru :: Handed([], lru) == 0
  {
  }

  lemma ReclaimedNothing(answer: nat -> nat)
    ensures Reclaimed(answer, 0) == 0
  {
  }

  /** What is still to be scanned never exceeds the target less what was handed out; before any nudge it is just that.
      */
  ghost predicate Within(targets: seq<nat>, nr: seq<nat>, calls: seq<Call>, exact: bool) {
    && |targets| == |nr| == EVICTABLE
    && (forall i :: 0 <= i < |calls| ==> calls[i].lru < EVICTABLE && 1 <= calls[i].pages <= SWAP_CLUSTER_MAX)
    && (forall lru :: 0 <= lru < EVICTABLE ==> nr[lru] + Handed(calls, lru) <= targets[lru])
    && (exact ==> forall lru :: 0 <= lru < EVICTABLE ==> nr[lru] + Handed(calls, lru) == targets[lru])
  }

  lemma WithinNext(targets: seq<nat>, nr: seq<nat>, calls: seq<Call>, exact: bool, lru: nat, pages: nat)
    requires Within(targets, nr, calls, exact) && lru < EVICTABLE && 1 <= pages <= SWAP_CLUSTER_MAX && pages <= nr[lru]
    ensures Within(targets, nr[lru := nr[lru] - pages], calls + [Call(lru, pages)], exact)
  {
    forall l {
      HandedPush(calls, Call(lru, pages), l);
    }
  }

  /** How many of the first n lists have any left. */
  ghost function Nonempty(nr: seq<nat>, n: nat): nat
    requires n <= |nr|
  {
    if n == 0 then 0 else Nonempty(nr, n - 1) + if nr[n - 1] != 0 then 1 else 0
  }

  lemma NoneNonempty(nr: seq<nat>)
    ensures Nonempty(nr, 0) == 0
  {
  }

  lemma OneNonempty(nr: seq<nat>, n: nat)
    requires n < |nr|
    ensures Nonempty(nr, n + 1) == Nonempty(nr, n) + if nr[n] != 0 then 1 else 0
  {
  }

  /** One batch from every list that has any left. */
  method ScanRound(nr: array<nat>, calls0: seq<Call>, reclaimed0: nat, answer: nat -> nat, ghost targets: seq<nat>,
      ghost exact: bool)
    returns (calls: seq<Call>, nrReclaimed: nat)
    requires nr.Length == EVICTABLE && Within(targets, nr[..], calls0, exact) &&
          reclaimed0 == Reclaimed(answer, |calls0|)
    modifies nr
    ensures Within(targets, nr[..], calls, exact) && nrReclaimed == Reclaimed(answer, |calls|) >= reclaimed0
    ensures forall lru :: 0 <= lru < EVICTABLE ==> nr[lru] == old(nr[lru]) - Min(old(nr[lru]), SWAP_CLUSTER_MAX)
    ensures forall lru :: 0 <= lru < EVICTABLE ==>
              Handed(calls, lru) == Handed(calls0, lru) + Min(old(nr[lru]), SWAP_CLUSTER_MAX)
    ensures |calls0| <= |calls| <= |calls0| + Nonempty(old(nr[..]), EVICTABLE)
    ensures old(nr[0] != 0 || nr[2] != 0 || nr[3] != 0) ==> Total(nr[..]) < old(Total(nr[..]))
  {
    hide Within, Handed, Nonempty;
    calls, nrReclaimed := calls0, reclaimed0;
    var lru := 0;
    NoneNonempty(nr[..]);
    while lru < EVICTABLE
      invariant 0 <= lru <= EVICTABLE
      invariant Within(targets, nr[..], calls, exact) && nrReclaimed == Reclaimed(answer, |calls|) >= reclaimed0
      invariant forall l :: 0 <= l < lru ==> nr[l] == old(nr[l]) - Min(old(nr[l]), SWAP_CLUSTER_MAX)
      invariant forall l :: lru <= l < EVICTABLE ==> nr[l] == old(nr[l])
      invariant forall l :: 0 <= l < EVICTABLE ==>
                  Handed(calls, l) == Handed(calls0, l) + if l < lru then Min(old(nr[l]), SWAP_CLUSTER_MAX) else 0
      invariant |calls0| <= |calls| <= |calls0| + Nonempty(old(nr[..]), lru)
    {
      OneNonempty(old(nr[..]), lru);
      if nr[lru] != 0 {
        var nrToScan: nat := Min(nr[lru], SWAP_CLUSTER_MAX);
        WithinNext(targets, nr[..], calls, exact, lru, nrToScan);
        ghost var before := nr[..];
        nr[lru] := nr[lru] - nrToScan;
        assert nr[..] == before[lru := before[lru] - nrToScan];
        nrReclaimed := nrReclaimed + answer(|calls|);
        forall l {
          HandedPush(calls, Call(lru, nrToScan), l);
        }
        calls := calls + [Call(lru, nrToScan)];
      }
      lru := lru + 1;
    }
  }

  /** The percentage of `left` pages of a target of `target`, as the nudge computes it. */
  function Percentage(left: nat, target: nat): nat {
    Quot(Mul(left, 100), target + 1)
  }

  lemma PercentageSmall(left: nat, target: nat)
    requires left <= target
    ensures Percentage(left, target) <= 99
  {
    hide Mul, Quot;
    MulMono(left, 100, target, 100);
    MulComm(100, target + 1);
    MulSums(target, 100);
    QuotAtMost(Mul(left, 100), target + 1, 99);
  }

  /** It is the part of the target that is left, in hundredths, as if one page more had been wanted. */
  lemma PercentageExact(left: nat, target: nat)
    ensures var p := Percentage(left, target); p * (target + 1) <= 100 * left < (p + 1) * (target + 1)
  {
    QuotExact(Mul(left, 100), target + 1);
  }

  /** The budget of a list of the larger type after the nudge: what completes the share that the smaller type had. */
  function Rebudget(target: nat, left: nat, percentage: nat): nat
    requires left <= target && percentage <= 100
  {
    var share := Quot(Mul(target, 100 - percentage), 100);
    share - Min(share, target - left)
  }

  lemma RebudgetShrinks(target: nat, left: nat, percentage: nat)
    requires left <= target && percentage <= 100
    ensures Rebudget(target, left, percentage) <= left
    ensures (target - left) + Rebudget(target, left, percentage) ==
          Max(target - left, Quot(Mul(target, 100 - percentage), 100))
  {
    hide Mul, Quot;
    MulMono(target, 100 - percentage, target, 100);
    MulSums(target, 100);
    QuotAtMost(Mul(target, 100 - percentage), 100, target) by {
      assert Mul(target + 1, 100) == Mul(target, 100) + 100;
    }
  }

  /** Stops scanning the smaller type and cuts the larger one down to the same share of its target. */
  method Nudge(nr: array<nat>, targets: seq<nat>)
    requires nr.Length == |targets| == EVICTABLE && forall l :: 0 <= l < EVICTABLE ==> nr[l] <= targets[l]
    modifies nr
    ensures var anon, file := old(nr[0] + nr[1]), old(nr[2] + nr[3]);
            if file > anon then
              var p := Percentage(anon, targets[0] + targets[1]);
              p <= 99 && nr[0] == nr[1] == 0
              && nr[2] == Rebudget(targets[2], old(nr[2]), p) && nr[3] == Rebudget(targets[3], old(nr[3]), p)
            else
              var p := Percentage(file, targets[2] + targets[3]);
              p <= 99 && nr[2] == nr[3] == 0
              && nr[0] == Rebudget(targets[0], old(nr[0]), p) && nr[1] == Rebudget(targets[1], old(nr[1]), p)
    ensures forall l :: 0 <= l < EVICTABLE ==> nr[l] <= old(nr[l])
    ensures Total(nr[..]) <= old(Total(nr[..]))
  {
    hide Mul, Quot;
    var nrFile := nr[LRU_INACTIVE_FILE] + nr[LRU_ACTIVE_FILE];
    var nrAnon := nr[LRU_INACTIVE_ANON] + nr[LRU_ACTIVE_ANON];
    var lru: nat;
    var percentage: nat;
    if nrFile > nrAnon {
      var scanTarget := targets[LRU_INACTIVE_ANON] + targets[LRU_ACTIVE_ANON] + 1;
      lru := LRU_INACTIVE_ANON;
      percentage := Quot(Mul(nrAnon, 100), scanTarget);
      PercentageSmall(nrAnon, scanTarget - 1);
    } else {
      var scanTarget := targets[LRU_INACTIVE_FILE] + targets[LRU_ACTIVE_FILE] + 1;
      lru := LRU_INACTIVE_FILE;
      percentage := Quot(Mul(nrFile, 100), scanTarget);
      PercentageSmall(nrFile, scanTarget - 1);
    }
    nr[lru] := 0;
    nr[lru + 1] := 0;
    lru := if lru == LRU_INACTIVE_FILE then LRU_INACTIVE_ANON else LRU_INACTIVE_FILE;
    RebudgetShrinks(targets[lru], nr[lru], percentage);
    var nrScanned := targets[lru] - nr[lru];
    nr[lru] := Quot(Mul(targets[lru], 100 - percentage), 100);
    nr[lru] := nr[lru] - Min(nr[lru], nrScanned);
    lru := lru + 1;
    RebudgetShrinks(targets[lru], nr[lru], percentage);
    nrScanned := targets[lru] - nr[lru];
    nr[lru] := Quot(Mul(targets[lru], 100 - percentage), 100);
    nr[lru] := nr[lru] - Min(nr[lru], nrScanned);
  }

  /** What a list has left after the nudge, when `left` pages of each list's target were left before. */
  ghost function LeftNudged(targets: seq<nat>, left: seq<nat>, lru: nat): nat
    requires |targets| == |left| == EVICTABLE && lru < EVICTABLE
    requires forall l :: 0 <= l < EVICTABLE ==> left[l] <= targets[l]
  {
    var anon, file := left[0] + left[1], left[2] + left[3];
    if file > anon then
      PercentageSmall(anon, targets[0] + targets[1]);
      if lru < LRU_INACTIVE_FILE then 0
      else Rebudget(targets[lru], left[lru], Percentage(anon, targets[0] + targets[1]))
    else
      PercentageSmall(file, targets[2] + targets[3]);
      if LRU_INACTIVE_FILE <= lru then 0
      else Rebudget(targets[lru], left[lru], Percentage(file, targets[2] + targets[3]))
  }

  /** When the target had been reached, both types had pages left: they were nudged, and what was left then, if it was
      on a list that counts, got one more batch. */
  ghost predicate OneMoreRound(targets: seq<nat>, left: seq<nat>, before: seq<Call>, after: seq<Call>) {
    && |targets| == |left| == EVICTABLE && (forall l :: 0 <= l < EVICTABLE ==> left[l] <= targets[l])
    && 0 < left[0] + left[1] && 0 < left[2] + left[3]
    && (forall l :: 0 <= l < EVICTABLE ==> left[l] + Handed(before, l) == targets[l])
    && var on := LeftNudged(targets, left, 0) != 0 || LeftNudged(targets, left, 2) != 0 ||
              LeftNudged(targets, left, 3) != 0;
    forall l :: 0 <= l < EVICTABLE ==>
      Handed(after, l) == Handed(before, l) + if on then Min(LeftNudged(targets, left, l), SWAP_CLUSTER_MAX) else 0
  }

  /** The scan loop of shrink_lruvec. `answer(i)`: the pages that the i-th call of shrink_list reclaims. */
  method ShrinkLruvec(targets: seq<nat>, nrToReclaim: nat, proportional: bool, answer: nat -> nat)
    returns (calls: seq<Call>, nrReclaimed: nat, nudges: nat, ghost start: nat, ghost reached: seq<Call>)
    requires |targets| == EVICTABLE
    ensures 0 < nrToReclaim && !proportional ==>
              start <= |reached| <= |calls| && |reached| <= start + 4 && |calls| <= |reached| + 2
              && Reclaimed(answer, start) < nrToReclaim
    ensures nudges == 0 ==> reached == calls
    ensures 0 < nrToReclaim && nudges == 0 ==>
              || (Handed(calls, 0) == targets[0] && Handed(calls, 1) == targets[1])
              || (Handed(calls, 2) == targets[2] && Handed(calls, 3) == targets[3])
    ensures nudges == 1 ==> !proportional && nrToReclaim <= Reclaimed(answer, |reached|)
                            && exists left :: OneMoreRound(targets, left, reached, calls)
    ensures nrReclaimed == Reclaimed(answer, |calls|) && nudges <= 1
    ensures forall i :: 0 <= i < |calls| ==> calls[i].lru < EVICTABLE && 1 <= calls[i].pages <= SWAP_CLUSTER_MAX
    ensures forall lru :: 0 <= lru < EVICTABLE ==> Handed(calls, lru) <= targets[lru]
    ensures 0 < nrToReclaim && (nrReclaimed < nrToReclaim || proportional) ==>
              forall lru :: 0 <= lru < EVICTABLE && lru != LRU_ACTIVE_ANON ==> Handed(calls, lru) == targets[lru]
    ensures nrToReclaim == 0 ==> calls == []
  {
    hide Mul, Quot, Handed, Rebudget, Percentage, Reclaimed, Total, OneMoreRound, LeftNudged, Within, Nudged, Nonempty;
    HandedNothing();
    ReclaimedNothing(answer);
    start, reached := 0, [];
    ghost var left: seq<nat> := targets;
    var nr := new nat[EVICTABLE](i requires 0 <= i < EVICTABLE => targets[i]);
    calls, nrReclaimed, nudges := [], 0, 0;
    assert nr[..] == targets;
    NothingYet(targets);
    if nrReclaimed >= nrToReclaim {
      return;
    }
    while nr[LRU_INACTIVE_ANON] != 0 || nr[LRU_ACTIVE_FILE] != 0 || nr[LRU_INACTIVE_FILE] != 0
      invariant Within(targets, nr[..], calls, nudges == 0) && nrReclaimed == Reclaimed(answer, |calls|)
      invariant nudges <= 1 && (nudges == 1 ==> (nr[0] + nr[1] == 0 || nr[2] + nr[3] == 0) &&
                                                !(nrReclaimed < nrToReclaim || proportional))
      invariant nudges == 0 ==> reached == calls && (nrReclaimed < nrToReclaim || proportional)
      invariant start <= |reached| <= start + 4 && (!proportional ==> Reclaimed(answer, start) < nrToReclaim)
      invariant nudges == 1 ==> reached == calls && Nudged(targets, left, calls, nr[..])
      decreases Total(nr[..])
    {
      if nudges == 0 {
        start := |calls|;
      }
      ghost var before := nr[..];
      NonemptyOf(before);
      WithinSays(targets, before, calls, nudges == 0);
      calls, nrReclaimed := ScanRound(nr, calls, nrReclaimed, answer, targets, nudges == 0);
      if nudges == 0 {
        reached := calls;
      }
      WithinSays(targets, nr[..], calls, nudges == 0);
      if nrReclaimed < nrToReclaim || proportional {
        continue;
      }
      var nrFile := nr[LRU_INACTIVE_FILE] + nr[LRU_ACTIVE_FILE];
      var nrAnon := nr[LRU_INACTIVE_ANON] + nr[LRU_ACTIVE_ANON];
      if nrFile == 0 || nrAnon == 0 {
        if nudges == 1 {
          MoreRound(targets, left, reached, before, calls);
        }
        return;
      }
      left := nr[..];
      Nudge(nr, targets);
      NudgedNow(targets, left, calls, nr[..]);
      WithinLess(targets, left, calls, nr[..]);
      nudges := nudges + 1;
    }
    WithinSays(targets, nr[..], calls, nudges == 0);
    if nudges == 1 {
      NoMoreRound(targets, left, calls, nr[..]);
    }
  }

  lemma NothingYet(targets: seq<nat>)
    requires |targets| == EVICTABLE
    ensures Within(targets, targets, [], true)
  {
  }

  lemma WithinSays(targets: seq<nat>, nr: seq<nat>, calls: seq<Call>, exact: bool)
    requires Within(targets, nr, calls, exact)
    ensures forall i :: 0 <= i < |calls| ==> calls[i].lru < EVICTABLE && 1 <= calls[i].pages <= SWAP_CLUSTER_MAX
    ensures |targets| == |nr| == EVICTABLE
    ensures forall l :: 0 <= l < EVICTABLE ==> nr[l] + Handed(calls, l) <= targets[l]
    ensures exact ==> forall l :: 0 <= l < EVICTABLE ==> nr[l] + Handed(calls, l) == targets[l]
  {
    hide Handed;
  }

  lemma WithinLess(targets: seq<nat>, left: seq<nat>, calls: seq<Call>, nr: seq<nat>)
    requires Within(targets, left, calls, true) && |nr| == EVICTABLE
    requires forall l :: 0 <= l < EVICTABLE ==> nr[l] <= left[l]
    ensures Within(targets, nr, calls, false)
  {
    hide Handed;
  }

  /** Right after the nudge. */
  ghost predicate Nudged(targets: seq<nat>, left: seq<nat>, calls: seq<Call>, nr: seq<nat>) {
    && |targets| == |left| == |nr| == EVICTABLE && (forall l :: 0 <= l < EVICTABLE ==> left[l] <= targets[l])
    && 0 < left[0] + left[1] && 0 < left[2] + left[3]
    && (forall l :: 0 <= l < EVICTABLE ==> left[l] + Handed(calls, l) == targets[l])
    && (forall l :: 0 <= l < EVICTABLE ==> nr[l] == LeftNudged(targets, left, l))
  }

  lemma NudgedNow(targets: seq<nat>, left: seq<nat>, calls: seq<Call>, nr: seq<nat>)
    requires Within(targets, left, calls, true) && |nr| == EVICTABLE && 0 < left[0] + left[1] && 0 < left[2] + left[3]
    requires var anon, file := left[0] + left[1], left[2] + left[3];
             if file > anon then
               var p := Percentage(anon, targets[0] + targets[1]);
               p <= 99 && nr[0] == nr[1] == 0 && left[2] <= targets[2] && left[3] <= targets[3]
               && nr[2] == Rebudget(targets[2], left[2], p) && nr[3] == Rebudget(targets[3], left[3], p)
             else
               var p := Percentage(file, targets[2] + targets[3]);
               p <= 99 && nr[2] == nr[3] == 0 && left[0] <= targets[0] && left[1] <= targets[1]
               && nr[0] == Rebudget(targets[0], left[0], p) && nr[1] == Rebudget(targets[1], left[1], p)
    ensures Nudged(targets, left, calls, nr)
  {
    hide Percentage, Rebudget, Handed;
    forall l | 0 <= l < EVICTABLE ensures left[l] <= targets[l] && nr[l] == LeftNudged(targets, left, l) {
      assert left[l] + Handed(calls, l) == targets[l];
    }
  }

  lemma MoreRound(targets: seq<nat>, left: seq<nat>, before: seq<Call>, nr: seq<nat>, after: seq<Call>)
    requires Nudged(targets, left, before, nr) && (nr[0] != 0 || nr[2] != 0 || nr[3] != 0)
    requires forall l :: 0 <= l < EVICTABLE ==> Handed(after, l) == Handed(before, l) + Min(nr[l], SWAP_CLUSTER_MAX)
    ensures OneMoreRound(targets, left, before, after)
  {
    hide LeftNudged, Handed;
  }

  lemma NoMoreRound(targets: seq<nat>, left: seq<nat>, before: seq<Call>, nr: seq<nat>)
    requires Nudged(targets, left, before, nr) && nr[0] == nr[2] == nr[3] == 0
    ensures OneMoreRound(targets, left, before, before)
  {
    hide LeftNudged, Handed;
  }

  lemma NonemptyOf(nr: seq<nat>)
    requires |nr| == EVICTABLE
    ensures Nonempty(nr, EVICTABLE) <= EVICTABLE
    ensures nr[0] + nr[1] == 0 || nr[2] + nr[3] == 0 ==> Nonempty(nr, EVICTABLE) <= 2
  {
    assert Nonempty(nr, 2) <= 2 && Nonempty(nr, 1) <= 1;
  }
}
