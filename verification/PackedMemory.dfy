/** How the positions of the packed ring appear in memory: a slot index and a wrap counter. */
module PackedMemory {
  import opened Modular
  import opened PackedProtocol

  /** k slots after slot u of a ring of num. */
  function Slot(u: nat, k: nat, num: nat): nat
    requires u < num && k <= num
  {
    if u + k < num then u + k else u + k - num
  }

  lemma SlotStep(u: nat, k: nat, num: nat)
    requires u < num && k < num
    ensures Slot(u, k + 1, num) == if Slot(u, k, num) + 1 >= num then 0 else Slot(u, k, num) + 1
    ensures Slot(u, 0, num) == u
  {
  }

  lemma SlotTells(u: nat, k: nat, m: nat, num: nat)
    requires u < num && k <= m < num
    ensures Slot(u, k, num) == Slot(u, m, num) <==> k == m
  {
  }

  function Lap(u: nat, w: bool, k: nat, num: nat): bool {
    if u + k < num then w else !w
  }

  /** The wrap counter of a position: set on laps 0, 2, 4, ... */
  ghost predicate Even(p: nat, num: nat)
    requires num > 0
  {
    p / num % 2 == 0
  }

  /** Memory `slots`, with u and w the driver's record of where U is, holds the ring r. */
  ghost predicate Shows(slots: seq<Desc>, u: nat, w: bool, r: Ring) {
    && |slots| == |r.cells| && |r.laps| == |r.cells| + 1 && u < |slots|
    && u == r.U % |slots| && w == Even(r.U, |slots|)
    && (forall k :: 0 <= k < |slots| ==> slots[Slot(u, k, |slots|)] == r.cells[k])
    && (forall k :: 0 <= k <= |slots| ==> r.laps[k] == Lap(u, w, k, |slots|))
  }

  lemma StartShows(num: nat)
    requires num > 0
    ensures Shows(Start(num).cells, 0, true, Start(num))
  {
  }

  /** Slot and lap of every position within one ring length of U. */
  lemma PositionShows(U: nat, k: nat, num: nat)
    requires num > 0 && k <= num
    ensures (U + k) % num == Slot(U % num, k, num)
    ensures Even(U + k, num) == Lap(U % num, Even(U, num), k, num)
  {
    var q, u := U / num, U % num;
    assert U == num * q + u;
    if u + k < num {
      DivUnique(U + k, num, q, u + k);
    } else {
      assert num * (q + 1) == num * q + num;
      DivUnique(U + k, num, q + 1, u + k - num);
    }
  }

  lemma WriteShows(slots: seq<Desc>, u: nat, w: bool, r: Ring, k: nat, d: Desc)
    requires Shows(slots, u, w, r) && k < |slots|
    ensures Shows(slots[Slot(u, k, |slots|) := d], u, w, r.(cells := r.cells[k := d]))
  {
  }

  /** The driver's record after consuming n positions shows the turned ring in unchanged memory. */
  lemma TurnShows(slots: seq<Desc>, u: nat, w: bool, r: Ring, n: nat, r': Ring)
    requires Shows(slots, u, w, r) && n <= |slots| && r.laps[|slots|] == !r.laps[0]
    requires r'.cells == r.cells[n..] + r.cells[..n] && r'.laps == Turned(r.laps, n) && r'.U == r.U + n
    ensures Shows(slots, Slot(u, n, |slots|), Lap(u, w, n, |slots|), r')
  {
    var num := |slots|;
    PositionShows(r.U, n, num);
    var u' := Slot(u, n, num);
    forall k | 0 <= k < num ensures slots[Slot(u', k, num)] == r'.cells[k] {
      if n + k < num {
        assert r'.cells[k] == r.cells[n + k] && Slot(u', k, num) == Slot(u, n + k, num);
      } else {
        assert r'.cells[k] == r.cells[n + k - num] && Slot(u', k, num) == Slot(u, n + k - num, num);
      }
    }
  }
}
