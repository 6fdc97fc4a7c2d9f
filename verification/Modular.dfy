/** Positions that never wrap and their residues. */
module Modular {

  lemma Multiple(num: int, d: int)
    requires num > 0
    ensures d >= 1 ==> num * d >= num
    ensures d <= -1 ==> num * d <= -num
  {
    if d >= 1 { assert num * d == num * (d - 1) + num; }
    if d <= -1 { assert num * d == num * (d + 1) - num; }
  }

  lemma DivUnique(p: int, num: nat, q: int, x: nat)
    requires num > 0 && p == num * q + x && x < num
    ensures p / num == q && p % num == x
  {
    Multiple(num, p / num - q);
    assert num * (p / num - q) == num * (p / num) - num * q;
  }

  /** Residues tell positions apart within less than one lap. */
  lemma ResidueTells(num: nat, x: int, y: int)
    requires num > 0 && x <= y < x + num
    ensures x % num == y % num <==> x == y
  {
    if x % num == y % num {
      var d := y / num - x / num;
      assert y == num * (y / num) + y % num && x == num * (x / num) + x % num;
      assert y - x == num * d;
      Multiple(num, d);
    }
  }

  lemma NextResidue(num: nat, x: int)
    requires num > 0
    ensures (x + 1) % num == if x % num + 1 == num then 0 else x % num + 1
  {
    var q, r := x / num, x % num;
    if r + 1 == num {
      DivUnique(x + 1, num, q + 1, 0);
    } else {
      DivUnique(x + 1, num, q, r + 1);
    }
  }
}
