/** Linked lists as sequences, each element linked at most once. */
module Lists {

  ghost predicate NoDup(q: seq<nat>) {
    forall i, j :: 0 <= i < j < |q| ==> q[i] != q[j]
  }

  /** list_del */
  function Unlinked(q: seq<nat>, x: nat): seq<nat> {
    if q == [] then [] else if q[0] == x then q[1..] else [q[0]] + Unlinked(q[1..], x)
  }

  lemma {:induction false} UnlinkedHas(q: seq<nat>, x: nat)
    requires NoDup(q)
    ensures NoDup(Unlinked(q, x)) && forall y :: y in Unlinked(q, x) <==> y in q && y != x
  {
    if q != [] {
      assert forall y :: y in q <==> y == q[0] || y in q[1..];
      assert q[0] !in q[1..];
      UnlinkedHas(q[1..], x);
      if q[0] != x {
        var r := Unlinked(q[1..], x);
        assert forall i :: 0 <= i < |r| ==> r[i] in r;
      }
    }
  }

  lemma {:induction false} UnlinkedAbsent(q: seq<nat>, x: nat)
    requires x !in q
    ensures Unlinked(q, x) == q
  {
    if q != [] {
      UnlinkedAbsent(q[1..], x);
    }
  }
}
