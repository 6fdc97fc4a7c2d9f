/** One node's queue of memory cgroups for reclaim: generations held modulo NR_GENS, each split into bins. */
module MemcgLru {
  import opened Lists
  import opened Modular

  datatype Config = Config(nrGens: nat, nrBins: nat)

  /** seqno and seqno + 1 have to be different generations. */
  predicate Sane(c: Config) {
    2 <= c.nrGens && 1 <= c.nrBins
  }

  datatype Op = Head | Tail | Old | Young

  /** `seg`: 0 is NOP. `bin` is where the list links lead while `linked`. */
  datatype Lruvec = Lruvec(gen: nat, bin: nat, seg: nat, linked: bool)

  datatype Slot = Slot(gen: nat, bin: nat)

  datatype State = State(seqno: nat, fifo: map<Slot, seq<nat>>, nr: seq<int>, vecs: map<nat, Lruvec>)

  function Gen(c: Config, seqno: nat): nat
    requires Sane(c)
  {
    seqno % c.nrGens
  }

  function Queue(fifo: map<Slot, seq<nat>>, at: Slot): seq<nat> {
    if at in fifo then fifo[at] else []
  }

  function Enqueued(q: seq<nat>, id: nat, head: bool): seq<nat> {
    if head then [id] + q else q + [id]
  }

  ghost function Members(vecs: map<nat, Lruvec>, g: nat): set<nat> {
    set id | id in vecs && vecs[id].linked && vecs[id].gen == g
  }

  /** A lruvec is queued exactly where its own fields say, and nowhere twice. */
  ghost predicate Filed(fifo: map<Slot, seq<nat>>, vecs: map<nat, Lruvec>) {
    && (forall at, id :: id in Queue(fifo, at) <==>
          id in vecs && vecs[id].linked && Slot(vecs[id].gen, vecs[id].bin) == at)
    && (forall at :: NoDup(Queue(fifo, at)))
  }

  ghost predicate Counted(c: Config, s: State) {
    |s.nr| == c.nrGens && forall g: nat :: g < c.nrGens ==> s.nr[g] == |Members(s.vecs, g)|
  }

  /** Only two generations are in use. */
  ghost predicate Ranged(c: Config, s: State)
    requires Sane(c)
  {
    forall id :: id in s.vecs && s.vecs[id].linked ==> s.vecs[id].gen == Gen(c, s.seqno) ||
                                                       s.vecs[id].gen == Gen(c, s.seqno + 1)
  }

  /** There is always something to reclaim from in the oldest generation. */
  ghost predicate Populated(c: Config, s: State)
    requires Sane(c)
  {
    (exists id :: id in s.vecs && s.vecs[id].linked) ==> Members(s.vecs, Gen(c, s.seqno)) != {}
  }

  ghost predicate Ok(c: Config, s: State) {
    Sane(c) && Filed(s.fifo, s.vecs) && Counted(c, s) && Ranged(c, s) && Populated(c, s)
  }

  // ----- taking a lruvec out of its queue and putting it into one -----

  function Unfiled(s: State, id: nat): State
    requires id in s.vecs && s.vecs[id].gen < |s.nr|
  {
    var v := s.vecs[id];
    var at := Slot(v.gen, v.bin);
    s.(fifo := s.fifo[at := Unlinked(Queue(s.fifo, at), id)],
       nr := s.nr[v.gen := s.nr[v.gen] - 1],
       vecs := s.vecs[id := v.(linked := false)])
  }

  function FiledAt(s: State, id: nat, at: Slot, head: bool, seg: nat): State
    requires id in s.vecs && at.gen < |s.nr|
  {
    s.(fifo := s.fifo[at := Enqueued(Queue(s.fifo, at), id, head)],
       nr := s.nr[at.gen := s.nr[at.gen] + 1],
       vecs := s.vecs[id := Lruvec(at.gen, at.bin, seg, true)])
  }

  /** The oldest generation has run empty: the next one takes over. */
  function Advanced(c: Config, s: State, left: nat): State
    requires Sane(c) && left < |s.nr|
  {
    if s.nr[left] == 0 && left == Gen(c, s.seqno) then s.(seqno := s.seqno + 1) else s
  }

  lemma EnqueuedHas(q: seq<nat>, id: nat, head: bool)
    requires NoDup(q) && id !in q
    ensures NoDup(Enqueued(q, id, head)) && forall x :: x in Enqueued(q, id, head) <==> x in q || x == id
  {
  }

  lemma UnfiledQueues(s: State, id: nat)
    requires id in s.vecs && s.vecs[id].gen < |s.nr| && s.vecs[id].linked && Filed(s.fifo, s.vecs)
    ensures Filed(Unfiled(s, id).fifo, Unfiled(s, id).vecs)
  {
    hide NoDup, Unlinked;
    var at := Slot(s.vecs[id].gen, s.vecs[id].bin);
    var t := Unfiled(s, id);
    UnlinkedHas(Queue(s.fifo, at), id);
    forall b ensures Queue(t.fifo, b) == if b == at then Unlinked(Queue(s.fifo, at), id) else Queue(s.fifo, b) {
    }
  }

  lemma UnfiledCounts(c: Config, s: State, id: nat)
    requires id in s.vecs && s.vecs[id].linked && Counted(c, s) && s.vecs[id].gen < c.nrGens
    ensures Counted(c, Unfiled(s, id))
  {
    var t := Unfiled(s, id);
    forall g: nat | g < c.nrGens ensures t.nr[g] == |Members(t.vecs, g)| {
      if g == s.vecs[id].gen {
        assert Members(t.vecs, g) == Members(s.vecs, g) - {id};
      } else {
        assert Members(t.vecs, g) == Members(s.vecs, g);
      }
    }
  }

  lemma FiledAtQueues(s: State, id: nat, at: Slot, head: bool, seg: nat)
    requires id in s.vecs && at.gen < |s.nr| && !s.vecs[id].linked && Filed(s.fifo, s.vecs)
    ensures var t := FiledAt(s, id, at, head, seg); Filed(t.fifo, t.vecs)
  {
    hide NoDup, Enqueued;
    var t := FiledAt(s, id, at, head, seg);
    EnqueuedHas(Queue(s.fifo, at), id, head);
    forall b ensures Queue(t.fifo, b) == if b == at then Enqueued(Queue(s.fifo, at), id, head) else Queue(s.fifo, b) {
    }
  }

  lemma FiledAtCounts(c: Config, s: State, id: nat, at: Slot, head: bool, seg: nat)
    requires id in s.vecs && !s.vecs[id].linked && Counted(c, s) && at.gen < c.nrGens
    ensures Counted(c, FiledAt(s, id, at, head, seg))
  {
    var t := FiledAt(s, id, at, head, seg);
    forall g: nat | g < c.nrGens ensures t.nr[g] == |Members(t.vecs, g)| {
      if g == at.gen {
        assert Members(t.vecs, g) == Members(s.vecs, g) + {id};
      } else {
        assert Members(t.vecs, g) == Members(s.vecs, g);
      }
    }
  }

  lemma TwoGens(c: Config, seqno: nat)
    requires Sane(c)
    ensures Gen(c, seqno) != Gen(c, seqno + 1) && Gen(c, seqno) < c.nrGens
  {
    ResidueTells(c.nrGens, seqno, seqno + 1);
  }

  // ----- the operations -----

  function NewGen(c: Config, s: State, id: nat, op: Op): nat
    requires Sane(c) && id in s.vecs
  {
    match op
    case Old => Gen(c, s.seqno)
    case Young => Gen(c, s.seqno + 1)
    case _ => s.vecs[id].gen
  }

  function Seg(op: Op): nat {
    match op
    case Head => 1
    case Tail => 2
    case _ => 0
  }

  /** The move itself, before the oldest generation may change. */
  function Shifted(c: Config, s: State, id: nat, op: Op, bin: nat): State
    requires Sane(c) && |s.nr| == c.nrGens && id in s.vecs && s.vecs[id].gen < c.nrGens
  {
    FiledAt(Unfiled(s, id), id, Slot(NewGen(c, s, id, op), bin), op.Head? || op.Old?, Seg(op))
  }

  function Rotated(c: Config, s: State, id: nat, op: Op, bin: nat): State
    requires Sane(c) && |s.nr| == c.nrGens && id in s.vecs && s.vecs[id].gen < c.nrGens
  {
    Advanced(c, Shifted(c, s, id, op, bin), s.vecs[id].gen)
  }

  function Onlined(c: Config, s: State, id: nat, bin: nat): State
    requires Sane(c) && |s.nr| == c.nrGens && id in s.vecs
  {
    FiledAt(s, id, Slot(Gen(c, s.seqno), bin), false, s.vecs[id].seg)
  }

  function Released(c: Config, s: State, id: nat): State
    requires Sane(c) && |s.nr| == c.nrGens && id in s.vecs && s.vecs[id].gen < c.nrGens
  {
    if s.vecs[id].linked then Advanced(c, Unfiled(s, id), s.vecs[id].gen) else s
  }

  lemma MemberGen(c: Config, s: State, id: nat)
    requires Ok(c, s) && id in s.vecs && s.vecs[id].linked
    ensures s.vecs[id].gen < c.nrGens
  {
    TwoGens(c, s.seqno);
    TwoGens(c, s.seqno + 1);
  }

  /** Once the members of the oldest generation are gone, the next one is the oldest, and everybody is in it. */
  lemma AdvancedOk(c: Config, s: State, left: nat)
    requires Sane(c) && Filed(s.fifo, s.vecs) && Counted(c, s) && Ranged(c, s) && left < c.nrGens
    requires left != Gen(c, s.seqno) ==> Populated(c, s)
    ensures Ok(c, Advanced(c, s, left)) && s.seqno <= Advanced(c, s, left).seqno <= s.seqno + 1
  {
    hide Filed;
    TwoGens(c, s.seqno);
    if s.nr[left] == 0 && left == Gen(c, s.seqno) {
      assert Members(s.vecs, left) == {};
      forall id | id in s.vecs && s.vecs[id].linked ensures s.vecs[id].gen == Gen(c, s.seqno + 1) {
        assert id !in Members(s.vecs, left);
      }
      if id :| id in s.vecs && s.vecs[id].linked {
        assert id in Members(s.vecs, Gen(c, s.seqno + 1));
      }
    }
  }

  lemma UnfiledParts(s: State, id: nat)
    requires id in s.vecs && s.vecs[id].gen < |s.nr|
    ensures var u := Unfiled(s, id);
            |u.nr| == |s.nr| && u.vecs == s.vecs[id := s.vecs[id].(linked := false)] && u.seqno == s.seqno
  {
  }

  lemma FiledAtParts(s: State, id: nat, at: Slot, head: bool, seg: nat)
    requires id in s.vecs && at.gen < |s.nr|
    ensures var u := FiledAt(s, id, at, head, seg);
            |u.nr| == |s.nr| && u.vecs == s.vecs[id := Lruvec(at.gen, at.bin, seg, true)] && u.seqno == s.seqno
  {
  }

  lemma ShiftKeeps(c: Config, s: State, id: nat, op: Op, bin: nat)
    requires Ok(c, s) && id in s.vecs && s.vecs[id].linked && s.vecs[id].gen < c.nrGens
    ensures var t := Shifted(c, s, id, op, bin);
            Filed(t.fifo, t.vecs) && Counted(c, t) && Ranged(c, t) && t.seqno == s.seqno
            && t.vecs == s.vecs[id := Lruvec(NewGen(c, s, id, op), bin, Seg(op), true)]
  {
    hide Filed, Counted, Populated, Members, FiledAt, Unfiled, Gen, Seg;
    TwoGens(c, s.seqno);
    TwoGens(c, s.seqno + 1);
    CountsHold(c, s);
    UnfiledParts(s, id);
    var at := Slot(NewGen(c, s, id, op), bin);
    var u := Unfiled(s, id);
    UnfiledQueues(s, id);
    UnfiledCounts(c, s, id);
    FiledAtParts(u, id, at, op.Head? || op.Old?, Seg(op));
    FiledAtQueues(u, id, at, op.Head? || op.Old?, Seg(op));
    FiledAtCounts(c, u, id, at, op.Head? || op.Old?, Seg(op));
  }

  lemma RotateKeeps(c: Config, s: State, id: nat, op: Op, bin: nat)
    requires Ok(c, s) && id in s.vecs && s.vecs[id].linked
    ensures s.vecs[id].gen < c.nrGens
    ensures var t := Rotated(c, s, id, op, bin);
            Ok(c, t) && s.seqno <= t.seqno <= s.seqno + 1
            && (t.seqno > s.seqno ==> op == Young && Members(s.vecs, Gen(c, s.seqno)) == {id})
  {
    hide Filed, Counted, Populated, Ranged, Members, FiledAt, Unfiled, Ok;
    MemberGen(c, s, id);
    OkParts(c, s);
    TwoGens(c, s.seqno);
    ShiftKeeps(c, s, id, op, bin);
    var t := Shifted(c, s, id, op, bin);
    CountsHold(c, t);
    Moved(c, s, t, id);
    AdvancedOk(c, t, s.vecs[id].gen);
    EmptiedBy(c, s, t, id);
  }

  lemma OkParts(c: Config, s: State)
    requires Ok(c, s)
    ensures Sane(c) && Counted(c, s) && |s.nr| == c.nrGens
  {
  }

  lemma CountsHold(c: Config, s: State)
    requires Counted(c, s)
    ensures |s.nr| == c.nrGens
  {
  }

  /** A move between the two generations, away from the oldest or not, leaves the oldest populated or just emptied. */
  lemma Moved(c: Config, s: State, t: State, id: nat)
    requires Ok(c, s) && id in s.vecs && s.vecs[id].linked && t.seqno == s.seqno
    requires exists v: Lruvec :: v.linked && t.vecs == s.vecs[id := v]
    ensures s.vecs[id].gen != Gen(c, s.seqno) ==> Populated(c, t)
  {
    hide Filed;
    if s.vecs[id].gen != Gen(c, s.seqno) {
      assert id in s.vecs && s.vecs[id].linked;
      var m :| m in Members(s.vecs, Gen(c, s.seqno));
      assert m in Members(t.vecs, Gen(c, s.seqno));
    }
  }

  lemma EmptiedBy(c: Config, s: State, t: State, id: nat)
    requires Ok(c, s) && id in s.vecs && s.vecs[id].linked && t.seqno == s.seqno && Counted(c, t) &&
          s.vecs[id].gen < c.nrGens
    requires exists v: Lruvec :: v.linked && t.vecs == s.vecs[id := v]
    ensures t.nr[s.vecs[id].gen] == 0 ==> Members(s.vecs, s.vecs[id].gen) == {id} && t.vecs[id].gen != s.vecs[id].gen
  {
    hide Filed;
    var g := s.vecs[id].gen;
    if t.nr[g] == 0 {
      assert Members(t.vecs, g) == {};
      forall m ensures m in Members(s.vecs, g) <==> m == id {
        assert m !in Members(t.vecs, g);
      }
      assert id !in Members(t.vecs, g);
    }
  }

  lemma OnlineKeeps(c: Config, s: State, id: nat, bin: nat)
    requires Ok(c, s) && id in s.vecs && !s.vecs[id].linked
    ensures Ok(c, Onlined(c, s, id, bin)) && Onlined(c, s, id, bin).seqno == s.seqno
  {
    var t := Onlined(c, s, id, bin);
    TwoGens(c, s.seqno);
    FiledAtQueues(s, id, Slot(Gen(c, s.seqno), bin), false, s.vecs[id].seg);
    FiledAtCounts(c, s, id, Slot(Gen(c, s.seqno), bin), false, s.vecs[id].seg);
    assert id in Members(t.vecs, Gen(c, s.seqno));
  }

  lemma ReleaseKeeps(c: Config, s: State, id: nat)
    requires Ok(c, s) && id in s.vecs
    requires s.vecs[id].gen < c.nrGens
    ensures var t := Released(c, s, id);
            Ok(c, t) && t.seqno <= s.seqno + 1 && s.seqno <= t.seqno
            && (t.seqno > s.seqno ==> Members(s.vecs, Gen(c, s.seqno)) == {id})
  {
    hide Filed;
    if s.vecs[id].linked {
      var g := s.vecs[id].gen;
      var u := Unfiled(s, id);
      UnfiledQueues(s, id);
      UnfiledCounts(c, s, id);
      if g != Gen(c, s.seqno) {
        var m :| m in Members(s.vecs, Gen(c, s.seqno));
        assert m in Members(u.vecs, Gen(c, s.seqno));
      }
      AdvancedOk(c, u, g);
      if u.nr[g] == 0 {
        assert Members(u.vecs, g) == {};
        forall m ensures m in Members(s.vecs, g) <==> m == id {
          assert m !in Members(u.vecs, g);
        }
      }
    }
  }

  // ----- where the operations put a lruvec -----

  /** In its new queue it is first or last, the others as they were without it; so are all other queues. */
  ghost predicate Placed(s: State, t: State, id: nat, at: Slot, first: bool) {
    forall b :: Queue(t.fifo, b) ==
                var rest := Unlinked(Queue(s.fifo, b), id);
                if b != at then rest else if first then [id] + rest else rest + [id]
  }

  /** Only its own queue has a lruvec to lose. */
  lemma UnfiledIs(s: State, id: nat)
    requires id in s.vecs && s.vecs[id].gen < |s.nr| && s.vecs[id].linked && Filed(s.fifo, s.vecs)
    ensures forall b :: Queue(Unfiled(s, id).fifo, b) == Unlinked(Queue(s.fifo, b), id)
  {
    hide NoDup, Unlinked;
    var at := Slot(s.vecs[id].gen, s.vecs[id].bin);
    forall b ensures Queue(Unfiled(s, id).fifo, b) == Unlinked(Queue(s.fifo, b), id) {
      if b != at {
        UnlinkedAbsent(Queue(s.fifo, b), id);
      }
    }
  }

  /** Head: first of its own generation, to be looked at again soon; Tail: last of it; Old: first of the oldest; Young:
      last of the next, out of the oldest unless that has run empty. */
  lemma RotateLands(c: Config, s: State, id: nat, op: Op, bin: nat)
    requires Ok(c, s) && id in s.vecs && s.vecs[id].linked
    ensures s.vecs[id].gen < c.nrGens == |s.nr|
    ensures var t := Rotated(c, s, id, op, bin);
            var gen := if op == Old then s.seqno % c.nrGens
                       else if op == Young then (s.seqno + 1) % c.nrGens else s.vecs[id].gen;
            && t.vecs == s.vecs[id := Lruvec(gen, bin, if op == Head then 1 else if op == Tail then 2 else 0, true)]
            && Placed(s, t, id, Slot(gen, bin), op == Head || op == Old)
            && (op == Young && t.seqno == s.seqno ==> gen != t.seqno % c.nrGens)
            && (op == Old ==> gen == t.seqno % c.nrGens)
  {
    hide Filed, Counted, Populated, Ranged, Unlinked;
    MemberGen(c, s, id);
    OkParts(c, s);
    TwoGens(c, s.seqno);
    TwoGens(c, s.seqno + 1);
    UnfiledIs(s, id);
    RotateKeeps(c, s, id, op, bin);
  }

  /** A new lruvec is the last of the oldest generation. */
  lemma OnlineLands(c: Config, s: State, id: nat, bin: nat)
    requires Ok(c, s) && id in s.vecs && !s.vecs[id].linked
    ensures 0 < c.nrGens == |s.nr|
    ensures var t, at := Onlined(c, s, id, bin), Slot(s.seqno % c.nrGens, bin);
            && t.vecs == s.vecs[id := Lruvec(at.gen, bin, s.vecs[id].seg, true)]
            && (forall b :: Queue(t.fifo, b) == if b == at then Queue(s.fifo, at) + [id] else Queue(s.fifo, b))
  {
    hide Filed, Counted, Populated, Ranged;
    OkParts(c, s);
  }

  /** A lruvec that is released is in no queue any more; nobody else moves. */
  lemma ReleaseLeaves(c: Config, s: State, id: nat)
    requires Ok(c, s) && id in s.vecs && s.vecs[id].linked
    ensures s.vecs[id].gen < c.nrGens == |s.nr|
    ensures var t := Released(c, s, id);
            && t.vecs == s.vecs[id := s.vecs[id].(linked := false)]
            && (forall b :: Queue(t.fifo, b) == Unlinked(Queue(s.fifo, b), id) && id !in Queue(t.fifo, b))
  {
    hide Counted, Populated, Ranged, Unlinked, NoDup;
    MemberGen(c, s, id);
    OkParts(c, s);
    UnfiledIs(s, id);
    forall b ensures id !in Unlinked(Queue(s.fifo, b), id) {
      UnlinkedHas(Queue(s.fifo, b), id);
    }
  }

  // ----- any run -----

  datatype Step = Rotate(id: nat, op: Op, bin: nat) | Online(id: nat, bin: nat) | Release(id: nat)

  /** What the operations demand of their callers. */
  ghost predicate Allowed(s: State, e: Step) {
    e.id in s.vecs && (e.Rotate? ==> s.vecs[e.id].linked) && (e.Online? ==> !s.vecs[e.id].linked)
  }

  ghost function After(c: Config, s: State, e: Step): State
    requires Ok(c, s)
  {
    if !Allowed(s, e) then s else
    match e
    case Rotate(id, op, bin) => (RotateKeeps(c, s, id, op, bin); OkParts(c, s); Rotated(c, s, id, op, bin))
    case Online(id, bin) => (OkParts(c, s); Onlined(c, s, id, bin))
    case Release(id) => if s.vecs[id].linked then (MemberGen(c, s, id); OkParts(c, s); Released(c, s, id)) else s
  }

  lemma StepKeeps(c: Config, s: State, e: Step)
    requires Ok(c, s)
    ensures Ok(c, After(c, s, e)) && s.seqno <= After(c, s, e).seqno <= s.seqno + 1
  {
    hide Ok, Rotated, Onlined, Released;
    if Allowed(s, e) {
      match e
      case Rotate(id, op, bin) => RotateKeeps(c, s, id, op, bin);
      case Online(id, bin) =>
        OkParts(c, s);
        OnlineKeeps(c, s, id, bin);
      case Release(id) =>
        if s.vecs[id].linked {
          MemberGen(c, s, id);
          ReleaseKeeps(c, s, id);
        }
    }
  }

  ghost function AfterRun(c: Config, s: State, es: seq<Step>): (t: State)
    requires Ok(c, s)
    ensures Ok(c, t) && s.seqno <= t.seqno <= s.seqno + |es|
  {
    if es == [] then s else
      var t := AfterRun(c, s, es[..|es| - 1]);
      StepKeeps(c, t, es[|es| - 1]);
      After(c, t, es[|es| - 1])
  }

  /** Does the step take the lruvec out of its generation for a younger one, or out of the queue? */
  predicate Leaves(e: Step, id: nat) {
    e.id == id && (e.Release? || (e.Rotate? && e.op == Young))
  }

  ghost predicate Oldest(c: Config, s: State, id: nat)
    requires Sane(c)
  {
    id in Members(s.vecs, Gen(c, s.seqno))
  }

  lemma StaysOldest(c: Config, s: State, e: Step, id: nat)
    requires Ok(c, s) && Oldest(c, s, id) && !Leaves(e, id)
    ensures After(c, s, e).seqno == s.seqno && Oldest(c, After(c, s, e), id)
  {
    hide Ok, Gen;
    if Allowed(s, e) {
      match e
      case Rotate(i, op, bin) =>
        RotateKeeps(c, s, i, op, bin);
        OkParts(c, s);
        ShiftKeeps(c, s, i, op, bin);
      case Online(i, bin) =>
        OkParts(c, s);
      case Release(i) =>
        if s.vecs[i].linked {
          MemberGen(c, s, i);
          OkParts(c, s);
          ReleaseKeeps(c, s, i);
        }
    }
  }

  /** A generation is not left behind while one of its lruvecs waits: in any run in which a lruvec of the oldest
      generation is neither aged nor released, that generation stays the oldest. */
  lemma {:induction false} NobodySkipped(c: Config, s: State, es: seq<Step>, id: nat)
    requires Ok(c, s) && Oldest(c, s, id) && forall e :: e in es ==> !Leaves(e, id)
    ensures AfterRun(c, s, es).seqno == s.seqno && Oldest(c, AfterRun(c, s, es), id)
  {
    hide Ok, Oldest, After;
    if es != [] {
      NobodySkipped(c, s, es[..|es| - 1], id);
      StaysOldest(c, AfterRun(c, s, es[..|es| - 1]), es[|es| - 1], id);
    } else {
      assert AfterRun(c, s, es) == s;
    }
  }

  // ----- the node -----

  class Node {
    const c: Config
    var seqno: nat
    var fifo: map<Slot, seq<nat>>
    var nrMemcgs: seq<int>
    var vecs: map<nat, Lruvec>

    ghost function Now(): State
      reads this
    {
      State(seqno, fifo, nrMemcgs, vecs)
    }

    /** Nobody is queued yet. */
    constructor (c: Config, vecs: map<nat, Lruvec>)
      requires Sane(c) && forall id :: id in vecs ==> !vecs[id].linked
      ensures this.c == c && Ok(c, Now()) && seqno == 0 && this.vecs == vecs
    {
      this.c, this.vecs, seqno, fifo := c, vecs, 0, map[];
      nrMemcgs := seq(c.nrGens, i => 0);
      new;
      assert forall g: nat :: Members(vecs, g) == {};
    }

    method Unlink(id: nat)
      requires id in vecs && vecs[id].gen < |nrMemcgs|
      modifies this`fifo, this`nrMemcgs, this`vecs
      ensures Now() == Unfiled(old(Now()), id)
    {
      var v := vecs[id];
      var at := Slot(v.gen, v.bin);
      fifo := fifo[at := Unlinked(Queue(fifo, at), id)];
      nrMemcgs := nrMemcgs[v.gen := nrMemcgs[v.gen] - 1];
      vecs := vecs[id := v.(linked := false)];
    }

    method Link(id: nat, at: Slot, head: bool, seg: nat)
      requires id in vecs && at.gen < |nrMemcgs|
      modifies this`fifo, this`nrMemcgs, this`vecs
      ensures Now() == FiledAt(old(Now()), id, at, head, seg)
    {
      fifo := fifo[at := Enqueued(Queue(fifo, at), id, head)];
      nrMemcgs := nrMemcgs[at.gen := nrMemcgs[at.gen] + 1];
      vecs := vecs[id := Lruvec(at.gen, at.bin, seg, true)];
    }

    method Advance(left: nat)
      requires Sane(c) && left < |nrMemcgs|
      modifies this`seqno
      ensures Now() == Advanced(c, old(Now()), left)
    {
      if nrMemcgs[left] == 0 && left == Gen(c, seqno) {
        seqno := seqno + 1;
      }
    }

    method RotateMemcg(id: nat, op: Op, bin: nat)
      requires Ok(c, Now()) && id in vecs && vecs[id].linked
      modifies this
      ensures Ok(c, Now()) && Now() == After(c, old(Now()), Rotate(id, op, bin))
    {
      hide Ok, Filed, Counted, Ranged, Populated, Gen, Unfiled, FiledAt, Advanced;
      OkParts(c, Now());
      RotateKeeps(c, Now(), id, op, bin);
      var seg := 0;
      var was := vecs[id].gen;
      var next := was;
      match op {
        case Head => seg := 1;
        case Tail => seg := 2;
        case Old => next := Gen(c, seqno);
        case Young => next := Gen(c, seqno + 1);
      }
      TwoGens(c, seqno);
      TwoGens(c, seqno + 1);
      UnfiledParts(Now(), id);
      Unlink(id);
      FiledAtParts(Now(), id, Slot(next, bin), op.Head? || op.Old?, seg);
      Link(id, Slot(next, bin), op.Head? || op.Old?, seg);
      Advance(was);
    }

    method OnlineMemcg(id: nat, bin: nat)
      requires Ok(c, Now()) && id in vecs && !vecs[id].linked
      modifies this
      ensures Ok(c, Now()) && Now() == After(c, old(Now()), Online(id, bin))
    {
      hide Ok, Filed, Counted, Ranged, Populated, Unfiled, FiledAt, Advanced;
      OkParts(c, Now());
      OnlineKeeps(c, Now(), id, bin);
      TwoGens(c, seqno);
      var gen := Gen(c, seqno);
      Link(id, Slot(gen, bin), false, vecs[id].seg);
    }

    method OfflineMemcg(id: nat, bin: nat)
      requires Ok(c, Now()) && id in vecs && vecs[id].linked
      modifies this
      ensures Ok(c, Now()) && Now() == After(c, old(Now()), Rotate(id, Old, bin))
    {
      RotateMemcg(id, Old, bin);
    }

    method ReleaseMemcg(id: nat)
      requires Ok(c, Now()) && id in vecs
      modifies this
      ensures Ok(c, Now()) && Now() == After(c, old(Now()), Release(id))
    {
      hide Ok, Filed, Counted, Ranged, Populated, Unfiled, FiledAt, Advanced;
      if !vecs[id].linked {
        return;
      }
      OkParts(c, Now());
      MemberGen(c, Now(), id);
      ReleaseKeeps(c, Now(), id);
      var gen := vecs[id].gen;
      UnfiledParts(Now(), id);
      Unlink(id);
      Advance(gen);
    }
  }
}
