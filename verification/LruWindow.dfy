/** The multi-gen LRU of one lruvec: a window of generations held modulo maxGens, the folio lists of each, and the page
    counts kept for them. */
module LruWindow {
  import opened Lists
  import opened Modular
  import opened Sums

  datatype Folio = Folio(file: bool, zone: nat, pages: nat)

  /** `batch`: the folios moved before the lock is dropped. `kind`: what never changes about a folio. */
  datatype Config = Config(minGens: nat, maxGens: nat, zones: nat, batch: nat, kind: map<nat, Folio>)

  ghost predicate Sane(c: Config) {
    && 1 <= c.minGens && c.minGens + 1 < c.maxGens && 1 <= c.batch
    && forall f :: f in c.kind ==> c.kind[f].zone < c.zones
  }

  datatype Key = Key(gen: nat, file: bool, zone: nat)

  datatype Slot = Slot(file: bool, zone: nat)

  /** Where the folios are: `folios` by list, `flags` the generation in the folio's own flags. `age` and `mark` are the
      generation numbers behind list and flag, not reduced. */
  datatype Places = Places(folios: map<Key, seq<nat>>, flags: map<nat, nat>, age: map<nat, nat>, mark: map<nat, nat>)

  /** Pages by list, the changes a page table walk has not handed in yet, and the sizes shown to the rest of reclaim. */
  datatype Books = Books(nr: map<Key, int>, walk: map<Key, int>, active: map<Slot, int>, inactive: map<Slot, int>)

  /** `inverted`: anon generations have been given up with folios in them, for want of swap. */
  datatype State = State(maxSeq: nat, minAnon: nat, minFile: nat, inverted: bool, lists: Places, books: Books)

  function Gen(c: Config, s: nat): nat
    requires 0 < c.maxGens
  {
    s % c.maxGens
  }

  function MinSeq(s: State, file: bool): nat {
    if file then s.minFile else s.minAnon
  }

  function NrGens(s: State, file: bool): int {
    s.maxSeq - MinSeq(s, file) + 1
  }

  predicate SeqIsValid(c: Config, s: State) {
    c.minGens <= NrGens(s, true) <= NrGens(s, false) <= c.maxGens
  }

  // ----- the lists -----

  function Queue(folios: map<Key, seq<nat>>, k: Key): seq<nat> {
    if k in folios then folios[k] else []
  }

  /** The list of a folio of generation number s. */
  ghost function Home(c: Config, f: nat, s: nat): Key
    requires 0 < c.maxGens && f in c.kind
  {
    Key(Gen(c, s), c.kind[f].file, c.kind[f].zone)
  }

  ghost predicate Filed(c: Config, l: Places) {
    && 0 < c.maxGens
    && (forall f :: f in l.flags <==> f in l.age) && (forall f :: f in l.mark <==> f in l.age)
    && (forall f :: f in l.age ==> f in c.kind && l.flags[f] == Gen(c, l.mark[f]))
    && (forall k, f :: f in Queue(l.folios, k) <==> f in l.age && Home(c, f, l.age[f]) == k)
    && (forall k :: NoDup(Queue(l.folios, k)))
  }

  /** Every folio of the type is in a generation of the window, and its flag says no older one. */
  ghost predicate Windowed(c: Config, l: Places, file: bool, low: nat, high: nat) {
    forall f :: f in l.age && f in l.mark && f in c.kind && c.kind[f].file == file ==>
        low <= l.age[f] <= l.mark[f] <= high
  }

  predicate EmptyIn(folios: map<Key, seq<nat>>, file: bool, gen: nat, zone: nat) {
    Queue(folios, Key(gen, file, zone)) == []
  }

  ghost predicate Empty(folios: map<Key, seq<nat>>, file: bool, gen: nat) {
    forall zone: nat :: EmptyIn(folios, file, gen, zone)
  }

  /** With at most maxGens generations, a list holds folios of one generation number only. */
  lemma OneNumber(c: Config, l: Places, file: bool, low: nat, high: nat, s: nat, k: Key, f: nat)
    requires Filed(c, l) && Windowed(c, l, file, low, high) && high < low + c.maxGens && low <= s <= high
    requires k.file == file && k.gen == Gen(c, s) && f in Queue(l.folios, k)
    ensures f in l.age && l.age[f] == s && (l.flags[f] == k.gen <==> l.mark[f] == s)
  {
    hide NoDup;
    var x, y := l.age[f], l.mark[f];
    ResidueTells(c.maxGens, if x < s then x else s, if x < s then s else x);
    ResidueTells(c.maxGens, if y < s then y else s, if y < s then s else y);
  }

  /** Once its lists are empty, the oldest generation can be given up: no folio is older than the next one. */
  lemma OldestEmpty(c: Config, l: Places, file: bool, low: nat, high: nat)
    requires Filed(c, l) && Windowed(c, l, file, low, high) && Empty(l.folios, file, Gen(c, low))
    ensures Windowed(c, l, file, low + 1, high)
  {
    hide NoDup, Gen;
    forall f | f in l.age && c.kind[f].file == file ensures low + 1 <= l.age[f] {
      assert EmptyIn(l.folios, file, Gen(c, low), c.kind[f].zone);
      assert l.age[f] == low ==> f in Queue(l.folios, Home(c, f, low));
    }
  }

  /** A generation outside the window has no folios, so the next one can be opened. */
  lemma NextEmpty(c: Config, l: Places, file: bool, low: nat, high: nat)
    requires Filed(c, l) && Windowed(c, l, file, low, high) && high + 1 < low + c.maxGens
    ensures Empty(l.folios, file, Gen(c, high + 1))
  {
    hide NoDup;
    var gen := Gen(c, high + 1);
    forall zone: nat ensures EmptyIn(l.folios, file, gen, zone) {
      var q := Queue(l.folios, Key(Gen(c, high + 1), file, zone));
      if q != [] {
        assert q[0] in q;
        ResidueTells(c.maxGens, l.age[q[0]], high + 1);
      }
    }
  }

  /** Folio f, of list `from`, goes to the end of the list of generation number s; its flag then says m. */
  ghost function Moved(c: Config, l: Places, from: Key, f: nat, s: nat, m: nat): Places
    requires 0 < c.maxGens && f in c.kind && Queue(l.folios, from) != []
  {
    var q := Queue(l.folios, from);
    var out := l.folios[from := q[..|q| - 1]];
    var to := Home(c, f, s);
    Places(out[to := Queue(out, to) + [f]], l.flags[f := Gen(c, m)], l.age[f := s], l.mark[f := m])
  }

  lemma MovedQueues(c: Config, l: Places, from: Key, f: nat, s: nat, m: nat)
    requires Filed(c, l) && Queue(l.folios, from) != [] && f == Queue(l.folios, from)[|Queue(l.folios, from)| - 1]
    requires f in c.kind && Home(c, f, s) != from
    ensures var r := Moved(c, l, from, f, s, m); var to := Home(c, f, s);
            forall k :: Queue(r.folios, k) == if k == from then Queue(l.folios, from)[..|Queue(l.folios, from)| - 1]
                                             else if k == to then Queue(l.folios, to) + [f] else Queue(l.folios, k)
  {
    hide Filed, NoDup, Gen;
  }

  lemma ButLast(q: seq<nat>)
    requires NoDup(q) && q != []
    ensures NoDup(q[..|q| - 1]) && forall x :: x in q[..|q| - 1] <==> x in q && x != q[|q| - 1]
  {
  }

  lemma Appended(q: seq<nat>, f: nat)
    requires NoDup(q) && f !in q
    ensures NoDup(q + [f]) && forall x :: x in q + [f] <==> x in q || x == f
  {
  }

  lemma MovedMaps(c: Config, l: Places, from: Key, f: nat, s: nat, m: nat)
    requires 0 < c.maxGens && f in c.kind && Queue(l.folios, from) != []
    ensures var r := Moved(c, l, from, f, s, m);
            r.flags == l.flags[f := Gen(c, m)] && r.age == l.age[f := s] && r.mark == l.mark[f := m]
  {
  }

  lemma MovedFiled(c: Config, l: Places, from: Key, f: nat, s: nat, m: nat)
    requires Filed(c, l) && Queue(l.folios, from) != [] && f == Queue(l.folios, from)[|Queue(l.folios, from)| - 1]
    requires f in c.kind && Home(c, f, s) != from
    ensures Filed(c, Moved(c, l, from, f, s, m))
  {
    hide NoDup, Gen, Moved, Queue, Home;
    MovedMaps(c, l, from, f, s, m);
    MovedInLists(c, l, from, f, s, m);
  }

  /** Every list still holds the folios that are at home there, each once. */
  lemma MovedInLists(c: Config, l: Places, from: Key, f: nat, s: nat, m: nat)
    requires Filed(c, l) && Queue(l.folios, from) != [] && f == Queue(l.folios, from)[|Queue(l.folios, from)| - 1]
    requires f in c.kind && Home(c, f, s) != from
    ensures var r := Moved(c, l, from, f, s, m);
            && (forall x :: x in r.age ==> x in c.kind)
            && (forall k, x :: x in Queue(r.folios, k) <==> x in r.age && Home(c, x, r.age[x]) == k)
            && (forall k :: NoDup(Queue(r.folios, k)))
  {
    hide NoDup, Gen, Moved, Queue, Home;
    var q, to := Queue(l.folios, from), Home(c, f, s);
    assert f in q;
    MovedMaps(c, l, from, f, s, m);
    MovedQueues(c, l, from, f, s, m);
    ButLast(q);
    Appended(Queue(l.folios, to), f);
  }

  /** The folios of the type that are in its oldest lists. */
  ghost function Oldest(c: Config, l: Places, file: bool, gen: nat): set<nat> {
    set f | f in l.age && f in c.kind && 0 < c.maxGens && c.kind[f].file == file && Gen(c, l.age[f]) == gen
  }

  lemma MovedOldest(c: Config, l: Places, from: Key, f: nat, s: nat, m: nat, gen: nat)
    requires Filed(c, l) && Queue(l.folios, from) != [] && f == Queue(l.folios, from)[|Queue(l.folios, from)| - 1]
    requires f in c.kind && Home(c, f, s) != from
    ensures |Oldest(c, Moved(c, l, from, f, s, m), from.file, from.gen)| == |Oldest(c, l, from.file, from.gen)| - 1
    ensures Oldest(c, Moved(c, l, from, f, s, m), !from.file, gen) == Oldest(c, l, !from.file, gen)
  {
    hide NoDup, Gen;
    assert f in Queue(l.folios, from);
    assert Oldest(c, Moved(c, l, from, f, s, m), from.file, from.gen) == Oldest(c, l, from.file, from.gen) - {f};
  }

  // ----- the books -----

  function At<K(==)>(m: map<K, int>, k: K): int {
    if k in m then m[k] else 0
  }

  predicate KeyOk(c: Config, k: Key) {
    k.gen < c.maxGens && k.zone < c.zones
  }

  ghost function Weights(c: Config, flags: map<nat, nat>, k: Key): map<nat, nat> {
    map f | f in flags && f in c.kind :: 
      if Key(flags[f], c.kind[f].file, c.kind[f].zone) == k then c.kind[f].pages else 0
  }

  /** The pages of the folios whose own flags name the list k. */
  ghost function PagesOf(c: Config, flags: map<nat, nat>, k: Key): nat {
    Sum(Weights(c, flags, k))
  }

  /** With the changes still to be handed in, every count is right. */
  ghost predicate Accounted(c: Config, b: Books, flags: map<nat, nat>) {
    forall k :: KeyOk(c, k) ==> At(b.nr, k) + At(b.walk, k) == PagesOf(c, flags, k)
  }

  ghost function AllGens(m: map<Key, int>, file: bool, zone: nat, n: nat): int {
    if n == 0 then 0 else AllGens(m, file, zone, n - 1) + At(m, Key(n - 1, file, zone))
  }

  lemma {:induction false} AllGensChange(m: map<Key, int>, k: Key, x: int, file: bool, zone: nat, n: nat)
    ensures AllGens(m[k := x], file, zone, n)
         == AllGens(m, file, zone, n) + if k.file == file && k.zone == zone && k.gen < n then x - At(m, k) else 0
  {
    if n > 0 {
      AllGensChange(m, k, x, file, zone, n - 1);
    }
  }

  /** lru_gen_is_active: the two youngest generations count as the active list. */
  predicate Active(c: Config, maxSeq: nat, gen: nat)
    requires 0 < c.maxGens && 1 <= maxSeq
  {
    gen == Gen(c, maxSeq) || gen == Gen(c, maxSeq - 1)
  }

  ghost predicate SlotSized(c: Config, b: Books, maxSeq: nat, v: Slot)
    requires 0 < c.maxGens && 1 <= maxSeq
  {
    && At(b.active, v) == At(b.nr, Key(Gen(c, maxSeq), v.file, v.zone)) +
          At(b.nr, Key(Gen(c, maxSeq - 1), v.file, v.zone))
    && At(b.active, v) + At(b.inactive, v) == AllGens(b.nr, v.file, v.zone, c.maxGens)
  }

  /** The active size of a list is the pages of its two youngest generations, the inactive size those of the others. */
  ghost predicate Sized(c: Config, b: Books, maxSeq: nat)
    requires 0 < c.maxGens && 1 <= maxSeq
  {
    forall v: Slot :: v.zone < c.zones ==> SlotSized(c, b, maxSeq, v)
  }

  /** What a walk moved out of some generations it moved into others. */
  ghost predicate WalkBalanced(c: Config, b: Books) {
    forall file, zone: nat :: zone < c.zones ==> AllGens(b.walk, file, zone, c.maxGens) == 0
  }

  function Resized(c: Config, b: Books, maxSeq: nat, k: Key, delta: int): Books
    requires 0 < c.maxGens && 1 <= maxSeq
  {
    var v := Slot(k.file, k.zone);
    if Active(c, maxSeq, k.gen) then b.(active := b.active[v := At(b.active, v) + delta])
    else b.(inactive := b.inactive[v := At(b.inactive, v) + delta])
  }

  /** `delta` more pages on list k. */
  function Grown(c: Config, b: Books, maxSeq: nat, k: Key, delta: int): Books
    requires 0 < c.maxGens && 1 <= maxSeq
  {
    Resized(c, b.(nr := b.nr[k := At(b.nr, k) + delta]), maxSeq, k, delta)
  }

  lemma GrownParts(c: Config, b: Books, maxSeq: nat, k: Key, delta: int)
    requires 0 < c.maxGens && 1 <= maxSeq
    ensures var g := Grown(c, b, maxSeq, k, delta); var act := Active(c, maxSeq, k.gen);
            g.nr == b.nr[k := At(b.nr, k) + delta] && g.walk == b.walk
            && (forall v :: At(g.active, v) == At(b.active, v) + if act && v == Slot(k.file, k.zone) then delta else 0)
            && (forall v :: At(g.inactive, v) ==
                  At(b.inactive, v) + if !act && v == Slot(k.file, k.zone) then delta else 0)
  {
    hide Gen;
  }

  lemma GrownSized(c: Config, b: Books, maxSeq: nat, k: Key, delta: int)
    requires 2 <= c.maxGens && 1 <= maxSeq && KeyOk(c, k) && Sized(c, b, maxSeq)
    ensures Sized(c, Grown(c, b, maxSeq, k, delta), maxSeq)
  {
    hide Gen, AllGens, Grown;
    var g := Grown(c, b, maxSeq, k, delta);
    GrownParts(c, b, maxSeq, k, delta);
    DistinctYoung(c, maxSeq);
    forall v: Slot | v.zone < c.zones ensures SlotSized(c, g, maxSeq, v) {
      assert SlotSized(c, b, maxSeq, v);
      AllGensChange(b.nr, k, At(b.nr, k) + delta, v.file, v.zone, c.maxGens);
    }
  }

  lemma DistinctYoung(c: Config, maxSeq: nat)
    requires 2 <= c.maxGens && 1 <= maxSeq
    ensures Gen(c, maxSeq) != Gen(c, maxSeq - 1) && Gen(c, maxSeq) < c.maxGens && Gen(c, maxSeq - 1) < c.maxGens
    ensures Gen(c, maxSeq + 1) != Gen(c, maxSeq) && Gen(c, maxSeq + 1) < c.maxGens
    ensures 3 <= c.maxGens ==> Gen(c, maxSeq + 1) != Gen(c, maxSeq - 1)
  {
    ResidueTells(c.maxGens, maxSeq - 1, maxSeq);
    ResidueTells(c.maxGens, maxSeq, maxSeq + 1);
    if 3 <= c.maxGens {
      ResidueTells(c.maxGens, maxSeq - 1, maxSeq + 1);
    }
  }

  /** A folio's flag changes: its pages leave one list's tally for another's. */
  lemma Reflagged(c: Config, flags: map<nat, nat>, f: nat, gen: nat, k: Key)
    requires f in flags && f in c.kind
    ensures var d := c.kind[f];
            PagesOf(c, flags[f := gen], k) ==
            PagesOf(c, flags, k) - (if k == Key(flags[f], d.file, d.zone) then d.pages else 0)
                                 + (if k == Key(gen, d.file, d.zone) then d.pages else 0)
  {
    var was, now := Weights(c, flags, k), Weights(c, flags[f := gen], k);
    var x := if Key(gen, c.kind[f].file, c.kind[f].zone) == k then c.kind[f].pages else 0;
    assert now == was[f := x];
    SumChange(was, f, x);
  }

  /** Moving `n` pages from one list's count to another's, sizes included. */
  function Transferred(c: Config, b: Books, maxSeq: nat, from: Key, to: Key, n: int): Books
    requires 0 < c.maxGens && 1 <= maxSeq
  {
    Grown(c, Grown(c, b, maxSeq, from, -n), maxSeq, to, n)
  }

  lemma TransferKeeps(c: Config, b: Books, maxSeq: nat, flags: map<nat, nat>, f: nat, gen: nat)
    requires 2 <= c.maxGens && 1 <= maxSeq && f in flags && f in c.kind && c.kind[f].zone < c.zones
    requires flags[f] < c.maxGens && gen < c.maxGens && flags[f] != gen
    requires Accounted(c, b, flags) && Sized(c, b, maxSeq)
    ensures var d := c.kind[f];
            var r := Transferred(c, b, maxSeq, Key(flags[f], d.file, d.zone), Key(gen, d.file, d.zone), d.pages);
            Accounted(c, r, flags[f := gen]) && Sized(c, r, maxSeq) && r.walk == b.walk
  {
    hide Sized, PagesOf, Gen, Grown, Active;
    var d := c.kind[f];
    var n: int := d.pages;
    var from, to := Key(flags[f], d.file, d.zone), Key(gen, d.file, d.zone);
    var e := Grown(c, b, maxSeq, from, -n);
    GrownSized(c, b, maxSeq, from, -n);
    GrownSized(c, e, maxSeq, to, n);
    GrownParts(c, b, maxSeq, from, -n);
    GrownParts(c, e, maxSeq, to, n);
    forall k | KeyOk(c, k) {
      Reflagged(c, flags, f, gen, k);
    }
  }

  /** update_batch_size: the walk notes that `n` pages go from one list to another. */
  function Noted(b: Books, from: Key, to: Key, n: nat): Books {
    var w := b.walk[from := At(b.walk, from) - n];
    b.(walk := w[to := At(w, to) + n])
  }

  lemma NoteKeeps(c: Config, b: Books, flags: map<nat, nat>, f: nat, gen: nat)
    requires f in flags && f in c.kind && c.kind[f].zone < c.zones
    requires flags[f] < c.maxGens && gen < c.maxGens && flags[f] != gen
    requires Accounted(c, b, flags) && WalkBalanced(c, b)
    ensures var d := c.kind[f];
            var r := Noted(b, Key(flags[f], d.file, d.zone), Key(gen, d.file, d.zone), d.pages);
            Accounted(c, r, flags[f := gen]) && WalkBalanced(c, r)
  {
    hide PagesOf, AllGens;
    var d := c.kind[f];
    var from, to := Key(flags[f], d.file, d.zone), Key(gen, d.file, d.zone);
    var w := b.walk[from := At(b.walk, from) - d.pages];
    forall k | KeyOk(c, k) {
      Reflagged(c, flags, f, gen, k);
    }
    var w' := w[to := At(w, to) + d.pages];
    forall file, zone: nat | zone < c.zones ensures AllGens(w', file, zone, c.maxGens) == 0 {
      AllGensChange(b.walk, from, At(b.walk, from) - d.pages, file, zone, c.maxGens);
      AllGensChange(w, to, At(w, to) + d.pages, file, zone, c.maxGens);
    }
  }

  /** reset_batch_size for one list. */
  function HandedIn(c: Config, b: Books, maxSeq: nat, k: Key): Books
    requires 0 < c.maxGens && 1 <= maxSeq
  {
    if At(b.walk, k) == 0 then b else
      Grown(c, b.(walk := b.walk[k := 0]), maxSeq, k, At(b.walk, k))
  }

  lemma HandInKeeps(c: Config, b: Books, maxSeq: nat, k: Key, flags: map<nat, nat>)
    requires 2 <= c.maxGens && 1 <= maxSeq && KeyOk(c, k) && Accounted(c, b, flags) && Sized(c, b, maxSeq)
    ensures var r := HandedIn(c, b, maxSeq, k);
            Accounted(c, r, flags) && Sized(c, r, maxSeq)
            && forall j :: At(r.walk, j) == if j == k then 0 else At(b.walk, j)
  {
    hide Gen, PagesOf, AllGens, Grown, Active;
    if At(b.walk, k) != 0 {
      var e := b.(walk := b.walk[k := 0]);
      GrownParts(c, e, maxSeq, k, At(b.walk, k));
      assert Sized(c, e, maxSeq) by {
        forall v: Slot | v.zone < c.zones ensures SlotSized(c, e, maxSeq, v) {
          assert SlotSized(c, b, maxSeq, v);
        }
      }
      GrownSized(c, e, maxSeq, k, At(b.walk, k));
    }
  }

  /** Opening generation maxSeq + 1: the pages of maxSeq - 1 stop being active, those found in the new one start. */
  function ShiftedAt(c: Config, b: Books, maxSeq: nat, v: Slot): Books
    requires 0 < c.maxGens && 1 <= maxSeq
  {
    var delta := At(b.nr, Key(Gen(c, maxSeq - 1), v.file, v.zone)) - At(b.nr, Key(Gen(c, maxSeq + 1), v.file, v.zone));
    if delta == 0 then b else
      b.(inactive := b.inactive[v := At(b.inactive, v) + delta], active := b.active[v := At(b.active, v) - delta])
  }

  lemma ShiftSizes(c: Config, b: Books, maxSeq: nat, v: Slot)
    requires 3 <= c.maxGens && 1 <= maxSeq && SlotSized(c, b, maxSeq, v)
    ensures SlotSized(c, ShiftedAt(c, b, maxSeq, v), maxSeq + 1, v)
    ensures var r := ShiftedAt(c, b, maxSeq, v);
            r.nr == b.nr && r.walk == b.walk
            && forall u: Slot :: u != v ==> At(r.active, u) == At(b.active, u) && At(r.inactive, u) == At(b.inactive, u)
  {
    hide Gen, AllGens;
    DistinctYoung(c, maxSeq);
  }
}
