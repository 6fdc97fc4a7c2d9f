/** The multi-gen LRU's aging: opening and giving up generations, and the walks that promote folios meanwhile. */
module LruGen {
  import opened Lists
  import opened Modular
  import opened Numbers
  import opened LruWindow

  ghost predicate Ok(c: Config, s: State) {
    && Sane(c) && 1 <= s.maxSeq && SeqIsValid(c, s)
    && Filed(c, s.lists)
    && Windowed(c, s.lists, true, s.minFile, s.maxSeq)
    && (!s.inverted ==> Windowed(c, s.lists, false, s.minAnon, s.maxSeq))
    && Accounted(c, s.books, s.lists.flags) && Sized(c, s.books, s.maxSeq) && WalkBalanced(c, s.books)
  }

  /** How many folios the oldest lists of the type hold. */
  ghost function OldCount(c: Config, s: State, file: bool): nat
    requires 0 < c.maxGens
  {
    |Oldest(c, s.lists, file, Gen(c, MinSeq(s, file)))|
  }

  function Rank(c: Config, v: Slot): nat {
    (if v.file then c.zones else 0) + v.zone
  }

  lemma SlotOnly(c: Config, b: Books, e: Books, maxSeq: nat, v: Slot)
    requires 0 < c.maxGens && 1 <= maxSeq && SlotSized(c, b, maxSeq, v)
    requires e.nr == b.nr && At(e.active, v) == At(b.active, v) && At(e.inactive, v) == At(b.inactive, v)
    ensures SlotSized(c, e, maxSeq, v)
  {
  }

  /** The folios still to be moved before the full types have room. */
  ghost function Backlog(c: Config, s: State): nat
    requires 0 < c.maxGens
  {
    (if NrGens(s, true) == c.maxGens then OldCount(c, s, true) + 1 else 0)
    + (if NrGens(s, false) == c.maxGens then OldCount(c, s, false) + 1 else 0)
  }

  /** In these proofs only the parts of Ok matter, not what they say. */
  lemma OkParts(c: Config, s: State)
    requires Ok(c, s)
    ensures Sane(c) && 1 <= c.minGens && c.minGens + 1 < c.maxGens && 1 <= c.batch && 1 <= s.maxSeq && SeqIsValid(c, s)
    ensures Filed(c, s.lists)
  {
  }

  // ----- moving one folio out of the oldest generation -----

  lemma SameOldCount(c: Config, s: State, t: State, file: bool)
    requires 0 < c.maxGens && s.lists == t.lists && MinSeq(s, file) == MinSeq(t, file)
    ensures OldCount(c, s, file) == OldCount(c, t, file)
  {
  }

  ghost function Tail(c: Config, s: State, file: bool, zone: nat): nat
    requires 0 < c.maxGens && Queue(s.lists.folios, OldKey(c, s, file, zone)) != []
  {
    var q := Queue(s.lists.folios, OldKey(c, s, file, zone));
    q[|q| - 1]
  }

  function OldKey(c: Config, s: State, file: bool, zone: nat): Key
    requires 0 < c.maxGens
  {
    Key(Gen(c, MinSeq(s, file)), file, zone)
  }

  ghost predicate HasTail(c: Config, s: State, file: bool, zone: nat) {
    && 0 < c.maxGens && 1 <= s.maxSeq && Queue(s.lists.folios, OldKey(c, s, file, zone)) != []
    && var f := Tail(c, s, file, zone);
       f in c.kind && f in s.lists.flags && f in s.lists.age && f in s.lists.mark
  }

  /** Promoted meanwhile: it goes where its flag says. Otherwise it becomes one generation younger. */
  ghost function Aged(c: Config, s: State, file: bool, zone: nat): State
    requires HasTail(c, s, file, zone)
  {
    var k := OldKey(c, s, file, zone);
    var f := Tail(c, s, file, zone);
    if s.lists.flags[f] != k.gen then
      s.(lists := Moved(c, s.lists, k, f, s.lists.mark[f], s.lists.mark[f]))
    else
      var next := s.lists.age[f] + 1;
      s.(lists := Moved(c, s.lists, k, f, next, next),
         books := Transferred(c, s.books, s.maxSeq, k, Key(Gen(c, next), file, zone), c.kind[f].pages))
  }

  lemma NextGen(c: Config, s: nat)
    requires 2 <= c.maxGens
    ensures Gen(c, s + 1) == (Gen(c, s) + 1) % c.maxGens != Gen(c, s)
  {
    NextResidue(c.maxGens, s);
    ResidueTells(c.maxGens, s, s + 1);
    NextResidue(c.maxGens, Gen(c, s));
    DivUnique(Gen(c, s), c.maxGens, 0, Gen(c, s));
  }

  lemma TailFacts(c: Config, s: State, file: bool, zone: nat)
    requires Ok(c, s) && Queue(s.lists.folios, OldKey(c, s, file, zone)) != []
    ensures HasTail(c, s, file, zone)
    ensures var f := Tail(c, s, file, zone); var k := OldKey(c, s, file, zone);
            c.kind[f].file == file && c.kind[f].zone == zone && zone < c.zones
            && Gen(c, s.lists.age[f]) == k.gen && s.lists.flags[f] == Gen(c, s.lists.mark[f])
            && Gen(c, s.lists.age[f] + 1) == (k.gen + 1) % c.maxGens != k.gen
  {
    hide NoDup, Accounted, Sized, WalkBalanced, Windowed, Gen;
    var q := Queue(s.lists.folios, OldKey(c, s, file, zone));
    var f := q[|q| - 1];
    assert f in q;
    NextGen(c, s.lists.age[f]);
  }

  /** The folio, if its type is windowed, is of the oldest generation, and goes to a younger one of the window. */
  lemma TailYounger(c: Config, s: State, file: bool, zone: nat)
    requires Ok(c, s) && HasTail(c, s, file, zone) && (file || !s.inverted)
    ensures var f := Tail(c, s, file, zone); var k := OldKey(c, s, file, zone);
            s.lists.age[f] == MinSeq(s, file) <= s.lists.mark[f] <= s.maxSeq
            && (s.lists.flags[f] == k.gen <==> s.lists.mark[f] == MinSeq(s, file))
  {
    hide NoDup, Accounted, Sized, WalkBalanced, Gen;
    var f := Tail(c, s, file, zone);
    TailFacts(c, s, file, zone);
    TailInQueue(c, s, file, zone);
    OneNumber(c, s.lists, file, MinSeq(s, file), s.maxSeq, MinSeq(s, file), OldKey(c, s, file, zone), f);
  }

  lemma AgedAges(c: Config, s: State, file: bool, zone: nat)
    requires Ok(c, s) && HasTail(c, s, file, zone)
    ensures var l := Aged(c, s, file, zone).lists; var f := Tail(c, s, file, zone);
            var x := if s.lists.flags[f] != OldKey(c, s, file, zone).gen then s.lists.mark[f] else s.lists.age[f] + 1;
            l.age == s.lists.age[f := x] && l.mark == s.lists.mark[f := x]
  {
    hide NoDup, Accounted, Sized, WalkBalanced, Gen, Transferred, Queue, Moved, Filed, Windowed;
    var k := OldKey(c, s, file, zone);
    var f := Tail(c, s, file, zone);
    var m, a := s.lists.mark[f], s.lists.age[f];
    OkParts(c, s);
    MovedMaps(c, s.lists, k, f, m, m);
    MovedMaps(c, s.lists, k, f, a + 1, a + 1);
  }

  lemma AgedWindow(c: Config, s: State, file: bool, zone: nat)
    requires Ok(c, s) && HasTail(c, s, file, zone) && 2 <= NrGens(s, file)
    ensures var l := Aged(c, s, file, zone).lists;
            Windowed(c, l, true, s.minFile, s.maxSeq) && (!s.inverted ==> Windowed(c, l, false, s.minAnon, s.maxSeq))
  {
    hide NoDup, Accounted, Sized, WalkBalanced, Gen, Filed, Aged;
    TailFacts(c, s, file, zone);
    AgedAges(c, s, file, zone);
    if file || !s.inverted {
      TailYounger(c, s, file, zone);
    }
  }

  lemma TailInQueue(c: Config, s: State, file: bool, zone: nat)
    requires HasTail(c, s, file, zone)
    ensures Tail(c, s, file, zone) in Queue(s.lists.folios, OldKey(c, s, file, zone))
  {
  }

  lemma AgedOk(c: Config, s: State, file: bool, zone: nat)
    requires Ok(c, s) && HasTail(c, s, file, zone) && 2 <= NrGens(s, file)
    ensures var t := Aged(c, s, file, zone); var g := Gen(c, MinSeq(s, file));
            Ok(c, t) && t == s.(lists := t.lists, books := t.books)
            && OldCount(c, t, file) == OldCount(c, s, file) - 1 && OldCount(c, t, !file) == OldCount(c, s, !file)
            && (forall z: nat :: z != zone && EmptyIn(s.lists.folios, file, g, z) ==>
                  EmptyIn(t.lists.folios, file, g, z))
  {
    hide NoDup, Accounted, Sized, WalkBalanced, Windowed, Filed, Gen, Transferred, Moved;
    var k := OldKey(c, s, file, zone);
    var f := Tail(c, s, file, zone);
    TailFacts(c, s, file, zone);
    AgedWindow(c, s, file, zone);
    AgedLists(c, s, file, zone);
    AgedBooks(c, s, file, zone);
  }

  lemma AgedLists(c: Config, s: State, file: bool, zone: nat)
    requires Ok(c, s) && HasTail(c, s, file, zone)
    ensures var l := Aged(c, s, file, zone).lists; var g := Gen(c, MinSeq(s, file));
            Filed(c, l)
            && OldCount(c, s.(lists := l), file) == OldCount(c, s, file) - 1 &&
                  OldCount(c, s.(lists := l), !file) == OldCount(c, s, !file)
            && (forall z: nat :: z != zone && EmptyIn(s.lists.folios, file, g, z) ==> EmptyIn(l.folios, file, g, z))
  {
    hide NoDup, Accounted, Sized, WalkBalanced, Windowed, Filed, Gen, Transferred, Moved, Oldest;
    var k := OldKey(c, s, file, zone);
    var f := Tail(c, s, file, zone);
    TailFacts(c, s, file, zone);
    var x := if s.lists.flags[f] != k.gen then s.lists.mark[f] else s.lists.age[f] + 1;
    assert Home(c, f, x).gen != k.gen;
    MovedFiled(c, s.lists, k, f, x, x);
    MovedQueues(c, s.lists, k, f, x, x);
    MovedOldest(c, s.lists, k, f, x, x, Gen(c, MinSeq(s, !file)));
  }

  /** The last folio of an oldest list goes to the end of a younger one: the next generation's, or the one that a walk
      has promoted it to. */
  lemma AgedLands(c: Config, s: State, file: bool, zone: nat)
    requires Ok(c, s) && HasTail(c, s, file, zone) && (file || !s.inverted)
    ensures var l, from := s.lists, Key(MinSeq(s, file) % c.maxGens, file, zone);
            var q, t := Queue(l.folios, from), Aged(c, s, file, zone).lists;
            && q != [] && q[|q| - 1] in l.age && q[|q| - 1] in l.mark
            && var f := q[|q| - 1];
            var gen := if l.age[f] < l.mark[f] then l.mark[f] else l.age[f] + 1;
            var to := Key(gen % c.maxGens, file, zone);
            && t.age == l.age[f := gen] && t.flags == l.flags[f := gen % c.maxGens]
            && Queue(t.folios, from) == q[..|q| - 1] && Queue(t.folios, to) == Queue(l.folios, to) + [f]
            && forall k :: k != from && k != to ==> Queue(t.folios, k) == Queue(l.folios, k)
  {
    hide NoDup, Accounted, Sized, WalkBalanced, Transferred, Windowed;
    TailFacts(c, s, file, zone);
    TailYounger(c, s, file, zone);
    var k, f := OldKey(c, s, file, zone), Tail(c, s, file, zone);
    var m, a := s.lists.mark[f], s.lists.age[f];
    if m == a {
      MovedMaps(c, s.lists, k, f, a + 1, a + 1);
      MovedQueues(c, s.lists, k, f, a + 1, a + 1);
    } else {
      MovedMaps(c, s.lists, k, f, m, m);
      MovedQueues(c, s.lists, k, f, m, m);
    }
  }

  lemma AgedBooks(c: Config, s: State, file: bool, zone: nat)
    requires Ok(c, s) && HasTail(c, s, file, zone)
    ensures var t := Aged(c, s, file, zone);
            Accounted(c, t.books, t.lists.flags) && Sized(c, t.books, s.maxSeq) && WalkBalanced(c, t.books)
  {
    hide NoDup, Accounted, Sized, Windowed, Filed, Gen, Transferred, Moved;
    var k := OldKey(c, s, file, zone);
    var f := Tail(c, s, file, zone);
    TailFacts(c, s, file, zone);
    var flags, m := s.lists.flags, s.lists.mark[f];
    if flags[f] != k.gen {
      MovedMaps(c, s.lists, k, f, m, m);
      assert flags[f := Gen(c, m)] == flags;
    } else {
      var next := s.lists.age[f] + 1;
      MovedMaps(c, s.lists, k, f, next, next);
      GenSmall(c, s.maxSeq);
      GenSmall(c, next);
      GenSmall(c, MinSeq(s, file));
      TransferKeeps(c, s.books, s.maxSeq, flags, f, Gen(c, next));
    }
  }

  /** No folio has come or gone, and only those of generation `gen` of the type have moved. */
  ghost predicate OnlyMoved(c: Config, l: Places, l': Places, file: bool, gen: nat) {
    && 0 < c.maxGens && l'.age.Keys == l.age.Keys && l'.flags.Keys == l.flags.Keys
    && (forall f :: f in l.age && f in l'.age && f in l.flags && f in l'.flags && f in c.kind
                    && !(c.kind[f].file == file && Gen(c, l.age[f]) == gen) ==>
                    l'.age[f] == l.age[f] && l'.flags[f] == l.flags[f])
  }

  lemma AgedMoves(c: Config, s: State, file: bool, zone: nat)
    requires Ok(c, s) && HasTail(c, s, file, zone)
    ensures OnlyMoved(c, s.lists, Aged(c, s, file, zone).lists, file, Gen(c, MinSeq(s, file)))
  {
    hide Ok, Gen, Moved, Transferred, Queue;
    TailFacts(c, s, file, zone);
    var k, f := OldKey(c, s, file, zone), Tail(c, s, file, zone);
    MovedMaps(c, s.lists, k, f, s.lists.mark[f], s.lists.mark[f]);
    MovedMaps(c, s.lists, k, f, s.lists.age[f] + 1, s.lists.age[f] + 1);
  }

  lemma NoneMoved(c: Config, l: Places, file: bool, gen: nat)
    requires 0 < c.maxGens
    ensures OnlyMoved(c, l, l, file, gen)
  {
  }

  lemma MovedTwice(c: Config, a: Places, b: Places, d: Places, file: bool, gen: nat)
    requires OnlyMoved(c, a, b, file, gen) && OnlyMoved(c, b, d, file, gen)
    ensures OnlyMoved(c, a, d, file, gen)
  {
    hide Gen;
  }

  lemma GenSmall(c: Config, s: nat)
    requires 0 < c.maxGens
    ensures Gen(c, s) < c.maxGens
  {
  }

  // ----- giving up generations -----

  function Raised(s: State, file: bool, low: nat): State {
    if file then s.(minFile := low) else s.(minAnon := low)
  }

  /** Every generation from the oldest up to `low` is empty. */
  ghost predicate EmptyUpTo(c: Config, l: Places, file: bool, from: nat, low: nat)
    requires 0 < c.maxGens
  {
    forall x: nat :: from <= x < low ==> Empty(l.folios, file, Gen(c, x))
  }

  lemma {:induction false} WindowShrinks(c: Config, l: Places, file: bool, from: nat, low: nat, high: nat)
    requires Filed(c, l) && Windowed(c, l, file, from, high) && from <= low && EmptyUpTo(c, l, file, from, low)
    ensures Windowed(c, l, file, low, high)
    decreases low - from
  {
    hide Filed, Windowed, Gen, Empty;
    if from < low {
      OldestEmpty(c, l, file, from, high);
      WindowShrinks(c, l, file, from + 1, low, high);
    }
  }

  /** Empty generations can be given up as long as enough are left. */
  lemma RaisedOk(c: Config, s: State, file: bool, low: nat)
    requires Ok(c, s) && MinSeq(s, file) <= low && EmptyUpTo(c, s.lists, file, MinSeq(s, file), low)
    requires SeqIsValid(c, Raised(s, file, low))
    ensures Ok(c, Raised(s, file, low))
  {
    hide Filed, Windowed, Gen, Empty, Accounted, Sized, WalkBalanced, EmptyUpTo;
    if file {
      WindowShrinks(c, s.lists, file, s.minFile, low, s.maxSeq);
    } else if !s.inverted {
      WindowShrinks(c, s.lists, file, s.minAnon, low, s.maxSeq);
    }
  }

  /** ... and the oldest anon generation can be even if it is not empty, at the price of the order of the anon lists. */
  lemma GivenUpOk(c: Config, s: State)
    requires Ok(c, s) && SeqIsValid(c, Raised(s, false, s.minAnon + 1))
    ensures 0 < c.maxGens
    ensures var lost := !Empty(s.lists.folios, false, Gen(c, s.minAnon));
            Ok(c, Raised(s, false, s.minAnon + 1).(inverted := s.inverted || lost))
  {
    hide Filed, Windowed, Gen, Empty, Accounted, Sized, WalkBalanced, EmptyUpTo;
    if !s.inverted && Empty(s.lists.folios, false, Gen(c, s.minAnon)) {
      EmptyOne(c, s.lists, false, s.minAnon);
      RaisedOk(c, s, false, s.minAnon + 1);
    }
  }

  /** The window of a type survives giving up its oldest generation exactly if that has no folio. */
  lemma WindowLost(c: Config, s: State, file: bool)
    requires Ok(c, s) && (file || !s.inverted)
    ensures 0 < c.maxGens
    ensures var low := MinSeq(s, file);
            Windowed(c, s.lists, file, low + 1, s.maxSeq) <==> Empty(s.lists.folios, file, Gen(c, low))
  {
    hide NoDup, Accounted, Sized, WalkBalanced, Gen, Windowed;
    var low := MinSeq(s, file);
    var k := Gen(c, low);
    if Empty(s.lists.folios, file, k) {
      OldestEmpty(c, s.lists, file, low, s.maxSeq);
    } else {
      var z: nat :| !EmptyIn(s.lists.folios, file, k, z);
      var f := Queue(s.lists.folios, Key(k, file, z))[0];
      assert f in Queue(s.lists.folios, Key(k, file, z));
      OneNumber(c, s.lists, file, low, s.maxSeq, low, Key(k, file, z), f);
      TooOld(c, s.lists, file, low + 1, s.maxSeq, f);
    }
  }

  lemma TooOld(c: Config, l: Places, file: bool, low: nat, high: nat, f: nat)
    requires f in l.age && f in l.mark && f in c.kind && c.kind[f].file == file && l.age[f] < low
    ensures !Windowed(c, l, file, low, high)
  {
  }

  /** The oldest lists are empty exactly if they hold no folio. */
  lemma NoneOld(c: Config, s: State, file: bool)
    requires Ok(c, s)
    ensures 0 < c.maxGens && (Empty(s.lists.folios, file, Gen(c, MinSeq(s, file))) <==> OldCount(c, s, file) == 0)
  {
    hide NoDup, Accounted, Sized, WalkBalanced, Windowed, Gen;
    var gen := Gen(c, MinSeq(s, file));
    var folios := Oldest(c, s.lists, file, gen);
    if folios != {} {
      var f :| f in folios;
      assert f in Queue(s.lists.folios, Home(c, f, s.lists.age[f]));
      assert !EmptyIn(s.lists.folios, file, gen, c.kind[f].zone);
    }
    if !Empty(s.lists.folios, file, gen) {
      var z: nat :| !EmptyIn(s.lists.folios, file, gen, z);
      var f := Queue(s.lists.folios, Key(gen, file, z))[0];
      assert f in Queue(s.lists.folios, Key(gen, file, z));
      assert Home(c, f, s.lists.age[f]) == Key(gen, file, z);
      assert f in folios;
    }
  }

  lemma EmptyOne(c: Config, l: Places, file: bool, from: nat)
    requires 0 < c.maxGens && Empty(l.folios, file, Gen(c, from))
    ensures EmptyUpTo(c, l, file, from, from + 1)
  {
  }

  /** Only the zones that exist have folios. */
  lemma EmptyZones(c: Config, l: Places, file: bool, gen: nat)
    requires Sane(c) && Filed(c, l) && forall z: nat :: z < c.zones ==> EmptyIn(l.folios, file, gen, z)
    ensures Empty(l.folios, file, gen)
  {
    hide NoDup, Gen;
    forall z: nat ensures EmptyIn(l.folios, file, gen, z) {
      var q := Queue(l.folios, Key(gen, file, z));
      forall f | f in q ensures z < c.zones {
        assert Home(c, f, l.age[f]) == Key(gen, file, z);
      }
      assert q != [] ==> q[0] in q;
    }
  }

  /** The oldest generation, from `from` on, that has folios or must be kept. */
  ghost function FirstKept(c: Config, l: Places, file: bool, from: nat, maxSeq: nat): (low: nat)
    requires 0 < c.maxGens
    ensures from <= low && EmptyUpTo(c, l, file, from, low)
    ensures from + c.minGens <= maxSeq + 1 ==> low + c.minGens <= maxSeq + 1
    decreases maxSeq - from
  {
    if from + c.minGens <= maxSeq && Empty(l.folios, file, Gen(c, from)) then
      var low := FirstKept(c, l, file, from + 1, maxSeq);
      EmptyOneMore(c, l, file, from, low);
      low
    else from
  }

  lemma EmptyOneMore(c: Config, l: Places, file: bool, from: nat, low: nat)
    requires 0 < c.maxGens && Empty(l.folios, file, Gen(c, from)) && EmptyUpTo(c, l, file, from + 1, low)
    ensures EmptyUpTo(c, l, file, from, low)
  {
  }

  lemma EmptyShorter(c: Config, l: Places, file: bool, from: nat, low: nat, high: nat)
    requires 0 < c.maxGens && low <= high && EmptyUpTo(c, l, file, from, high)
    ensures EmptyUpTo(c, l, file, from, low)
  {
  }

  /** try_to_inc_min_seq: no file generation is given up that anon ones still go with. */
  ghost function Trimmed(c: Config, s: State, canSwap: bool): State
    requires 0 < c.maxGens
  {
    var file := FirstKept(c, s.lists, true, s.minFile, s.maxSeq);
    if !canSwap then s.(minFile := file) else
      var anon := Min(FirstKept(c, s.lists, false, s.minAnon, s.maxSeq), file);
      s.(minAnon := anon, minFile := Max(anon, s.minFile))
  }

  lemma TrimmedOk(c: Config, s: State, canSwap: bool)
    requires Ok(c, s)
    ensures 0 < c.maxGens
    ensures var t := Trimmed(c, s, canSwap);
            Ok(c, t) && s.minFile <= t.minFile && s.minAnon <= t.minAnon
            && EmptyUpTo(c, s.lists, true, s.minFile, t.minFile) && EmptyUpTo(c, s.lists, false, s.minAnon, t.minAnon)
  {
    hide Ok, FirstKept, EmptyUpTo;
    OkParts(c, s);
    var t := Trimmed(c, s, canSwap);
    EmptyShorter(c, s.lists, true, s.minFile, t.minFile, FirstKept(c, s.lists, true, s.minFile, s.maxSeq));
    EmptyShorter(c, s.lists, false, s.minAnon, t.minAnon, FirstKept(c, s.lists, false, s.minAnon, s.maxSeq));
    RaisedOk(c, s, true, t.minFile);
    RaisedOk(c, Raised(s, true, t.minFile), false, t.minAnon);
  }

  lemma {:induction false} FirstKeptExact(c: Config, l: Places, file: bool, from: nat, maxSeq: nat)
    requires 0 < c.maxGens
    ensures var low := FirstKept(c, l, file, from, maxSeq);
            from <= low && EmptyUpTo(c, l, file, from, low)
            && (maxSeq < low + c.minGens || !Empty(l.folios, file, Gen(c, low)))
    decreases maxSeq - from
  {
    hide Empty, Gen, EmptyUpTo;
    if from + c.minGens <= maxSeq && Empty(l.folios, file, Gen(c, from)) {
      FirstKeptExact(c, l, file, from + 1, maxSeq);
    }
  }

  /** As many generations as can be are given up: without swap all empty ones of files; with swap those of anon pages
      that are empty for both, and of files just as far. */
  lemma TrimmedMost(c: Config, s: State, canSwap: bool)
    requires Ok(c, s)
    ensures 0 < c.maxGens
    ensures var t, folios := Trimmed(c, s, canSwap), s.lists.folios;
            && t == s.(minFile := t.minFile, minAnon := t.minAnon)
            && (!canSwap ==> t.minAnon == s.minAnon
                             && (s.maxSeq < t.minFile + c.minGens || !Empty(folios, true, Gen(c, t.minFile))))
            && (canSwap ==>
                  && (s.maxSeq < t.minAnon + c.minGens || !Empty(folios, false, Gen(c, t.minAnon))
                      || !Empty(folios, true, Gen(c, t.minAnon)))
                  && t.minFile == if t.minAnon < s.minFile then s.minFile else t.minAnon)
  {
    hide Empty, Gen, EmptyUpTo, FirstKept, Filed, Windowed, Accounted, Sized, WalkBalanced;
    FirstKeptExact(c, s.lists, true, s.minFile, s.maxSeq);
    FirstKeptExact(c, s.lists, false, s.minAnon, s.maxSeq);
  }

  // ----- opening a generation -----

  ghost function Opened(s: State, b: Books): State {
    s.(maxSeq := s.maxSeq + 1, books := b)
  }

  lemma OpenedOk(c: Config, s: State, b: Books)
    requires Ok(c, s) && NrGens(s, true) < c.maxGens && NrGens(s, false) < c.maxGens
    requires b.nr == s.books.nr && b.walk == s.books.walk && Sized(c, b, s.maxSeq + 1)
    ensures Ok(c, Opened(s, b))
    ensures Empty(s.lists.folios, true, Gen(c, s.maxSeq + 1)) &&
          (!s.inverted ==> Empty(s.lists.folios, false, Gen(c, s.maxSeq + 1)))
  {
    hide Filed, Gen, Empty, Sized, AllGens;
    NextEmpty(c, s.lists, true, s.minFile, s.maxSeq);
    if !s.inverted {
      NextEmpty(c, s.lists, false, s.minAnon, s.maxSeq);
    }
  }

  // ----- promotion by a page table walk -----

  /** The walk takes `seqno` for the youngest generation. */
  ghost function Promoted(c: Config, s: State, f: nat, seqno: nat): State
    requires 0 < c.maxGens && f in c.kind && f in s.lists.flags
  {
    var d, gen, was := c.kind[f], Gen(c, seqno), s.lists.flags[f];
    s.(lists := s.lists.(flags := s.lists.flags[f := gen], mark := s.lists.mark[f := seqno]),
       books := if was == gen then s.books
                else Noted(s.books, Key(was, d.file, d.zone), Key(gen, d.file, d.zone), d.pages))
  }

  /** From then on its flag says that generation, and it is to go there; for the time being it stays where it is. */
  lemma PromotedSays(c: Config, s: State, f: nat, seqno: nat)
    requires 0 < c.maxGens && f in c.kind && f in s.lists.flags
    ensures var t := Promoted(c, s, f, seqno);
            && t.lists.flags == s.lists.flags[f := seqno % c.maxGens] && t.lists.mark == s.lists.mark[f := seqno]
            && t.lists.folios == s.lists.folios && t.lists.age == s.lists.age && t.books.nr == s.books.nr
  {
  }

  lemma FlagSmall(c: Config, l: Places, f: nat)
    requires Filed(c, l) && f in l.flags
    ensures f in c.kind && f in l.age && f in l.mark && l.flags[f] < c.maxGens
  {
  }

  lemma Reflag(c: Config, l: Places, f: nat, m: nat)
    requires Filed(c, l) && f in l.flags
    ensures Filed(c, l.(flags := l.flags[f := Gen(c, m)], mark := l.mark[f := m]))
  {
    hide NoDup, Gen, Queue, Home;
  }

  lemma Remark(c: Config, l: Places, f: nat, m: nat, file: bool, low: nat, high: nat)
    requires f in l.flags && Windowed(c, l, file, low, high) && f in l.age && f in l.mark && f in c.kind &&
          0 < c.maxGens
    requires l.age[f] <= m <= high
    ensures Windowed(c, l.(flags := l.flags[f := Gen(c, m)], mark := l.mark[f := m]), file, low, high)
  {
    hide Gen;
  }

  lemma PromotedOk(c: Config, s: State, f: nat, seqno: nat)
    requires Ok(c, s) && f in s.lists.flags && f in s.lists.age && s.lists.age[f] <= seqno <= s.maxSeq
    ensures f in c.kind && 0 < c.maxGens && Ok(c, Promoted(c, s, f, seqno))
  {
    hide NoDup, Gen, Accounted, Sized, WalkBalanced, Filed, Windowed, Noted;
    OkParts(c, s);
    FlagSmall(c, s.lists, f);
    GenSmall(c, seqno);
    Reflag(c, s.lists, f, seqno);
    Remark(c, s.lists, f, seqno, true, s.minFile, s.maxSeq);
    if !s.inverted {
      Remark(c, s.lists, f, seqno, false, s.minAnon, s.maxSeq);
    }
    var t := Promoted(c, s, f, seqno);
    if s.lists.flags[f] == Gen(c, seqno) {
      assert t.lists.flags == s.lists.flags;
    } else {
      NoteKeeps(c, s.books, s.lists.flags, f, Gen(c, seqno));
      NotedSized(c, s.books, Key(s.lists.flags[f], c.kind[f].file, c.kind[f].zone),
                 Key(Gen(c, seqno), c.kind[f].file, c.kind[f].zone), c.kind[f].pages, s.maxSeq);
    }
  }

  lemma NotedSized(c: Config, b: Books, from: Key, to: Key, n: nat, maxSeq: nat)
    requires 0 < c.maxGens && 1 <= maxSeq && Sized(c, b, maxSeq)
    ensures Sized(c, Noted(b, from, to, n), maxSeq)
  {
    var e := Noted(b, from, to, n);
    forall v: Slot | v.zone < c.zones ensures SlotSized(c, e, maxSeq, v) {
      assert SlotSized(c, b, maxSeq, v);
    }
  }

  /** A walk that has handed in everything is balanced again. */
  lemma {:induction false} NothingNoted(m: map<Key, int>, file: bool, zone: nat, n: nat)
    requires forall g: nat :: g < n ==> At(m, Key(g, file, zone)) == 0
    ensures AllGens(m, file, zone, n) == 0
  {
    if n > 0 {
      NothingNoted(m, file, zone, n - 1);
    }
  }

  lemma AllHandedIn(c: Config, b: Books)
    requires forall k :: KeyOk(c, k) ==> At(b.walk, k) == 0
    ensures WalkBalanced(c, b)
  {
    hide AllGens, At;
    forall file, zone: nat | zone < c.zones ensures AllGens(b.walk, file, zone, c.maxGens) == 0 {
      assert forall g: nat :: g < c.maxGens ==> KeyOk(c, Key(g, file, zone));
      NothingNoted(b.walk, file, zone, c.maxGens);
    }
  }

  /** No folio has come or gone, and only those of types that fill the window have left their oldest lists. */
  ghost predicate Refiled(c: Config, s: State, t: State) {
    && 0 < c.maxGens && t.lists.age.Keys == s.lists.age.Keys && t.lists.flags.Keys == s.lists.flags.Keys
    && (forall f :: f in s.lists.age && f in s.lists.flags && f in c.kind && !Movable(c, s, f) ==>
          t.lists.age[f] == s.lists.age[f] && t.lists.flags[f] == s.lists.flags[f])
  }

  ghost predicate Movable(c: Config, s: State, f: nat)
    requires 0 < c.maxGens && f in c.kind && f in s.lists.age
  {
    var file := c.kind[f].file;
    NrGens(s, file) == c.maxGens && Gen(c, s.lists.age[f]) == Gen(c, MinSeq(s, file))
  }

  /** The oldest generation of the type is the same, or there were too many and one has been given up. */
  ghost predicate Roomier(c: Config, s: State, t: State, file: bool) {
    || MinSeq(t, file) == MinSeq(s, file)
    || (NrGens(s, file) == c.maxGens && MinSeq(t, file) == MinSeq(s, file) + 1)
  }

  /** From s on, nobody but inc_max_seq has worked on the lists: folios have moved only as they must, no generation has
      been opened, and what the walk noted is still noted. */
  ghost predicate Settling(c: Config, s: State, t: State) {
    && t.maxSeq == s.maxSeq && t.inverted == s.inverted && t.books.walk == s.books.walk
    && Roomier(c, s, t, true) && Roomier(c, s, t, false) && Refiled(c, s, t)
  }

  lemma NobodySettling(c: Config, s: State)
    requires 0 < c.maxGens
    ensures Settling(c, s, s)
  {
    hide Gen;
  }

  lemma RefiledByMoves(c: Config, s: State, t: State, file: bool)
    requires 0 < c.maxGens && OnlyMoved(c, s.lists, t.lists, file, Gen(c, MinSeq(s, file))) &&
          NrGens(s, file) == c.maxGens
    ensures Refiled(c, s, t)
  {
    hide Gen;
  }

  lemma RefiledTwice(c: Config, s: State, t: State, u: State)
    requires Refiled(c, s, t) && Refiled(c, t, u) && t.maxSeq == s.maxSeq && Filed(c, s.lists)
    requires Roomier(c, s, t, true) && Roomier(c, s, t, false)
    ensures Refiled(c, s, u)
  {
    hide Gen, NoDup, Queue, Home;
    forall f | f in s.lists.age && f in c.kind && !Movable(c, s, f)
      ensures f in t.lists.age && f in t.lists.flags && f in s.lists.flags
      ensures f in u.lists.age && f in u.lists.flags
      ensures u.lists.age[f] == s.lists.age[f] && u.lists.flags[f] == s.lists.flags[f]
    {
      assert !Movable(c, t, f);
    }
  }

  lemma RefiledAs(c: Config, s: State, t: State, u: State)
    requires Refiled(c, s, t) && u.lists == t.lists
    ensures Refiled(c, s, u)
  {
    hide Movable;
  }

  lemma SettlingOn(c: Config, s: State, t: State, u: State)
    requires Settling(c, s, t) && Settling(c, t, u) && Filed(c, s.lists)
    ensures Settling(c, s, u)
  {
    hide Refiled, Filed;
    RefiledTwice(c, s, t, u);
  }

  /** From the start, or from what the others left in one of the turns. */
  ghost predicate Reached(c: Config, turns: seq<State>, s: State, t: State) {
    Settling(c, s, t) || exists i :: 0 <= i < |turns| && Settling(c, turns[i], t)
  }

  lemma ReachedOn(c: Config, turns: seq<State>, s: State, t: State, u: State)
    requires Reached(c, turns, s, t) && Settling(c, t, u)
    requires Filed(c, s.lists) && forall i :: 0 <= i < |turns| ==> Filed(c, turns[i].lists)
    ensures Reached(c, turns, s, u)
  {
    hide Settling, Filed;
    if Settling(c, s, t) {
      SettlingOn(c, s, t, u);
    } else {
      var i :| 0 <= i < |turns| && Settling(c, turns[i], t);
      SettlingOn(c, turns[i], t, u);
    }
  }

  lemma ReachedStart(c: Config, turns: seq<State>, s: State)
    requires 0 < c.maxGens
    ensures Reached(c, turns, s, s)
  {
    NobodySettling(c, s);
  }

  lemma ReachedTurn(c: Config, turns: seq<State>, s: State, i: nat)
    requires 0 < c.maxGens && i < |turns|
    ensures Reached(c, turns, s, turns[i])
  {
    NobodySettling(c, turns[i]);
  }

  /** Is the order of the anon lists lost once room has been made? Without swap a full window gives up its oldest anon
      generation with all its folios. */
  ghost predicate Inverting(c: Config, s: State, canSwap: bool)
    requires 0 < c.maxGens
  {
    s.inverted || (!canSwap && NrGens(s, false) == c.maxGens && !Empty(s.lists.folios, false, Gen(c, s.minAnon)))
  }

  class Lruvec {
    const c: Config
    var maxSeq: nat
    var minAnon: nat
    var minFile: nat
    var folios: map<Key, seq<nat>>
    var flags: map<nat, nat>
    var nrPages: map<Key, int>
    var walkPages: map<Key, int>
    var batched: nat
    var active: map<Slot, int>
    var inactive: map<Slot, int>
    ghost var inverted: bool
    ghost var age: map<nat, nat>
    ghost var mark: map<nat, nat>

    ghost function Now(): State
      reads this
    {
      State(maxSeq, minAnon, minFile, inverted, Places(folios, flags, age, mark),
          Books(nrPages, walkPages, active, inactive))
    }

    /** lru_gen_init_lruvec */
    constructor (c: Config)
      requires Sane(c)
      ensures this.c == c && Ok(c, Now()) && maxSeq == c.minGens + 1 && minAnon == minFile == 0 && !inverted
    {
      this.c, maxSeq, minAnon, minFile, inverted, batched := c, c.minGens + 1, 0, 0, false, 0;
      folios, flags, age, mark := map[], map[], map[], map[];
      nrPages, walkPages, active, inactive := map[], map[], map[], map[];
      new;
      AllHandedIn(c, Now().books);
      forall file, zone: nat ensures AllGens(nrPages, file, zone, c.maxGens) == 0 {
        NothingNoted(nrPages, file, zone, c.maxGens);
      }
      forall k ensures PagesOf(c, flags, k) == 0 {
        assert Weights(c, flags, k) == map[];
      }
    }

    // ----- the walk -----

    /** A page table walk finds folio f accessed: folio_update_gen and update_batch_size. `seqno` is the walk's max_seq,
        which may have been passed since, but not by this folio. */
    method Promote(f: nat, seqno: nat)
      requires Ok(c, Now()) && seqno <= maxSeq && (f in age ==> age[f] <= seqno)
      modifies this`flags, this`walkPages, this`batched, this`mark
      ensures Ok(c, Now()) && folios == old(folios)
      ensures f !in old(flags) ==> Now() == old(Now())
      ensures f in old(flags) && f in c.kind && 0 < c.maxGens ==> Now() == Promoted(c, old(Now()), f, seqno)
    {
      hide Ok, Filed, Noted, Gen;
      if f !in flags {
        return;
      }
      OkParts(c, Now());
      FlagSmall(c, Now().lists, f);
      PromotedOk(c, Now(), f, seqno);
      var newGen := Gen(c, seqno);
      var oldGen := flags[f];
      flags := flags[f := newGen];
      mark := mark[f := seqno];
      if oldGen != newGen {
        var d := c.kind[f];
        UpdateBatchSize(Key(oldGen, d.file, d.zone), Key(newGen, d.file, d.zone), d.pages);
      }
    }

    method UpdateBatchSize(from: Key, to: Key, delta: nat)
      modifies this`walkPages, this`batched
      ensures Now() == old(Now()).(books := Noted(old(Now()).books, from, to, delta)) && batched == old(batched) + 1
    {
      batched := batched + 1;
      walkPages := walkPages[from := At(walkPages, from) - delta];
      walkPages := walkPages[to := At(walkPages, to) + delta];
    }

    /** __update_lru_size beside the list's own count. */
    method AddPages(k: Key, delta: int)
      requires 0 < c.maxGens && 1 <= maxSeq
      modifies this`nrPages, this`active, this`inactive
      ensures Now() == old(Now()).(books := Grown(c, old(Now()).books, maxSeq, k, delta))
    {
      nrPages := nrPages[k := At(nrPages, k) + delta];
      var v := Slot(k.file, k.zone);
      if Active(c, maxSeq, k.gen) {
        active := active[v := At(active, v) + delta];
      } else {
        inactive := inactive[v := At(inactive, v) + delta];
      }
    }

    ghost predicate Handing()
      reads this
    {
      Sane(c) && 1 <= maxSeq && Accounted(c, Now().books, flags) && Sized(c, Now().books, maxSeq)
    }

    /** The walk hands in what it noted for list k. */
    method ResetOne(k: Key)
      requires Handing() && KeyOk(c, k)
      modifies this`nrPages, this`walkPages, this`active, this`inactive
      ensures Handing()
      ensures forall j :: At(walkPages, j) == if j == k then 0 else At(old(walkPages), j)
    {
      hide Accounted, Sized, Gen;
      HandInKeeps(c, Now().books, maxSeq, k, flags);
      var delta := At(walkPages, k);
      if delta == 0 {
        return;
      }
      walkPages := walkPages[k := 0];
      AddPages(k, delta);
    }

    method ResetZones(gen: nat, file: bool)
      requires Handing() && gen < c.maxGens
      modifies this`nrPages, this`walkPages, this`active, this`inactive
      ensures Handing()
      ensures forall k: Key :: At(walkPages, k) ==
                if k.gen == gen && k.file == file && k.zone < c.zones then 0 else At(old(walkPages), k)
    {
      var zone := 0;
      while zone < c.zones
        invariant zone <= c.zones && Handing()
        invariant forall k: Key :: At(walkPages, k) ==
                    if k.gen == gen && k.file == file && k.zone < zone then 0 else At(old(walkPages), k)
      {
        ResetOne(Key(gen, file, zone));
        zone := zone + 1;
      }
    }

    /** reset_batch_size: afterwards nothing is left to hand in, and the counts are right by themselves. */
    method ResetBatchSize()
      requires Ok(c, Now())
      modifies this`nrPages, this`walkPages, this`active, this`inactive, this`batched
      ensures Ok(c, Now()) && batched == 0 && forall k :: KeyOk(c, k) ==> At(walkPages, k) == 0
      ensures Now().lists == old(Now().lists) && maxSeq == old(maxSeq)
    {
      hide Filed, Windowed, Accounted, Sized, WalkBalanced;
      batched := 0;
      var gen := 0;
      while gen < c.maxGens
        invariant gen <= c.maxGens && batched == 0 && Handing()
        invariant forall k: Key :: k.gen < gen && k.zone < c.zones ==> At(walkPages, k) == 0
      {
        ResetZones(gen, false);
        ResetZones(gen, true);
        gen := gen + 1;
      }
      AllHandedIn(c, Now().books);
    }

    // ----- giving up the oldest generation -----

    /** folio_inc_gen for the last folio of an oldest list, and the move to its new list. */
    method FolioIncGen(file: bool, zone: nat)
      requires Ok(c, Now()) && HasTail(c, Now(), file, zone) && 2 <= NrGens(Now(), file)
      modifies this`folios, this`flags, this`nrPages, this`active, this`inactive, this`age, this`mark
      ensures Now() == Aged(c, old(Now()), file, zone)
    {
      hide Ok, Filed, Gen, NoDup, Accounted, Sized, WalkBalanced, Windowed, SeqIsValid, Grown, Moved, Transferred;
      OkParts(c, Now());
      TailFacts(c, Now(), file, zone);
      var k := Key(Gen(c, if file then minFile else minAnon), file, zone);
      var q := Queue(folios, k);
      var f := q[|q| - 1];
      var newGen := flags[f];
      ghost var s := mark[f];
      if newGen == k.gen {
        newGen := (k.gen + 1) % c.maxGens;
        s := age[f] + 1;
        UpdateSize(k, Key(newGen, file, zone), c.kind[f].pages);
      }
      MoveTail(k, f, newGen, s);
    }

    /** list_move_tail, with the generation of the folio's flags. */
    method MoveTail(k: Key, f: nat, newGen: nat, ghost s: nat)
      requires 0 < c.maxGens && f in c.kind && k.file == c.kind[f].file && k.zone == c.kind[f].zone &&
            newGen == Gen(c, s)
      requires Queue(folios, k) != [] && f == Queue(folios, k)[|Queue(folios, k)| - 1]
      modifies this`folios, this`flags, this`age, this`mark
      ensures Now() == old(Now()).(lists := Moved(c, old(Now()).lists, k, f, s, s))
    {
      hide Gen;
      var q := Queue(folios, k);
      flags := flags[f := newGen];
      age, mark := age[f := s], mark[f := s];
      folios := folios[k := q[..|q| - 1]];
      var to := Key(newGen, k.file, k.zone);
      folios := folios[to := Queue(folios, to) + [f]];
    }

    /** The pages of a folio go from one generation to another. */
    method UpdateSize(from: Key, to: Key, delta: nat)
      requires 0 < c.maxGens && 1 <= maxSeq
      modifies this`nrPages, this`active, this`inactive
      ensures Now() == old(Now()).(books := Transferred(c, old(Now()).books, maxSeq, from, to, delta))
    {
      hide Gen, Grown;
      AddPages(from, -(delta as int));
      AddPages(to, delta);
    }

    /** Moves folios out of one oldest list until it is empty or the batch is used up. */
    method DrainZone(file: bool, gen: nat, zone: nat, remaining0: nat) returns (remaining: nat)
      requires Ok(c, Now()) && c.minGens < NrGens(Now(), file) && 0 < remaining0
      requires 0 < c.maxGens && gen == Gen(c, MinSeq(Now(), file))
      modifies this`folios, this`flags, this`nrPages, this`active, this`inactive, this`age, this`mark
      ensures Ok(c, Now()) && Now() == old(Now()).(lists := Now().lists, books := Now().books)
      ensures forall z: nat :: z != zone && EmptyIn(old(folios), file, gen, z) ==> EmptyIn(folios, file, gen, z)
      ensures remaining <= remaining0 && (0 < remaining ==> EmptyIn(folios, file, gen, zone))
      ensures OldCount(c, Now(), file) + remaining0 == old(OldCount(c, Now(), file)) + remaining
      ensures OldCount(c, Now(), !file) == old(OldCount(c, Now(), !file))
      ensures OnlyMoved(c, old(Now()).lists, Now().lists, file, gen)
    {
      hide Ok, Filed, Gen, NoDup, Accounted, Sized, WalkBalanced, Windowed, HasTail, Aged, Tail, OldCount, OnlyMoved;
      OkParts(c, Now());
      NoneMoved(c, Now().lists, file, gen);
      remaining := remaining0;
      while !EmptyIn(folios, file, gen, zone)
        invariant Ok(c, Now()) && 0 < remaining <= remaining0
        invariant Now() == old(Now()).(lists := Now().lists, books := Now().books)
        invariant forall z: nat :: z != zone && EmptyIn(old(folios), file, gen, z) ==> EmptyIn(folios, file, gen, z)
        invariant OldCount(c, Now(), file) + remaining0 == old(OldCount(c, Now(), file)) + remaining
        invariant OldCount(c, Now(), !file) == old(OldCount(c, Now(), !file))
        invariant OnlyMoved(c, old(Now()).lists, Now().lists, file, gen)
        decreases remaining
      {
        TailFacts(c, Now(), file, zone);
        AgedMoves(c, Now(), file, zone);
        MovedTwice(c, old(Now()).lists, Now().lists, Aged(c, Now(), file, zone).lists, file, gen);
        AgedOk(c, Now(), file, zone);
        FolioIncGen(file, zone);
        remaining := remaining - 1;
        if remaining == 0 {
          return;
        }
      }
    }

    /** inc_min_seq: empties the oldest generation of the type, `batch` folios at most, and gives it up. Only anon
        generations that could not be swapped are given up with folios in them. */
    method IncMinSeq(file: bool, canSwap: bool) returns (done: bool)
      requires Ok(c, Now()) && c.minGens < NrGens(Now(), file) && (file || NrGens(Now(), true) < NrGens(Now(), false))
      modifies this`minAnon, this`minFile, this`folios, this`flags, this`nrPages, this`active, this`inactive
      modifies this`inverted, this`age, this`mark
      ensures Ok(c, Now()) && maxSeq == old(maxSeq) && 0 < c.maxGens
      ensures MinSeq(Now(), file) == old(MinSeq(Now(), file)) + (if done then 1 else 0) &&
            MinSeq(Now(), !file) == old(MinSeq(Now(), !file))
      ensures done && (file || canSwap) ==> inverted == old(inverted) &&
                                            Empty(folios, file, Gen(c, old(MinSeq(Now(), file))))
      ensures !(file || canSwap) ==> done && folios == old(folios)
      ensures !(file || canSwap) ==> inverted == old(inverted || !Empty(folios, false, Gen(c, minAnon)))
      ensures !done ==> (file || canSwap) && inverted == old(inverted) &&
                        OldCount(c, Now(), file) + c.batch == old(OldCount(c, Now(), file))
      ensures file || canSwap ==> OldCount(c, Now(), !file) == old(OldCount(c, Now(), !file))
      ensures OnlyMoved(c, old(Now()).lists, Now().lists, file, Gen(c, old(MinSeq(Now(), file))))
    {
      hide Ok, Filed, Gen, NoDup, Accounted, Sized, WalkBalanced, Windowed, HasTail, Aged, Tail, OldCount, Empty,
          EmptyUpTo, OnlyMoved;
      OkParts(c, Now());
      NoneMoved(c, Now().lists, file, Gen(c, MinSeq(Now(), file)));
      if !file && !canSwap {
        GivenUpOk(c, Now());
        inverted := inverted || !Empty(folios, false, Gen(c, minAnon));
        minAnon := minAnon + 1;
        return true;
      }
      var remaining := c.batch;
      var zone := 0;
      var gen := Gen(c, if file then minFile else minAnon);
      while zone < c.zones
        invariant zone <= c.zones && Ok(c, Now()) && 0 < remaining <= c.batch
        invariant Now() == old(Now()).(lists := Now().lists, books := Now().books)
        invariant forall z: nat :: z < zone ==> EmptyIn(folios, file, gen, z)
        invariant OldCount(c, Now(), file) + c.batch == old(OldCount(c, Now(), file)) + remaining
        invariant OldCount(c, Now(), !file) == old(OldCount(c, Now(), !file))
        invariant OnlyMoved(c, old(Now()).lists, Now().lists, file, gen)
      {
        ghost var l := Now().lists;
        remaining := DrainZone(file, gen, zone, remaining);
        MovedTwice(c, old(Now()).lists, l, Now().lists, file, gen);
        if remaining == 0 {
          return false;
        }
        zone := zone + 1;
      }
      OkParts(c, Now());
      EmptyZones(c, Now().lists, file, gen);
      EmptyOne(c, Now().lists, file, MinSeq(Now(), file));
      RaisedOk(c, Now(), file, MinSeq(Now(), file) + 1);
      ghost var before := Now();
      if file {
        minFile := minFile + 1;
      } else {
        minAnon := minAnon + 1;
      }
      SameOldCount(c, before, Now(), !file);
      return true;
    }

    /** The oldest generation of the type that is populated, short of the youngest minGens. */
    method OldestPopulated(file: bool) returns (low: nat)
      requires Ok(c, Now())
      ensures 0 < c.maxGens && low == FirstKept(c, Now().lists, file, MinSeq(Now(), file), maxSeq)
    {
      hide Ok, Filed, Gen, EmptyUpTo;
      OkParts(c, Now());
      low := if file then minFile else minAnon;
      while low + c.minGens <= maxSeq
        invariant FirstKept(c, Now().lists, file, MinSeq(Now(), file), maxSeq) ==
              FirstKept(c, Now().lists, file, low, maxSeq)
        decreases maxSeq - low
      {
        var gen := Gen(c, low);
        var zone := 0;
        while zone < c.zones
          invariant zone <= c.zones && forall z: nat :: z < zone ==> EmptyIn(folios, file, gen, z)
        {
          if !EmptyIn(folios, file, gen, zone) {
            return;
          }
          zone := zone + 1;
        }
        EmptyZones(c, Now().lists, file, gen);
        low := low + 1;
      }
    }

    method TryToIncMinSeq(canSwap: bool) returns (success: bool)
      requires Ok(c, Now())
      modifies this`minAnon, this`minFile
      ensures Ok(c, Now()) && 0 < c.maxGens && Now() == Trimmed(c, old(Now()), canSwap)
      ensures success <==> Now() != old(Now())
    {
      hide Ok, FirstKept;
      TrimmedOk(c, Now(), canSwap);
      success := false;
      var anon := minAnon;
      if canSwap {
        anon := OldestPopulated(false);
      }
      var file := OldestPopulated(true);
      if canSwap {
        anon := Min(anon, file);
        file := Max(anon, minFile);
      }
      if canSwap && anon != minAnon {
        minAnon := anon;
        success := true;
      }
      if file != minFile {
        minFile := file;
        success := true;
      }
    }

    // ----- opening the next generation -----

    /** Others have held the lock meanwhile. */
    method Yield(after: State)
      modifies this
      ensures Now() == after
    {
      maxSeq, minAnon, minFile, inverted := after.maxSeq, after.minAnon, after.minFile, after.inverted;
      YieldLists(after.lists);
      YieldBooks(after.books);
    }

    method YieldLists(l: Places)
      modifies this`folios, this`flags, this`age, this`mark
      ensures Now() == old(Now()).(lists := l)
    {
      folios, flags, age, mark := l.folios, l.flags, l.age, l.mark;
    }

    method YieldBooks(b: Books)
      modifies this`nrPages, this`walkPages, this`active, this`inactive
      ensures Now() == old(Now()).(books := b)
    {
      nrPages, walkPages, active, inactive := b.nr, b.walk, b.active, b.inactive;
    }

    /** The first n list sizes have been moved on to the window of maxSeq + 1. */
    ghost predicate HalfShifted(n: nat)
      reads this
    {
      0 < c.maxGens && 1 <= maxSeq
      && forall v: Slot :: v.zone < c.zones ==> SlotSized(c, Now().books,
            if Rank(c, v) < n then maxSeq + 1 else maxSeq, v)
    }

    method ShiftZones(file: bool)
      requires 3 <= c.maxGens && HalfShifted(if file then c.zones else 0)
      modifies this`active, this`inactive
      ensures HalfShifted(if file then c.zones + c.zones else c.zones)
    {
      hide Gen, AllGens, SlotSized;
      ghost var first := if file then c.zones else 0;
      var zone := 0;
      while zone < c.zones
        invariant zone <= c.zones && HalfShifted(first + zone)
      {
        var v := Slot(file, zone);
        ghost var was := Now().books;
        ShiftSizes(c, was, maxSeq, v);
        ShiftOne(v);
        forall u: Slot | u.zone < c.zones && u != v
          ensures Rank(c, u) < first + zone <==> Rank(c, u) < first + zone + 1
        {
        }
        forall u: Slot | u.zone < c.zones && u != v {
          SlotOnly(c, was, Now().books, if Rank(c, u) < first + zone then maxSeq + 1 else maxSeq, u);
        }
        zone := zone + 1;
      }
    }

    method ShiftOne(v: Slot)
      requires 0 < c.maxGens && 1 <= maxSeq
      modifies this`active, this`inactive
      ensures Now() == old(Now()).(books := ShiftedAt(c, old(Now()).books, maxSeq, v))
    {
      hide Gen;
      var prev := Gen(c, maxSeq - 1);
      var next := Gen(c, maxSeq + 1);
      var delta := At(nrPages, Key(prev, v.file, v.zone)) - At(nrPages, Key(next, v.file, v.zone));
      if delta == 0 {
        return;
      }
      inactive := inactive[v := At(inactive, v) + delta];
      active := active[v := At(active, v) - delta];
    }

    /** Gives up the oldest generation of every type that fills the window, or moves one batch towards that. */
    method MakeRoom(canSwap: bool) returns (done: bool)
      requires Ok(c, Now()) && 0 < c.maxGens
      modifies this`minAnon, this`minFile, this`folios, this`flags, this`nrPages, this`active, this`inactive
      modifies this`inverted, this`age, this`mark
      ensures Ok(c, Now()) && Refiled(c, old(Now()), Now()) && (!done ==> Settling(c, old(Now()), Now()))
      ensures done ==> inverted == old(Inverting(c, Now(), canSwap))
      ensures done ==> NrGens(Now(), true) < c.maxGens && NrGens(Now(), false) < c.maxGens
      ensures done ==> minFile == old(minFile) + (if NrGens(old(Now()), true) == c.maxGens then 1 else 0)
      ensures done ==> minAnon == old(minAnon) + (if NrGens(old(Now()), false) == c.maxGens then 1 else 0)
      ensures !done ==> Backlog(c, Now()) < old(Backlog(c, Now()))
    {
      hide Ok, Filed, Gen, Accounted, Sized, WalkBalanced, Windowed, OldCount, Empty, OnlyMoved, Refiled;
      OkParts(c, Now());
      ghost var s := Now();
      NobodySettling(c, s);
      NoneOld(c, s, false);
      done := true;
      if maxSeq - minFile + 1 == c.maxGens {
        done := IncMinSeq(true, canSwap);
        RefiledByMoves(c, s, Now(), true);
        NoneOld(c, Now(), false);
      }
      if done && maxSeq - minAnon + 1 == c.maxGens {
        ghost var m := Now();
        done := IncMinSeq(false, canSwap);
        RefiledByMoves(c, m, Now(), false);
        RefiledTwice(c, s, m, Now());
      }
    }

    /** inc_max_seq: makes room in the window, moving folios batch by batch and letting others in between batches, then
        opens the next generation. `at`: the state when the lock was last taken. */
    method IncMaxSeq(canSwap: bool, turns: seq<State>) returns (rest: seq<State>, ghost at: State)
      requires Ok(c, Now()) && forall i :: 0 <= i < |turns| ==> Ok(c, turns[i])
      modifies this
      ensures Ok(c, at) && Reached(c, turns, old(Now()), at) && |rest| <= |turns| && rest == turns[|turns| - |rest|..]
      ensures Ok(c, Now()) && 0 < c.maxGens && maxSeq == at.maxSeq + 1
      ensures Refiled(c, at, Now()) && walkPages == at.books.walk && inverted == Inverting(c, at, canSwap)
      ensures minFile == at.minFile + (if NrGens(at, true) == c.maxGens then 1 else 0)
      ensures minAnon == at.minAnon + (if NrGens(at, false) == c.maxGens then 1 else 0)
      ensures Empty(folios, true, Gen(c, maxSeq)) && (!inverted ==> Empty(folios, false, Gen(c, maxSeq)))
      ensures turns == [] ==> maxSeq == old(maxSeq) + 1 && (canSwap ==> inverted == old(inverted))
    {
      hide Ok, Gen, Backlog, Empty, Reached, Roomier, Refiled, Filed;
      OkParts(c, Now());
      ReachedStart(c, turns, Now());
      forall i | 0 <= i < |turns| ensures Filed(c, turns[i].lists) {
        OkParts(c, turns[i]);
      }
      rest := turns;
      while true
        invariant 0 < c.maxGens && Ok(c, Now()) && forall i :: 0 <= i < |rest| ==> Ok(c, rest[i])
        invariant Reached(c, turns, old(Now()), Now()) && |rest| <= |turns| && rest == turns[|turns| - |rest|..]
        invariant turns == [] ==> rest == [] && maxSeq == old(maxSeq) && (canSwap ==> inverted == old(inverted))
        decreases |rest|, Backlog(c, Now())
      {
        at := Now();
        var done := MakeRoom(canSwap);
        if done {
          break;
        }
        ReachedOn(c, turns, old(Now()), at, Now());
        if rest != [] {
          ReachedTurn(c, turns, old(Now()), |turns| - |rest|);
          Yield(rest[0]);
          rest := rest[1..];
        }
      }
      ghost var roomy := Now();
      Open();
      RefiledAs(c, at, roomy, Now());
    }

    method Open()
      requires Ok(c, Now()) && NrGens(Now(), true) < c.maxGens && NrGens(Now(), false) < c.maxGens
      modifies this`maxSeq, this`active, this`inactive
      ensures Ok(c, Now()) && 0 < c.maxGens && maxSeq == old(maxSeq) + 1 && Now().lists == old(Now()).lists
      ensures Empty(folios, true, Gen(c, maxSeq)) && (!inverted ==> Empty(folios, false, Gen(c, maxSeq)))
    {
      hide Ok, Gen, SlotSized;
      OkParts(c, Now());
      ghost var before := Now();
      StartShift();
      ShiftZones(false);
      ShiftZones(true);
      OpenedOk(c, before, Now().books);
      maxSeq := maxSeq + 1;
    }

    lemma StartShift()
      requires Ok(c, Now())
      ensures HalfShifted(0)
    {
      hide Gen, SlotSized;
    }
  }
}
