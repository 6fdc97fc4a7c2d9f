/** When to notify the other side: 16-bit index arithmetic against counters that never wrap. */
module EventIdx {
  import opened Modular
  import opened PackedMemory

  const WORD := 0x1_0000

  function Word(x: int): nat {
    x % WORD
  }

  /** Has the index moved past `event` on its way from `before` to `after`? (section 2.7.10 of VIRTIO 1.2) */
  function NeedEvent(event: nat, after: nat, before: nat): bool {
    Word(after - event - 1) < Word(after - before)
  }

  /** The event position lies among the entries added between the two counter values. */
  ghost predicate InWindow(event: nat, K: nat, N: nat) {
    exists E: nat :: K <= E < N && Word(E) == event
  }

  lemma WordSub(x: int, y: int)
    ensures Word(Word(x) - y) == Word(x - y) && Word(x - Word(y)) == Word(x - y)
  {
    WordShift(x - y, -(x / WORD));
    WordShift(x - y, y / WORD);
  }

  lemma WordShift(x: int, k: int)
    ensures Word(x + WORD * k) == Word(x)
  {
  }

  /** How far back from N the nearest counter value with residue `event` is. */
  lemma StepsBack(event: nat, N: nat, E: int)
    requires event < WORD && E < N <= E + WORD
    ensures Word(E) == event <==> Word(N - event - 1) == N - 1 - E
  {
    WordSub(N - 1, E);
  }

  /** The test compares how far back the event is with how many entries are new. */
  lemma NeedsBack(event: nat, K: nat, N: nat)
    requires event < WORD && K <= N < K + WORD
    ensures NeedEvent(event, Word(N), Word(K)) <==> Word(N - event - 1) < N - K
    ensures Word(N - event - 1) < WORD
  {
    hide Word;
    WordSub(N, event + 1);
    WordSub(N, Word(K));
    WordSub(N, K);
    WordSmall(N - K);
    WordRange(N - event - 1);
    assert Word(N) - event - 1 == Word(N) - (event + 1);
  }

  lemma WordSmall(x: int)
    requires 0 <= x < WORD
    ensures Word(x) == x
  {
  }

  lemma WordRange(x: int)
    ensures 0 <= Word(x) < WORD
  {
  }

  /** With fewer than 2^16 entries added since the last kick, the test finds exactly the events among them. */
  lemma SplitKickExact(event: nat, K: nat, N: nat)
    requires event < WORD && K <= N < K + WORD
    ensures NeedEvent(event, Word(N), Word(K)) <==> InWindow(event, K, N)
  {
    hide Word, NeedEvent;
    var back := Word(N - event - 1);
    NeedsBack(event, K, N);
    StepsBack(event, N, N - 1 - back);
    if back < N - K {
      var E: nat := N - 1 - back;
      assert K <= E < N && Word(E) == event;
    }
    forall E: nat | K <= E < N && Word(E) == event ensures back < N - K { StepsBack(event, N, E); }
  }

  /** ... and it does so for every event only then. */
  lemma SplitKickLimit(K: nat, N: nat)
    requires K <= N
    ensures (forall event: nat :: event < WORD ==> (NeedEvent(event, Word(N), Word(K)) <==> InWindow(event, K, N)))
       <==> N - K < WORD
  {
    if N - K < WORD {
      forall event: nat | event < WORD ensures NeedEvent(event, Word(N), Word(K)) <==> InWindow(event, K, N) {
        SplitKickExact(event, K, N);
      }
    } else {
      var event := Word(N);
      assert !NeedEvent(event, Word(N), Word(K));
      assert Word(N - WORD) == event;
      assert InWindow(event, K, N);
    }
  }

  // ----- the windows of successive decisions -----

  /** The positions from..to-1 that one decision was about. */
  datatype Window = Window(from: nat, to: nat)

  /** The windows follow each other without gap or overlap, from 0 to `upto`. */
  ghost predicate Tiles(ws: seq<Window>, upto: nat) {
    && (if ws == [] then upto == 0 else ws[0].from == 0 && ws[|ws| - 1].to == upto)
    && (forall i :: 0 <= i < |ws| ==> ws[i].from <= ws[i].to)
    && (forall i, j :: 0 <= i < j < |ws| && j == i + 1 ==> ws[i].to == ws[j].from)
  }

  lemma NoWindows()
    ensures Tiles([], 0)
  {
  }

  lemma TilesNext(ws: seq<Window>, upto: nat, to: nat)
    requires Tiles(ws, upto) && upto <= to
    ensures Tiles(ws + [Window(upto, to)], to)
  {
  }

  ghost predicate InWindowAt(ws: seq<Window>, i: int, p: nat) {
    0 <= i < |ws| && ws[i].from <= p < ws[i].to
  }

  /** Every position added before the last decision was in the window of one decision, and of one only. */
  lemma {:induction false} InOneWindow(ws: seq<Window>, upto: nat, p: nat) returns (i: nat)
    requires Tiles(ws, upto) && p < upto
    ensures forall j :: InWindowAt(ws, j, p) <==> j == i
  {
    var last := |ws| - 1;
    if ws[last].from <= p {
      i := last;
      forall j | 0 <= j < last ensures ws[j].to <= ws[last].from {
        EndsBefore(ws, upto, j, last);
      }
    } else {
      assert last > 0 && ws[..last][|ws[..last]| - 1] == ws[last - 1] && ws[last - 1].to == ws[last].from;
      i := InOneWindow(ws[..last], ws[last].from, p);
      assert forall j :: InWindowAt(ws, j, p) <==> InWindowAt(ws[..last], j, p);
    }
  }

  lemma {:induction false} EndsBefore(ws: seq<Window>, upto: nat, j: nat, k: nat)
    requires Tiles(ws, upto) && j < k < |ws|
    ensures ws[j].to <= ws[k].from
    decreases k - j
  {
    if j + 1 < k {
      EndsBefore(ws, upto, j, k - 1);
      assert ws[k - 1].to == ws[k].from;
    }
  }

  // ----- packed ring: the event is a slot and a wrap counter -----

  /** The device's event descriptor, rebased to the lap of the next available slot. */
  function PackedEvent(off: nat, wrap: bool, availWrap: bool, num: nat): nat {
    if wrap != availWrap then Word(off - num) else Word(off)
  }

  function PackedNeedsKick(off: nat, wrap: bool, nextAvail: nat, availWrap: bool, added: nat, num: nat): bool {
    NeedEvent(PackedEvent(off, wrap, availWrap, num), nextAvail, Word(nextAvail - added))
  }

  lemma PackedEventRebased(A: nat, E: nat, num: nat)
    requires 0 < num <= 0x8000 && A <= E + num && E <= A
    ensures PackedEvent(E % num, Even(E, num), Even(A, num), num) == Word(A % num - (A - E))
  {
    var q, a, t := A / num, A % num, A - E;
    assert A == num * q + a;
    if t <= a {
      DivUnique(E, num, q, a - t);
    } else {
      assert num * (q - 1) == num * q - num;
      Multiple(num, -q);
      assert q == 0 ==> num * q == 0;
      DivUnique(E, num, q - 1, a - t + num);
    }
  }

  ghost predicate PackedKickRight(A: nat, K: nat, E: nat, num: nat)
    requires num > 0 && K <= A
  {
    PackedNeedsKick(E % num, Even(E, num), A % num, Even(A, num), A - K, num) <==> K <= E < A
  }

  lemma NeedEventShifted(a: nat, t: int, m: int)
    ensures NeedEvent(Word(a - t), a, Word(a - m)) <==> Word(t - 1) < Word(m)
  {
    WordSub(a - 1, a - t);
    WordSub(a, a - m);
  }

  lemma PackedKickOne(A: nat, K: nat, E: nat, num: nat)
    requires 0 < num <= 0x8000 && K <= A && A <= E + num && E <= A
    ensures PackedKickRight(A, K, E, num) <==> (Word(A - E - 1) < Word(A - K) <==> K <= E < A)
  {
    PackedEventRebased(A, E, num);
    NeedEventShifted(A % num, A - E, A - K);
  }

  /** For every event position the device can mean, exactly while the count since the last kick has not overflowed
      or what is left of it still covers a whole ring. */
  lemma PackedKickExact(A: nat, K: nat, num: nat)
    requires 0 < num <= 0x8000 && K <= A
    ensures (forall E: nat :: A <= E + num && E <= A ==> PackedKickRight(A, K, E, num))
       <==> (A - K < WORD || num <= Word(A - K))
  {
    hide PackedKickRight;
    if A - K >= WORD && Word(A - K) < num {
      var E := PackedKickWrong(A, K, num);
    } else {
      forall E: nat | A <= E + num && E <= A ensures PackedKickRight(A, K, E, num) {
        PackedKickOne(A, K, E, num);
        StepsRight(A, K, E, num);
      }
    }
  }

  lemma StepsRight(A: nat, K: nat, E: nat, num: nat)
    requires 0 < num <= 0x8000 && K <= A && A <= E + num && E <= A && (A - K < WORD || num <= Word(A - K))
    ensures Word(A - E - 1) < Word(A - K) <==> K <= E < A
  {
  }

  /** An event position for which the overflowed count makes the decision wrong. */
  lemma PackedKickWrong(A: nat, K: nat, num: nat) returns (E: nat)
    requires 0 < num <= 0x8000 && K <= A && A - K >= WORD && Word(A - K) < num
    ensures A <= E + num && E <= A && !PackedKickRight(A, K, E, num)
  {
    hide PackedKickRight;
    E := A - 1 - Word(A - K);
    assert Word(A - E - 1) == Word(A - K);
    PackedKickOne(A, K, E, num);
  }

  /** With fewer than 2^16 descriptors added since the last kick the decision is right for every event position. */
  lemma PackedKickRightSoon(A: nat, K: nat, E: nat, num: nat)
    requires 0 < num <= 0x8000 && K <= A < K + WORD && A <= E + num && E <= A
    ensures PackedKickRight(A, K, E, num)
  {
    hide PackedKickRight;
    PackedKickOne(A, K, E, num);
  }
}
