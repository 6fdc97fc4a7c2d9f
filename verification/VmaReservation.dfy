/** One page's reservation as the page-fault path sees it, over a reserve map whose entries mean opposite things
    for shared and for private mappings. */
module VmaReservation {
  import opened Options
  import opened Regions
  import opened ReserveScan
  import opened ResvMaps
  import opened Sums

  datatype Mode = Needs | Commit | End | Add | Del

  ghost predicate Held(rs: seq<Region>, x: int) {
    Lookup(rs, x) != None
  }

  /** A reservation exists for page x: an entry says so in a shared mapping, denies it in a private one. */
  ghost predicate Reserved(shared: bool, rs: seq<Region>, x: int) {
    shared <==> Held(rs, x)
  }

  datatype Effect = Keeps | Fills | Removes

  function EffectOf(mode: Mode, shared: bool): Effect {
    match mode
    case Needs => Keeps
    case End => Keeps
    case Commit => Fills
    case Add => if shared then Fills else Removes
    case Del => if shared then Removes else Fills
  }

  ghost predicate Changed(effect: Effect, was: seq<Region>, now: seq<Region>, x: int) {
    match effect
    case Keeps => now == was
    case Fills => Extended(was, now, x, x + 1, 0)
    case Removes => Removed(was, now, x, x + 1)
  }

  lemma OnePageCount(rs: seq<Region>, x: int)
    ensures |Missing(rs, x, x + 1)| == if Held(rs, x) then 0 else 1
    ensures |Present(rs, x, x + 1)| == if Held(rs, x) then 1 else 0
  {
    hide Lookup;
    assert Missing(rs, x, x + 1) == if Held(rs, x) then {} else {x};
    assert Present(rs, x, x + 1) == if Held(rs, x) then {x} else {};
  }

  /** The others leave this while the lock is dropped between a region_abort and the region_del that follows it. */
  ghost predicate Keeping(between: Option<State>, id: nat) {
    between.Some? ==> Ok(between.value) && Holds(between.value, id, 0)
  }

  /** __vma_reservation_common; `at` is the list when the lock was last taken. Needs begins an addition, all others end
      the one that it began; only a removal can fail, and only if others have taken the descriptor it gave up. */
  method Common(resv: ResvMap?, shared: bool, x: int, mode: Mode, turns: seq<Turn>, between: Option<State>,
      ghost id: nat)
    returns (ret: int, rest: seq<Turn>, ghost at: seq<Region>)
    requires resv != null ==> Ok(resv.Now()) && Holds(resv.Now(), id, if mode == Needs then 0 else 1) &&
                              Fair(turns, id, 0)
    requires Keeping(between, id)
    modifies resv
    ensures resv == null ==> ret == 1
    ensures resv != null ==> Ok(resv.Now())
    ensures resv != null && mode == Needs ==>
              var a := Allocation(old(resv.Now()), 1, turns);
              (ret >= 0 <==> a.ok) && rest == a.rest && resv.Now() == if a.ok then Issue(a.s, id, 1) else a.s
    ensures resv != null && mode == Needs ==> Fair(rest, id, 0) && Left(turns, old(resv.regions), resv.regions)
    ensures resv != null ==> Holds(resv.Now(), id, if mode == Needs && ret >= 0 then 1 else 0)
    ensures resv != null && mode == Needs ==> ret < 0 || ret == if Reserved(shared, old(resv.regions), x) then 0 else 1
    ensures resv != null && mode != Needs && (between.None? || EffectOf(mode, shared) != Removes) ==>
              ret >= 0 && at == old(resv.regions) && resv.tickets == old(resv.tickets) - {id} &&
                  resv.adds == old(resv.adds) - 1
    ensures resv != null && mode != Needs && EffectOf(mode, shared) == Removes ==>
              old(id in resv.tickets) && Removal(old(resv.Now()), x, turns, between, id).ok == (ret >= 0)
              && at == Removal(old(resv.Now()), x, turns, between, id).s.regions
    ensures resv != null && mode != Needs && ret >= 0 ==> Changed(EffectOf(mode, shared), at, resv.regions, x)
    ensures resv != null && mode != Needs && ret < 0 ==> resv.regions == at && Held(at, x)
    ensures resv != null && mode == Commit ==> ret == if Reserved(shared, at, x) then 0 else 1
    ensures resv != null && mode == End ==> ret == if shared then 0 else 1
    ensures resv != null && mode == Add ==> ret < 0 || ret == if Held(at, x) then 0 else 1
    ensures resv != null && mode == Del ==> ret < 0 || ret == if shared == Held(at, x) then 1 else 0
  {
    hide Held, Extended, Removed, Sorted, Fair, Missing, Present, GapStarts, Across, Keeping, Allocation, Left, Removal;
    rest := turns;
    if resv == null {
      return 1, rest, [];
    }
    at := resv.regions;
    OnePageCount(resv.regions, x);
    match mode {
    case Needs =>
      var needed;
      OnePage(resv.regions, x, x + 1);
      ret, needed, rest := resv.RegionChg(x, x + 1, turns, id);
      assert needed == 1;
    case Commit =>
      ret := AddPage(resv, x, id);
    case End =>
      resv.RegionAbort(1, id);
      ret := 0;
    case Add =>
      if shared {
        ret := AddPage(resv, x, id);
      } else {
        ret, rest, at := RemovePage(resv, x, turns, between, id);
      }
    case Del =>
      if shared {
        ret, rest, at := RemovePage(resv, x, turns, between, id);
      } else {
        ret := AddPage(resv, x, id);
      }
    }
    if shared || mode == Del {
      return;
    }
    if ret > 0 {
      ret := 0;
    } else if ret == 0 {
      ret := 1;
    }
  }

  /** region_del of one page, after region_abort and what others may leave in between. */
  ghost function Removal(s: State, x: int, turns: seq<Turn>, between: Option<State>, id: nat): Alloc
    requires id in s.tickets
  {
    DelAttempt(if between.Some? then between.value else Redeem(s, id, 0), x, x + 1, turns)
  }

  /** A one-page region_add: it never allocates and never fails. */
  method AddPage(resv: ResvMap, x: int, ghost id: nat) returns (ret: int)
    requires Ok(resv.Now()) && Holds(resv.Now(), id, 1)
    modifies resv
    ensures Ok(resv.Now()) && resv.tickets == old(resv.tickets) - {id} && resv.adds == old(resv.adds) - 1
    ensures Extended(old(resv.regions), resv.regions, x, x + 1, 0)
    ensures ret == if Held(old(resv.regions), x) then 0 else 1
  {
    hide Held, Extended, Sorted, Missing, Present, GapStarts;
    OnePageCount(resv.regions, x);
    var rest;
    ghost var at;
    ret, rest, at := resv.RegionAdd(x, x + 1, 1, 0, [], id);
    assert !(ret < 0);
  }

  /** region_abort, then a one-page region_del: the descriptor given up pays for a split, unless others come between. */
  method RemovePage(resv: ResvMap, x: int, turns: seq<Turn>, between: Option<State>, ghost id: nat)
    returns (ret: int, rest: seq<Turn>, ghost at: seq<Region>)
    requires Ok(resv.Now()) && Holds(resv.Now(), id, 1) && Fair(turns, id, 0) && Keeping(between, id)
    modifies resv
    ensures Ok(resv.Now()) && Holds(resv.Now(), id, 0)
    ensures Removal(old(resv.Now()), x, turns, between, id).ok == (ret >= 0)
    ensures at == Removal(old(resv.Now()), x, turns, between, id).s.regions
    ensures ret >= 0 ==> Removed(at, resv.regions, x, x + 1) && ret == if Held(at, x) then 1 else 0
    ensures ret < 0 ==> resv.regions == at && Held(at, x)
    ensures between.None? ==> ret >= 0 && at == old(resv.regions)
                              && resv.tickets == old(resv.tickets) - {id} && resv.adds == old(resv.adds) - 1
  {
    hide Held, Removed, Sorted, Fair, Missing, Present, Across, Left;
    TicketBacked(resv.Now(), id);
    resv.RegionAbort(1, id);
    if between.Some? {
      resv.Yield(between.value);
    }
    ghost var was;
    ret, rest, was := resv.RegionDel(x, x + 1, turns, id, 0);
    at := was.regions;
    OnePageCount(at, x);
    if ret < 0 {
      AcrossHeld(at, x);
    }
  }

  lemma AcrossHeld(rs: seq<Region>, x: int)
    requires Sorted(rs) && Across(rs, x, x + 1)
    ensures Held(rs, x)
  {
    hide Sorted, Lookup;
    var i :| 0 <= i < |rs| && rs[i].from < x && x + 1 < rs[i].to;
    LookupExact(rs, x, i);
  }

  // ----- undoing a fault that failed -----

  /** When the page's restore flag and the map end up in agreement, for a page whose entry is in the map: it depends on
      the descriptors of the map, on memory, and on what others do. */
  ghost predicate Agrees(s: State, x: int, shared: bool, flag: bool, turns: seq<Turn>, between: Option<State>) {
    var a := Allocation(s, 1, turns);
    if !a.ok then flag && !shared
    else shared || !flag || DelAttempt(if between.Some? then between.value else a.s, x, x + 1, a.rest).ok
  }

  /** The others leave the entry of page x alone. */
  ghost predicate KeepHeld(turns: seq<Turn>, x: int) {
    forall i :: 0 <= i < |turns| && turns[i].Granted? ==> Held(turns[i].after.regions, x)
  }

  lemma LeftHeld(turns: seq<Turn>, was: seq<Region>, now: seq<Region>, x: int)
    requires KeepHeld(turns, x) && Held(was, x) && Left(turns, was, now)
    ensures Held(now, x)
  {
  }

  lemma IssuedAndGivenUp(s: State, id: nat)
    requires Holds(s, id, 0)
    ensures Redeem(Issue(s, id, 1), id, 0) == s
  {
  }

  /** restore_reserve_on_error for a page whose entry is in the map, as vma_commit_reservation leaves it; `flag` is the
      page's restore flag: the global reserve gets a page back when it is freed. */
  method RestoreReserveOnError(resv: ResvMap, shared: bool, x: int, flag: bool, turns: seq<Turn>,
      between: Option<State>, ghost id: nat)
    returns (flagAfter: bool, ghost at: seq<Region>)
    requires Ok(resv.Now()) && Holds(resv.Now(), id, 0) && Fair(turns, id, 0) && Keeping(between, id)
    requires Held(resv.regions, x) && KeepHeld(turns, x)
    modifies resv
    ensures Ok(resv.Now()) && Holds(resv.Now(), id, 0)
    ensures (flagAfter <==> Reserved(shared, resv.regions, x)) <==> Agrees(old(resv.Now()), x, shared, flag, turns,
          between)
    ensures Agrees(old(resv.Now()), x, shared, flag, turns, between) && flagAfter == flag ==>
              Changed(if shared == flag then Keeps else Removes, at, resv.regions, x)
    ensures turns == [] && between.None? ==>
              flagAfter == flag && Agrees(old(resv.Now()), x, shared, flag, turns, between)
              && at == old(resv.regions) && resv.adds == old(resv.adds) && resv.tickets == old(resv.tickets)
  {
    hide Sorted, Fair, Left, Allocation, Across, KeepHeld;
    ghost var s := resv.Now();
    flagAfter := flag;
    var rc, rest, ret;
    rc, rest, at := Common(resv, shared, x, Needs, turns, None, id);
    at := resv.regions;
    LeftHeld(turns, s.regions, at, x);
    if rc >= 0 {
      AllocationFair(s, 1, turns, id, 0);
      IssuedAndGivenUp(Allocation(s, 1, turns).s, id);
    }
    if flag {
      if rc < 0 {
        flagAfter := false;
      } else if rc != 0 {
        ret, rest, at := Common(resv, shared, x, Add, rest, between, id);
      } else {
        ret, rest, at := Common(resv, shared, x, End, rest, between, id);
      }
    } else {
      if rc == 0 {
        ret, rest, at := Common(resv, shared, x, Del, rest, between, id);
        if ret < 0 {
          flagAfter := true;
        }
      } else if rc < 0 {
        if !shared {
          flagAfter := true;
        }
      } else {
        ret, rest, at := Common(resv, shared, x, End, rest, between, id);
      }
    }
  }

  /** As long as nobody comes between abort and delete, whatever memory and the others do: exactly with a spare
      descriptor in the map, or for a page that took a reservation of a private mapping. */
  lemma SpareDecides(s: State, x: int, shared: bool, flag: bool, id: nat)
    requires Ok(s) && Holds(s, id, 0) && Held(s.regions, x)
    ensures (forall turns :: Fair(turns, id, 0) && KeepHeld(turns, x) ==> Agrees(s, x, shared, flag, turns, None))
       <==> s.adds < s.cache || (flag && !shared)
  {
    hide Held, Sorted, Across, Allocation;
    if !(s.adds < s.cache || (flag && !shared)) {
      assert Fair([Refused], id, 0) && KeepHeld([Refused], x);
      assert !Agrees(s, x, shared, flag, [Refused], None);
    }
  }

  /** If others may come between, a private mapping's page with the flag set is never safe. */
  lemma SpareDecidesBetween(s: State, x: int, shared: bool, flag: bool, id: nat)
    requires Ok(s) && Holds(s, id, 0) && Held(s.regions, x)
    ensures (forall turns, between :: Fair(turns, id, 0) && KeepHeld(turns, x) && Keeping(between, id) ==>
                                        Agrees(s, x, shared, flag, turns, between))
       <==> s.adds < s.cache && !(flag && !shared)
  {
    hide Held, Sorted, Allocation;
    if flag && !shared {
      var taken := State([Region(x - 1, x + 2, 0)], 0, 0, map[]);
      TakenOk(x);
      assert taken.regions[0].from < x && x + 1 < taken.regions[0].to && Across(taken.regions, x, x + 1);
      var turns := if s.adds < s.cache then [Refused] else [Granted(s), Refused];
      assert Fair(turns, id, 0) && KeepHeld(turns, x) && Keeping(Some(taken), id);
      assert Allocation(s, 1, turns).ok && Allocation(s, 1, turns).rest == [Refused] by {
        GrantedThenRefused(s, turns);
      }
      assert !Agrees(s, x, shared, flag, turns, Some(taken));
    } else if s.adds == s.cache {
      assert Fair([Refused], id, 0) && KeepHeld([Refused], x) && Keeping(None, id);
      assert !Agrees(s, x, shared, flag, [Refused], None);
    }
  }

  lemma TakenOk(x: int)
    ensures Ok(State([Region(x - 1, x + 2, 0)], 0, 0, map[]))
  {
  }

  lemma GrantedThenRefused(s: State, turns: seq<Turn>)
    requires s.adds <= s.cache && turns == if s.adds < s.cache then [Refused] else [Granted(s), Refused]
    ensures Allocation(s, 1, turns).ok && Allocation(s, 1, turns).rest == [Refused]
  {
    assert [Granted(s), Refused][1..] == [Refused];
  }

  /** A failing case: a shared mapping, the flag clear, the one descriptor promised, and no memory. */
  lemma WithoutSpare()
    ensures var s := State([Region(0, 1, 0)], 1, 1, map[5 := 1]);
            Ok(s) && Held(s.regions, 0) && !Agrees(s, 0, true, false, [Refused], None)
  {
    assert Sum(map[5 := 1]) == 1 by {
      SumInsert(map[], 5, 1);
    }
  }

  /** A fault that reserves, commits and then backs out, with memory to spare and nobody interfering. */
  method CommitAndRestore(resv: ResvMap, shared: bool, x: int, flag: bool, ghost id: nat) returns (needs: int)
    requires Ok(resv.Now()) && Apart(resv.regions) && Holds(resv.Now(), id, 0)
    modifies resv
    ensures needs == if Reserved(shared, old(resv.regions), x) then 0 else 1
    ensures resv.adds == old(resv.adds) && resv.tickets == old(resv.tickets)
    ensures resv.regions == old(resv.regions) <==> flag == (needs == 0)
  {
    hide Sorted, Apart, Extended, Removed;
    var rest, mapCommit, after;
    ghost var at;
    needs, rest, at := Common(resv, shared, x, Needs, [], None, id);
    mapCommit, rest, at := Common(resv, shared, x, Commit, [], None, id);
    assert mapCommit == needs;
    ghost var committed := resv.regions;
    FillOne(old(resv.regions), committed, x);
    after, at := RestoreReserveOnError(resv, shared, x, flag, [], None, id);
    if shared != flag {
      RemoveOne(old(resv.regions), committed, resv.regions, x);
    }
  }

  lemma FillOne(was: seq<Region>, now: seq<Region>, x: int)
    requires Sorted(was) && Apart(was) && Extended(was, now, x, x + 1, 0)
    ensures Held(now, x) && Sorted(now) && Apart(now) && (now == was <==> Held(was, x))
  {
    hide Lookup, Sorted, Apart;
    if Held(was, x) {
      Canonical(was, now);
    }
  }

  /** Taking a page out restores the list exactly if the page was not in it to begin with. */
  lemma RemoveOne(was: seq<Region>, full: seq<Region>, now: seq<Region>, x: int)
    requires Sorted(was) && Apart(was) && Sorted(full) && Apart(full)
    requires Extended(was, full, x, x + 1, 0) && Removed(full, now, x, x + 1)
    ensures now == was <==> !Held(was, x)
  {
    hide Lookup, Sorted, Apart;
    if !Held(was, x) {
      Canonical(was, now);
    }
  }
}
