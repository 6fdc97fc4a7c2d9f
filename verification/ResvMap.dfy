/** One reserve map: its region list, its cache of spare descriptors, and the additions in progress. */
module ResvMaps {
  import opened Numbers
  import opened Options
  import opened Regions
  import opened ReserveScan
  import opened Sums

  // ----- the books of a reserve map -----

  /** `tickets`: for each addition begun and not finished, the descriptors it was promised. */
  datatype State = State(regions: seq<Region>, cache: int, adds: int, tickets: map<nat, nat>)

  ghost predicate Ok(s: State) {
    && Sorted(s.regions)
    && s.adds == Sum(s.tickets) <= s.cache
    && (forall id :: id in s.tickets ==> 1 <= s.tickets[id])
  }

  ghost function Issue(s: State, id: nat, n: nat): State {
    s.(adds := s.adds + n, tickets := s.tickets[id := n])
  }

  ghost function Redeem(s: State, id: nat, used: nat): State
    requires id in s.tickets
  {
    s.(adds := s.adds - s.tickets[id], tickets := s.tickets - {id}, cache := s.cache - used)
  }

  lemma IssueOk(s: State, id: nat, n: nat)
    requires Ok(s) && id !in s.tickets && 1 <= n && s.adds + n <= s.cache
    ensures Ok(Issue(s, id, n))
  {
    hide Sorted;
    SumInsert(s.tickets, id, n);
  }

  /** A finished addition may take its own descriptors and any that nobody was promised. */
  lemma RedeemOk(s: State, id: nat, used: nat, rs: seq<Region>)
    requires Ok(s) && id in s.tickets && Sorted(rs) && used <= s.cache - (s.adds - s.tickets[id])
    ensures Ok(Redeem(s, id, used).(regions := rs))
  {
    hide Sorted;
    SumRemove(s.tickets, id);
  }

  lemma OkSorted(s: State)
    requires Ok(s)
    ensures Sorted(s.regions) && s.adds <= s.cache
  {
  }

  /** The books do not depend on what the regions are. */
  lemma OkEdited(s: State, t: State)
    requires Ok(s) && Sorted(t.regions) && s.adds <= t.cache && t == s.(regions := t.regions, cache := t.cache)
    ensures Ok(t)
  {
  }

  lemma TicketBacked(s: State, id: nat)
    requires Ok(s) && id in s.tickets
    ensures 1 <= s.tickets[id] <= s.adds <= s.cache
  {
    hide Sorted;
    SumRemove(s.tickets, id);
  }

  // ----- what may happen while the lock is dropped -----

  /** One allocation with the lock dropped: it succeeds and the others leave `after`, or it fails. */
  datatype Turn = Granted(after: State) | Refused

  /** The ticket `id` for n descriptors is outstanding; n == 0: there is none. */
  ghost predicate Holds(s: State, id: nat, n: nat) {
    if n == 0 then id !in s.tickets else id in s.tickets && s.tickets[id] == n
  }

  /** The others keep the books and leave our ticket alone. */
  ghost predicate Fair(turns: seq<Turn>, id: nat, n: nat) {
    forall i :: 0 <= i < |turns| && turns[i].Granted? ==> Ok(turns[i].after) && Holds(turns[i].after, id, n)
  }

  lemma FirstFair(turns: seq<Turn>, id: nat, n: nat)
    requires Fair(turns, id, n) && turns != []
    ensures Fair(turns[1..], id, n)
    ensures turns[0].Granted? ==> Ok(turns[0].after) && Holds(turns[0].after, id, n)
  {
  }

  /** The region list is as it was, or as the others left it in one of the turns. */
  ghost predicate Left(turns: seq<Turn>, was: seq<Region>, now: seq<Region>) {
    now == was || exists i :: 0 <= i < |turns| && turns[i].Granted? && now == turns[i].after.regions
  }

  lemma LeftNow(turns: seq<Turn>, rs: seq<Region>)
    ensures Left(turns, rs, rs)
  {
  }

  /** The outcome of waiting for memory: the map when the lock is next held, and the turns still to come. */
  datatype Alloc = Alloc(ok: bool, s: State, rest: seq<Turn>)

  /** allocate_file_region_entries: what others leave is taken as it is, and the descriptors allocated go on top. */
  ghost function Allocation(s: State, need: int, turns: seq<Turn>): (a: Alloc)
    ensures |a.rest| <= |turns| && (a.ok ==> a.s.adds + need <= a.s.cache)
    ensures |a.rest| == |turns| ==> a == Alloc(true, s.(cache := Max(s.cache, s.adds + need)), turns)
    ensures s.adds + need <= s.cache ==> a == Alloc(true, s, turns)
    ensures s.cache < s.adds + need && turns != [] && turns[0].Refused? ==> a == Alloc(false, s, turns[1..])
    decreases |turns|
  {
    if s.adds + need <= s.cache then Alloc(true, s, turns)
    else if turns == [] then Alloc(true, s.(cache := s.adds + need), turns)
    else if turns[0].Refused? then Alloc(false, s, turns[1..])
    else
      var after := turns[0].after;
      Allocation(after.(cache := after.cache + (s.adds + need - s.cache)), need, turns[1..])
  }

  lemma {:induction false} AllocationFair(s: State, need: int, turns: seq<Turn>, id: nat, n: nat)
    requires Ok(s) && Holds(s, id, n) && Fair(turns, id, n)
    ensures var a := Allocation(s, need, turns);
            Ok(a.s) && Holds(a.s, id, n) && Fair(a.rest, id, n) && Left(turns, s.regions, a.s.regions)
            && a.rest == turns[|turns| - |a.rest|..]
    decreases |turns|
  {
    hide Sorted;
    if s.cache < s.adds + need && turns != [] {
      FirstFair(turns, id, n);
      if turns[0].Granted? {
        var after := turns[0].after;
        var m := after.(cache := after.cache + (s.adds + need - s.cache));
        AllocationFair(m, need, turns[1..], id, n);
        LeftEarlier(turns, s.regions, Allocation(m, need, turns[1..]).s.regions);
      }
    }
  }

  ghost predicate Had(turns: seq<Turn>, n: int) {
    0 <= n <= |turns| && forall i :: 0 <= i < n ==> turns[i].Granted?
  }

  /** The map as the last of n others left it, or the start. */
  ghost function LastLeft(s: State, turns: seq<Turn>, n: int): State
    requires Had(turns, n)
  {
    if n == 0 then s else turns[n - 1].after
  }

  lemma HadMore(s: State, turns: seq<Turn>, k: nat, n: nat)
    requires Had(turns, k) && Had(turns[k..], n)
    ensures Had(turns, k + n)
    ensures LastLeft(s, turns, k + n) == LastLeft(LastLeft(s, turns, k), turns[k..], n)
  {
    forall i | 0 <= i < k + n ensures turns[i].Granted? {
      assert k <= i ==> turns[k..][i - k] == turns[i];
    }
  }

  /** Memory was had in each of the turns used up; or not in the last, and that is a failure. What is left is as the
      last of the others left it (or the start, if none came), with nothing but descriptors added. */
  ghost predicate Waited(s: State, turns: seq<Turn>, a: Alloc) {
    && |a.rest| <= |turns| && a.rest == turns[|turns| - |a.rest|..]
    && var n := |turns| - |a.rest| - if a.ok then 0 else 1;
    && LeftWith(s, turns, n, a.s) && (!a.ok ==> turns[n].Refused?)
  }

  ghost predicate LeftWith(s: State, turns: seq<Turn>, n: int, now: State)
    ensures LeftWith(s, turns, n, now) ==> 0 <= n <= |turns|
  {
    && Had(turns, n)
    && var last := LastLeft(s, turns, n);
    && now == last.(cache := now.cache) && last.cache <= now.cache
  }

  lemma NotWaited(s: State, turns: seq<Turn>, more: nat)
    ensures Waited(s, turns, Alloc(true, s.(cache := s.cache + more), turns))
  {
  }

  lemma RefusedAtOnce(s: State, turns: seq<Turn>)
    requires turns != [] && turns[0].Refused?
    ensures Waited(s, turns, Alloc(false, s, turns[1..]))
  {
  }

  lemma WaitedOnce(s: State, turns: seq<Turn>, more: nat)
    requires turns != [] && turns[0].Granted?
    ensures var after := turns[0].after; Waited(s, turns, Alloc(true, after.(cache := after.cache + more), turns[1..]))
  {
  }

  lemma WaitedTwice(s: State, turns: seq<Turn>, a: Alloc, b: Alloc)
    requires Waited(s, turns, a) && a.ok && Waited(a.s, a.rest, b)
    ensures Waited(s, turns, b)
  {
    hide LeftWith;
    var k := |turns| - |a.rest|;
    var n := |a.rest| - |b.rest| - if b.ok then 0 else 1;
    SuffixOn(turns, a.rest, b.rest);
    LeftWithMore(s, turns, k, a.s, n, b.s);
    if !b.ok {
      SuffixAt(turns, a.rest, n);
    }
  }

  lemma LeftWithMore(s: State, turns: seq<Turn>, k: nat, mid: State, n: nat, now: State)
    requires LeftWith(s, turns, k, mid) && LeftWith(mid, turns[k..], n, now)
    ensures LeftWith(s, turns, k + n, now)
  {
    hide Had, LastLeft;
    HadMore(s, turns, k, n);
    LeftAlike(LastLeft(s, turns, k), mid, turns[k..], n);
  }

  /** Starting with more descriptors makes no other difference. */
  lemma LeftAlike(s: State, t: State, turns: seq<Turn>, n: nat)
    requires Had(turns, n) && t == s.(cache := t.cache) && s.cache <= t.cache
    ensures var x, y := LastLeft(s, turns, n), LastLeft(t, turns, n); y == x.(cache := y.cache) && x.cache <= y.cache
  {
  }

  /** Nothing is asked for while the cache suffices; otherwise there is a turn to wait for, if others come at all. */
  lemma {:induction false} AllocationMeans(s: State, need: int, turns: seq<Turn>)
    ensures var a := Allocation(s, need, turns);
            && Waited(s, turns, a) && (a.ok <==> a.s.adds + need <= a.s.cache)
            && (|a.rest| == |turns| <==> s.adds + need <= s.cache || turns == [])
            && (|a.rest| == |turns| ==> a.s.cache == Max(s.cache, s.adds + need))
            && (|a.rest| == |turns| - 1 && a.ok ==>
                  var after := turns[0].after;
                  a.s.cache == Max(after.cache + (s.adds + need - s.cache), after.adds + need))
    decreases |turns|
  {
    hide Waited;
    if s.adds + need <= s.cache {
      NotWaited(s, turns, 0);
    } else if turns == [] {
      NotWaited(s, turns, s.adds + need - s.cache);
    } else if turns[0].Refused? {
      RefusedAtOnce(s, turns);
    } else {
      var after, more := turns[0].after, s.adds + need - s.cache;
      var m := after.(cache := after.cache + more);
      AllocationMeans(m, need, turns[1..]);
      GrantedFirst(s, turns, more, Allocation(m, need, turns[1..]));
    }
  }

  lemma GrantedFirst(s: State, turns: seq<Turn>, more: nat, a: Alloc)
    requires turns != [] && turns[0].Granted?
    requires var after := turns[0].after; Waited(after.(cache := after.cache + more), turns[1..], a)
    ensures Waited(s, turns, a) && |a.rest| < |turns|
  {
    hide Waited;
    var m := turns[0].after.(cache := turns[0].after.cache + more);
    WaitedOnce(s, turns, more);
    WaitedTwice(s, turns, Alloc(true, m, turns[1..]), a);
    WaitedFits(m, turns[1..], a);
  }

  lemma WaitedFits(s: State, turns: seq<Turn>, a: Alloc)
    requires Waited(s, turns, a)
    ensures |a.rest| <= |turns| && (|a.rest| == |turns| ==> a.ok)
  {
  }

  lemma SuffixAt<T>(a: seq<T>, b: seq<T>, i: nat)
    requires |b| <= |a| && b == a[|a| - |b|..] && i < |b|
    ensures b[i] == a[|a| - |b| + i]
  {
  }

  /** What is left from the first turn on is left from the start on. */
  lemma LeftEarlier(turns: seq<Turn>, was: seq<Region>, now: seq<Region>)
    requires turns != [] && turns[0].Granted? && Left(turns[1..], turns[0].after.regions, now)
    ensures Left(turns, was, now)
  {
    if now != turns[0].after.regions {
      var i :| 0 <= i < |turns[1..]| && turns[1..][i].Granted? && now == turns[1..][i].after.regions;
      assert turns[i + 1].Granted? && now == turns[i + 1].after.regions;
    }
  }

  lemma LeftOn(turns: seq<Turn>, k: nat, a: seq<Region>, b: seq<Region>, d: seq<Region>)
    requires k <= |turns| && Left(turns, a, b) && Left(turns[k..], b, d)
    ensures Left(turns, a, d)
  {
    if d != b {
      var i :| 0 <= i < |turns[k..]| && turns[k..][i].Granted? && d == turns[k..][i].after.regions;
      assert turns[i + k].Granted? && d == turns[i + k].after.regions;
    }
  }

  lemma SuffixOn<T>(a: seq<T>, b: seq<T>, d: seq<T>)
    requires |d| <= |b| <= |a| && b == a[|a| - |b|..] && d == b[|b| - |d|..]
    ensures d == a[|a| - |d|..]
  {
  }

  const ENOMEM := 12

  /** The cache cannot take an addition that needs more than it was promised. */
  ghost predicate Short(s: State, f: int, t: int, inNeeded: nat) {
    inNeeded < |GapStarts(s.regions, f, t)| && s.cache < s.adds + (|GapStarts(s.regions, f, t)| - inNeeded)
  }

  /** region_add: the map that the pages are finally added to, or that is left when memory is short. */
  ghost function AddAttempt(s: State, f: int, t: int, inNeeded: nat, turns: seq<Turn>): (a: Alloc)
    ensures |a.rest| <= |turns| && (a.ok ==> !Short(a.s, f, t, inNeeded))
    ensures !Short(s, f, t, inNeeded) ==> a == Alloc(true, s, turns)
    decreases |turns|, if Short(s, f, t, inNeeded) then 1 else 0
  {
    if !Short(s, f, t, inNeeded) then Alloc(true, s, turns) else
      var a := Allocation(s, |GapStarts(s.regions, f, t)| - inNeeded, turns);
      if !a.ok then a else AddAttempt(a.s, f, t, inNeeded, a.rest)
  }

  lemma {:induction false} AddAttemptFair(s: State, f: int, t: int, inNeeded: nat, turns: seq<Turn>, id: nat)
    requires Ok(s) && Holds(s, id, inNeeded) && Fair(turns, id, inNeeded)
    ensures var a := AddAttempt(s, f, t, inNeeded, turns);
            Ok(a.s) && Holds(a.s, id, inNeeded) && Fair(a.rest, id, inNeeded) && Left(turns, s.regions, a.s.regions)
            && a.rest == turns[|turns| - |a.rest|..] && (turns == [] ==> a.ok && a.s.regions == s.regions)
    decreases |turns|, if Short(s, f, t, inNeeded) then 1 else 0
  {
    hide Ok, Holds, Fair, Left, Allocation, GapStarts;
    LeftNow(turns, s.regions);
    if Short(s, f, t, inNeeded) {
      var need := |GapStarts(s.regions, f, t)| - inNeeded;
      var a := Allocation(s, need, turns);
      AllocationFair(s, need, turns, id, inNeeded);
      if a.ok {
        AddAttemptFair(a.s, f, t, inNeeded, a.rest, id);
        var b := AddAttempt(a.s, f, t, inNeeded, a.rest);
        LeftOn(turns, |turns| - |a.rest|, s.regions, a.s.regions, b.s.regions);
        SuffixOn(turns, a.rest, b.rest);
      }
    }
  }

  lemma {:induction false} AddAttemptMeans(s: State, f: int, t: int, inNeeded: nat, turns: seq<Turn>)
    ensures var a := AddAttempt(s, f, t, inNeeded, turns);
            && Waited(s, turns, a) && (a.ok ==> !Short(a.s, f, t, inNeeded))
            && (|a.rest| == |turns| <==> !Short(s, f, t, inNeeded) || turns == [])
    decreases |turns|, if Short(s, f, t, inNeeded) then 1 else 0
  {
    hide Waited, Allocation, GapStarts;
    NotWaited(s, turns, 0);
    if Short(s, f, t, inNeeded) {
      var need := |GapStarts(s.regions, f, t)| - inNeeded;
      var a := Allocation(s, need, turns);
      AllocationMeans(s, need, turns);
      if a.ok {
        AddAttemptMeans(a.s, f, t, inNeeded, a.rest);
        WaitedTwice(s, turns, a, AddAttempt(a.s, f, t, inNeeded, a.rest));
      }
    }
  }

  /** region_del: the map that the pages are finally taken out of. Memory is only asked for when a region has to be
      split and every descriptor is promised. */
  ghost function DelAttempt(s: State, f: int, t: int, turns: seq<Turn>): Alloc {
    if !Across(s.regions, f, t) || s.adds < s.cache || turns == [] then Alloc(true, s, turns)
    else if turns[0].Refused? then Alloc(false, s, turns[1..])
    else Alloc(true, turns[0].after, turns[1..])
  }

  lemma AddsBacked(s: State)
    requires Ok(s)
    ensures s.adds <= s.cache
  {
  }

  lemma DelAttemptFair(s: State, f: int, t: int, turns: seq<Turn>, id: nat, n: nat)
    requires Ok(s) && Holds(s, id, n) && Fair(turns, id, n)
    ensures var a := DelAttempt(s, f, t, turns);
            Ok(a.s) && Holds(a.s, id, n) && Fair(a.rest, id, n) && Left(turns, s.regions, a.s.regions)
            && (!a.ok ==> a.s == s && Across(s.regions, f, t))
  {
  }

  /** One page is at most one gap. */
  lemma OnePage(rs: seq<Region>, f: int, t: int)
    ensures t - f <= 1 ==> |GapStarts(rs, f, t)| <= 1
  {
    if t - f <= 1 {
      if GapStarts(rs, f, t) != {} {
        assert GapStarts(rs, f, t) == {f};
      }
    }
  }

  /** Some region holds [f, t) with more on either side. */
  ghost predicate Across(rs: seq<Region>, f: int, t: int) {
    exists i :: 0 <= i < |rs| && rs[i].from < f && t < rs[i].to
  }

  /** t lies beyond all regions, as LONG_MAX does when a file is truncated. */
  ghost predicate AllEndBy(rs: seq<Region>, t: int) {
    forall i :: 0 <= i < |rs| ==> rs[i].to <= t
  }

  /** Then no region has to be split. */
  lemma NoneAcross(rs: seq<Region>, f: int, t: int)
    ensures AllEndBy(rs, t) ==> !Across(rs, f, t)
  {
  }

  /** No region before k lies across [f, t); one more, or none of the rest. */
  lemma AcrossStep(rs: seq<Region>, k: nat, f: int, t: int)
    requires k < |rs|
    ensures Across(rs[..k + 1], f, t) <==> Across(rs[..k], f, t) || (rs[k].from < f && t < rs[k].to)
    ensures Sorted(rs) && f <= t <= rs[k].from ==> (Across(rs, f, t) <==> Across(rs[..k], f, t))
  {
    assert forall i :: 0 <= i < k ==> rs[..k + 1][i] == rs[..k][i];
  }

  /** The pass has dealt with k regions of the old list and stands at i in the edited one. */
  ghost predicate Deleting(was: seq<Region>, now: seq<Region>, k: nat, i: nat, f: int, t: int) {
    k <= |was| && now == Cut(was[..k], f, t) + was[k..] && i == |Cut(was[..k], f, t)|
  }

  lemma CutStep(was: seq<Region>, k: nat, f: int, t: int)
    requires k < |was|
    ensures Cut(was[..k + 1], f, t) == Cut(was[..k], f, t) + Piece(was[k], f, t)
    ensures Overlap(was[..k + 1], f, t) == Overlap(was[..k], f, t) + Width(was[k], f, t)
  {
    assert was[..k + 1][..k] == was[..k];
  }

  /** ... has taken out `taken` pages so far, and has not met a region that has to be split. */
  ghost predicate Passing(was: seq<Region>, now: seq<Region>, k: nat, i: nat, f: int, t: int, taken: int) {
    Deleting(was, now, k, i, f, t) && taken == Overlap(was[..k], f, t) && !Across(was[..k], f, t)
  }

  lemma DeleteNone(was: seq<Region>, f: int, t: int)
    ensures Passing(was, was, 0, 0, f, t, 0)
  {
  }

  /** The list with region i replaced. */
  function Edited(now: seq<Region>, i: nat, ps: seq<Region>): seq<Region>
    requires i < |now|
  {
    now[..i] + ps + now[i + 1..]
  }

  lemma DeleteAt(was: seq<Region>, now: seq<Region>, k: nat, i: nat, f: int, t: int, taken: int)
    requires Sorted(was) && Passing(was, now, k, i, f, t, taken)
    ensures k <= |was| && i <= |now| && |now| - i == |was| - k
    ensures k < |was| ==> now[i] == was[k] && was[k].from < was[k].to
    ensures k == |was| ==> Cut(was, f, t) == now && Overlap(was, f, t) == taken && !Across(was, f, t)
  {
    hide Piece, Width, Cut, Overlap, Across;
    assert k == |was| ==> was[..k] == was;
  }

  /** What a region has to become for the pass to go on. */
  lemma DeleteStep(was: seq<Region>, now: seq<Region>, k: nat, i: nat, f: int, t: int, taken: int)
    requires Passing(was, now, k, i, f, t, taken) && k < |was| && i < |now| && !(was[k].from < f && t < was[k].to)
    ensures Passing(was, Edited(now, i, Piece(was[k], f, t)), k + 1, i + |Piece(was[k], f, t)|, f, t,
          taken + Width(was[k], f, t))
  {
    hide Piece, Width, Cut, Overlap, Across, Sorted;
    AcrossStep(was, k, f, t);
    assert now[..i] == Cut(was[..k], f, t) && now[i + 1..] == was[k + 1..];
    CutStep(was, k, f, t);
  }

  lemma DeleteKept(was: seq<Region>, now: seq<Region>, k: nat, i: nat, f: int, t: int, taken: int)
    requires Passing(was, now, k, i, f, t, taken) && k < |was| && i < |now| && now[i] == was[k]
    requires f <= t && was[k].from < was[k].to <= f
    ensures Passing(was, now, k + 1, i + 1, f, t, taken)
  {
    hide Passing, Piece, Width;
    DeleteStep(was, now, k, i, f, t, taken);
    Untouched(was[k], f, t);
    assert Edited(now, i, [was[k]]) == now;
  }

  lemma DeleteBeyond(was: seq<Region>, now: seq<Region>, k: nat, i: nat, f: int, t: int, taken: int)
    requires Sorted(was) && Passing(was, now, k, i, f, t, taken) && f <= t && k < |was| && t <= was[k].from
    ensures Cut(was, f, t) == now && Overlap(was, f, t) == taken && !Across(was, f, t)
  {
    hide Cut, Overlap, Across;
    BeyondCut(was, k, f, t);
    AcrossStep(was, k, f, t);
  }

  /** The region that has to be split is the first to be touched, and the last. */
  lemma FirstAcross(was: seq<Region>, now: seq<Region>, k: nat, i: nat, f: int, t: int, taken: int)
    requires Sorted(was) && f <= t && Passing(was, now, k, i, f, t, taken) && i < |now|
    requires k < |was| && was[k].from < f && t < was[k].to
    ensures now == was && taken == 0 && Across(was, f, t) && Overlap(was, f, t) == t - f
    ensures Cut(was, f, t) == Edited(now, i, [was[k].(to := f), was[k].(from := t)])
  {
    hide Passing, Piece, Width, Cut, Overlap, Sorted, Across, Below;
    AcrossHere(was, k, f, t);
    BeforeCut(was[..k], f, t);
    NothingTouched(was, now, k, i, f, t, taken);
    CutStep(was, k, f, t);
    BeyondCut(was, k + 1, f, t);
    TornApart(was[k], f, t);
  }

  lemma AcrossHere(was: seq<Region>, k: nat, f: int, t: int)
    requires Sorted(was) && f <= t && k < |was| && was[k].from < f && t < was[k].to
    ensures Across(was, f, t) && Sorted(was[..k]) && Below(was[..k], f) && (k + 1 < |was| ==> t <= was[k + 1].from)
  {
    assert forall j :: 0 <= j < k ==> was[j].to <= was[k].from;
  }

  /** If nothing before k is touched, the pass has changed nothing. */
  lemma NothingTouched(was: seq<Region>, now: seq<Region>, k: nat, i: nat, f: int, t: int, taken: int)
    requires Passing(was, now, k, i, f, t, taken) && k <= |was| && Cut(was[..k], f, t) == was[..k] &&
          Overlap(was[..k], f, t) == 0
    ensures now == was && i == k && taken == 0
  {
    hide Cut, Overlap, Across;
  }

  lemma TornApart(r: Region, f: int, t: int)
    requires r.from < f <= t < r.to
    ensures Piece(r, f, t) == [r.(to := f), r.(from := t)] && Width(r, f, t) == t - f
  {
  }

  lemma WidthIs(r: Region, f: int, t: int)
    requires r.from < r.to && f <= t
    ensures Width(r, f, t) == if r.to <= f || t <= r.from then 0 else Min(r.to, t) - Max(r.from, f)
  {
  }

  /** [f, t) has been taken out, and nothing else. */
  ghost predicate Removed(was: seq<Region>, now: seq<Region>, f: int, t: int) {
    && Sorted(now) && (Apart(was) ==> (Apart(now) <==> NotInside(was, f, t)))
    && forall x :: Lookup(now, x) == if f <= x < t then None else Lookup(was, x)
  }

  lemma CutRemoves(rs: seq<Region>, f: int, t: int)
    requires Sorted(rs) && f <= t
    ensures Removed(rs, Cut(rs, f, t), f, t) && Overlap(rs, f, t) == |Present(rs, f, t)|
  {
    hide Lookup, Sorted, Apart, Cut, Overlap, Present;
    CutSorted(rs, f, t);
    OverlapCounts(rs, f, t);
    if Apart(rs) && f == t {
      EmptyCut(rs, f);
    } else if Apart(rs) {
      CutApart(rs, f, t);
    }
    forall x {
      CutLookup(rs, f, t, x);
    }
  }

  class ResvMap {
    var regions: seq<Region>
    var cacheCount: int
    var adds: int
    ghost var tickets: map<nat, nat>

    ghost function Now(): State
      reads this
    {
      State(regions, cacheCount, adds, tickets)
    }

    constructor ()
      ensures Now() == State([], 1, 0, map[]) && Ok(Now())
    {
      regions, cacheCount, adds, tickets := [], 1, 0, map[];
    }

    method CoalesceFileRegion(i: nat)
      requires i < |regions|
      modifies this`regions
      ensures regions == Coalesce(old(regions), i)
    {
      hide JoinLeft, Joinable;
      var rg := MergeIntoPrevious(i);
      if rg + 1 < |regions| && Joinable(regions[rg], regions[rg + 1]) {
        JoinedRight(regions, rg);
        regions := regions[rg + 1 := regions[rg + 1].(from := regions[rg].from)];
        regions := regions[..rg] + regions[rg + 1..];
      }
    }

    method MergeIntoPrevious(i: nat) returns (rg: nat)
      requires i < |regions|
      modifies this`regions
      ensures regions == JoinLeft(old(regions), i)
      ensures rg == if i > 0 && Joinable(old(regions[i - 1]), old(regions[i])) then i - 1 else i
      ensures rg < |regions|
    {
      rg := i;
      if i > 0 && Joinable(regions[i - 1], regions[i]) {
        regions := regions[i - 1 := regions[i - 1].(to := regions[i].to)];
        regions := regions[..i] + regions[i + 1..];
        rg := i - 1;
        assert regions == JoinLeft(old(regions), i);
      }
    }

    /** Takes a descriptor from the cache and puts [from, to) at position i of the list. */
    method HugetlbResvMapAdd(i: nat, from: int, to: int, info: nat)
      requires i <= |regions| && 0 < cacheCount
      modifies this`regions, this`cacheCount
      ensures regions == Insert(old(regions), i, Region(from, to, info)) && cacheCount == old(cacheCount) - 1
    {
      cacheCount := cacheCount - 1;
      regions := regions[..i] + [Region(from, to, info)] + regions[i..];
      CoalesceFileRegion(i);
    }

    /** The pages [f, t) lacks and the descriptors it takes to add them; `counting` only counts. */
    method AddReservationInRange(f: int, t: int, info: nat, counting: bool) returns (add: int, needed: int)
      requires Sorted(regions) && f <= t
      requires counting || |GapStarts(regions, f, t)| <= cacheCount
      modifies this`regions, this`cacheCount
      ensures add == |Missing(old(regions), f, t)| && needed == |GapStarts(old(regions), f, t)|
      ensures counting ==> regions == old(regions) && cacheCount == old(cacheCount)
      ensures !counting ==> Extended(old(regions), regions, f, t, info) && cacheCount == old(cacheCount) - needed
    {
      hide Extended, Missing, GapStarts, Insert, Scan;
      ghost var was := regions;
      ghost var now := regions;
      ghost var j: nat := 0;
      ghost var k: nat := 0;
      var i := 0;
      var last := f;
      add, needed := 0, 0;
      ScanStart(was, f, t, info);
      while i < |regions|
        invariant Scan(was, now, k, j, f, last, t, info) && Tally(was, f, last, add, needed)
        invariant if counting then regions == was && i == k && cacheCount == old(cacheCount)
                  else regions == now && i == j && cacheCount == old(cacheCount) - needed
        decreases |was| - k
      {
        ScanFacts(was, now, k, j, f, last, t, info);
        var iter := regions[i];
        if iter.from < f {
          Pass(was, now, k, j, f, last, t, info, add, needed);
          if last < iter.to {
            last := iter.to;
          }
        } else if t <= iter.from {
          break;
        } else {
          if last < iter.from {
            FillAndPass(was, now, k, j, f, last, t, info, add, needed);
            if !counting {
              var after := |regions| - i;
              HugetlbResvMapAdd(i, last, iter.from, info);
              i := |regions| - after;
            }
            ghost var ts := Insert(now, j, Region(last, iter.from, info));
            j, now := |ts| - (|now| - j), ts;
            add, needed := add + (iter.from - last), needed + 1;
          } else {
            Pass(was, now, k, j, f, last, t, info, add, needed);
          }
          last := iter.to;
        }
        i, j, k := i + 1, j + 1, k + 1;
      }
      ScanFacts(was, now, k, j, f, last, t, info);
      if last < t {
        FillTail(was, now, k, j, f, last, t, info, add, needed);
        if !counting {
          HugetlbResvMapAdd(i, last, t, info);
        }
        add, needed := add + (t - last), needed + 1;
      } else {
        NoTail(was, now, k, j, f, last, t, info, add, needed);
      }
    }

    /** Fills the cache for `need` descriptors more than are promised, dropping the lock to allocate them. */
    method AllocateFileRegionEntries(need: nat, turns: seq<Turn>, ghost id: nat, ghost n: nat)
      returns (ok: bool, rest: seq<Turn>)
      requires Ok(Now()) && Holds(Now(), id, n) && Fair(turns, id, n)
      modifies this
      ensures Allocation(old(Now()), need, turns) == Alloc(ok, Now(), rest)
      ensures Ok(Now()) && Holds(Now(), id, n) && Fair(rest, id, n) && Left(turns, old(regions), regions)
      ensures Waited(old(Now()), turns, Alloc(ok, Now(), rest)) && (ok <==> adds + need <= cacheCount)
      ensures rest == turns <==> old(adds + need <= cacheCount) || turns == []
    {
      hide Sorted, Fair, Left, Ok, Holds, Waited;
      AllocationMeans(Now(), need, turns);
      AllocationFair(Now(), need, turns, id, n);
      ok, rest := true, turns;
      while cacheCount < adds + need
        invariant ok && Allocation(Now(), need, rest) == Allocation(old(Now()), need, turns)
        decreases |rest|, adds + need - cacheCount
      {
        var toAllocate := adds + need - cacheCount;
        if rest != [] {
          var turn := rest[0];
          rest := rest[1..];
          if turn.Refused? {
            return false, rest;
          }
          Yield(turn.after);
        }
        cacheCount := cacheCount + toAllocate;
      }
    }

    /** Others have held the lock meanwhile. */
    method Yield(after: State)
      modifies this
      ensures Now() == after
    {
      regions, cacheCount, adds, tickets := after.regions, after.cache, after.adds, after.tickets;
    }

    /** Begins an addition: counts what [f, t) lacks and has the descriptors for it promised. It fails exactly if they
        have to be allocated and cannot be. */
    method RegionChg(f: int, t: int, turns: seq<Turn>, ghost id: nat) returns (chg: int, needed: nat, rest: seq<Turn>)
      requires f <= t && Ok(Now()) && Holds(Now(), id, 0) && Fair(turns, id, 0)
      modifies this
      ensures Ok(Now()) && Fair(rest, id, 0) && Left(turns, old(regions), regions)
      ensures needed == Max(1, |GapStarts(old(regions), f, t)|)
      ensures chg == -ENOMEM || chg == |Missing(old(regions), f, t)|
      ensures Holds(Now(), id, if chg < 0 then 0 else needed)
      ensures var a := Allocation(old(Now()), needed, turns);
              (chg >= 0 <==> a.ok) && rest == a.rest && Now() == if a.ok then Issue(a.s, id, needed) else a.s
    {
      hide Sorted, Fair, Left, Missing, GapStarts, Allocation;
      chg, needed := AddReservationInRange(f, t, 0, true);
      if needed == 0 {
        needed := 1;
      }
      var ok;
      ok, rest := AllocateFileRegionEntries(needed, turns, id, 0);
      if !ok {
        return -ENOMEM, needed, rest;
      }
      IssueOk(Now(), id, needed);
      adds := adds + needed;
      tickets := tickets[id := needed];
    }

    /** Finishes an addition. `at` is the map when the lock was last taken. */
    method RegionAdd(f: int, t: int, inNeeded: nat, info: nat, turns: seq<Turn>, ghost id: nat)
      returns (ret: int, rest: seq<Turn>, ghost at: State)
      requires f <= t && Ok(Now()) && 0 < inNeeded && Holds(Now(), id, inNeeded) && Fair(turns, id, inNeeded)
      modifies this
      ensures AddAttempt(old(Now()), f, t, inNeeded, turns) == Alloc(ret >= 0, at, rest)
      ensures Ok(Now()) && Ok(at) && Holds(at, id, inNeeded) && Left(turns, old(regions), at.regions)
      ensures ret >= 0 ==> ret == |Missing(at.regions, f, t)| && Extended(at.regions, regions, f, t, info)
                           && Now() == Redeem(at, id, |GapStarts(at.regions, f, t)|).(regions := regions)
      ensures ret < 0 ==> ret == -ENOMEM && Now() == at
      ensures Waited(old(Now()), turns, Alloc(ret >= 0, at, rest))
      ensures rest == turns <==> old(!Short(Now(), f, t, inNeeded)) || turns == []
      ensures t - f <= 1 ==> ret >= 0 && rest == turns && at == old(Now())
      ensures turns == [] ==> ret >= 0 && at.regions == old(regions)
    {
      hide Sorted, Fair, Left, Ok, Holds, Missing, GapStarts, Extended, Allocation, Waited;
      AddAttemptMeans(Now(), f, t, inNeeded, turns);
      AddAttemptFair(Now(), f, t, inNeeded, turns, id);
      OnePage(regions, f, t);
      rest := turns;
      var actual: int;
      while true
        invariant Ok(Now()) && Holds(Now(), id, inNeeded) && Fair(rest, id, inNeeded)
        invariant AddAttempt(Now(), f, t, inNeeded, rest) == AddAttempt(old(Now()), f, t, inNeeded, turns)
        decreases |rest|, if Short(Now(), f, t, inNeeded) then 1 else 0
      {
        OkSorted(Now());
        var _, needed := AddReservationInRange(f, t, 0, true);
        actual := needed;
        if !(inNeeded < actual && cacheCount < adds + (actual - inNeeded)) {
          break;
        }
        var ok;
        ok, rest := AllocateFileRegionEntries(actual - inNeeded, rest, id, inNeeded);
        if !ok {
          return -ENOMEM, rest, Now();
        }
      }
      at := Now();
      ret, actual := Finish(f, t, inNeeded, info, id);
    }

    /** With enough descriptors, the pages are added and the ticket is redeemed. */
    method Finish(f: int, t: int, inNeeded: nat, info: nat, ghost id: nat) returns (add: int, used: int)
      requires f <= t && Ok(Now()) && 0 < inNeeded && Holds(Now(), id, inNeeded) && !Short(Now(), f, t, inNeeded)
      modifies this
      ensures Ok(Now()) && add == |Missing(old(regions), f, t)| && Extended(old(regions), regions, f, t, info)
      ensures Now() == Redeem(old(Now()), id, |GapStarts(old(regions), f, t)|).(regions := regions)
    {
      hide Sorted, Missing, GapStarts, Extended;
      ghost var at := Now();
      TicketBacked(at, id);
      add, used := AddReservationInRange(f, t, info, false);
      ExtendedSorted(at.regions, regions, f, t, info);
      RedeemOk(at, id, used, regions);
      adds := adds - inNeeded;
      tickets := tickets - {id};
    }

    /** Gives up an addition. */
    method RegionAbort(needed: nat, ghost id: nat)
      requires Ok(Now()) && 0 < needed && Holds(Now(), id, needed)
      modifies this`adds, this`tickets
      ensures Ok(Now()) && Now() == Redeem(old(Now()), id, 0)
    {
      hide Sorted;
      TicketBacked(Now(), id);
      assert cacheCount != 0;
      RedeemOk(Now(), id, 0, regions);
      adds := adds - needed;
      tickets := tickets - {id};
    }

    /** One pass of region_del, adding to `del0` the pages it takes out; `spare`: a descriptor is at hand.
        It is `stuck` when it would have to split a region and has none. */
    method DeleteRange(f: int, t: int, del0: int, spare: bool) returns (del: int, stuck: bool)
      requires Ok(Now()) && f <= t
      modifies this`regions, this`cacheCount
      ensures Ok(Now())
      ensures stuck <==> !spare && old(Across(regions, f, t) && cacheCount <= adds)
      ensures stuck ==> Now() == old(Now()) && del == del0
      ensures !stuck ==> regions == Cut(old(regions), f, t) && del == del0 + Overlap(old(regions), f, t)
      ensures !stuck ==> cacheCount == old(cacheCount) - (if Across(old(regions), f, t) && !spare then 1 else 0)
    {
      hide Ok, Sorted, Passing, Cut, Overlap, Across, Edited, Piece, Width;
      OkSorted(Now());
      ghost var was := regions;
      ghost var k: nat := 0;
      var i: nat := 0;
      del, stuck := del0, false;
      DeleteNone(was, f, t);
      CutSorted(was, f, t);
      while i < |regions|
        invariant Passing(was, regions, k, i, f, t, del - del0) && cacheCount == old(cacheCount)
        decreases |was| - k
      {
        DeleteAt(was, regions, k, i, f, t, del - del0);
        var rg := regions[i];
        if rg.to <= f && (rg.to != rg.from || rg.to != f) {
          DeleteKept(was, regions, k, i, f, t, del - del0);
          i, k := i + 1, k + 1;
          continue;
        }
        if rg.from >= t {
          DeleteBeyond(was, regions, k, i, f, t, del - del0);
          OkEdited(old(Now()), Now());
          return;
        }
        if f > rg.from && t < rg.to {
          FirstAcross(was, regions, k, i, f, t, del - del0);
          stuck := SplitAcross(i, f, t, spare);
          OkEdited(old(Now()), Now());
          if !stuck {
            del := del + (t - f);
          }
          return;
        }
        DeleteStep(was, regions, k, i, f, t, del - del0);
        var cut;
        i, cut := Trim(i, f, t);
        del, k := del + cut, k + 1;
      }
      DeleteAt(was, regions, k, i, f, t, del - del0);
      OkEdited(old(Now()), Now());
    }

    /** Splits region i if a descriptor is at hand or in the cache and not promised. */
    method SplitAcross(i: nat, f: int, t: int, spare: bool) returns (stuck: bool)
      requires i < |regions|
      modifies this`regions, this`cacheCount
      ensures stuck <==> !spare && old(cacheCount) <= adds
      ensures stuck ==> regions == old(regions) && cacheCount == old(cacheCount)
      ensures !stuck ==> regions == Edited(old(regions), i, [old(regions[i]).(to := f), old(regions[i]).(from := t)])
      ensures !stuck ==> cacheCount == old(cacheCount) - if spare then 0 else 1
    {
      var nrg := spare;
      if !nrg && cacheCount > adds {
        nrg := true;
        cacheCount := cacheCount - 1;
      }
      if !nrg {
        return true;
      }
      Split(i, f, t);
      stuck := false;
    }

    /** The new entry takes the end of the split region, the original is trimmed. */
    method Split(i: nat, f: int, t: int)
      requires i < |regions|
      modifies this`regions
      ensures regions == Edited(old(regions), i, [old(regions[i]).(to := f), old(regions[i]).(from := t)])
    {
      var nrg := regions[i].(from := t);
      regions := regions[i := regions[i].(to := f)];
      regions := regions[..i + 1] + [nrg] + regions[i + 1..];
    }

    /** Removes region i or trims one of its ends; returns where to go on and the pages taken out. */
    method Trim(i: nat, f: int, t: int) returns (j: nat, cut: int)
      requires i < |regions| && f <= t && regions[i].from < regions[i].to && f < regions[i].to && regions[i].from < t
      requires !(regions[i].from < f && t < regions[i].to)
      modifies this`regions
      ensures regions == Edited(old(regions), i, Piece(old(regions[i]), f, t))
      ensures j == i + |Piece(old(regions[i]), f, t)| && cut == Width(old(regions[i]), f, t)
    {
      var rg := regions[i];
      if f <= rg.from && t >= rg.to {
        regions := regions[..i] + regions[i + 1..];
        return i, rg.to - rg.from;
      }
      if f <= rg.from {
        regions := regions[i := rg.(from := t)];
        return i + 1, t - rg.from;
      }
      regions := regions[i := rg.(to := f)];
      return i + 1, rg.to - f;
    }

    /** Takes [f, t) out of the map. `at` is the map when the lock was last taken. */
    method RegionDel(f: int, t: int, turns: seq<Turn>, ghost id: nat, ghost n: nat)
      returns (del: int, rest: seq<Turn>, ghost at: State)
      requires f <= t && Ok(Now()) && Holds(Now(), id, n) && Fair(turns, id, n)
      modifies this
      ensures DelAttempt(old(Now()), f, t, turns) == Alloc(del >= 0, at, rest)
      ensures Ok(Now()) && Ok(at) && Holds(at, id, n) && Fair(rest, id, n) && Left(turns, old(regions), at.regions)
      ensures del >= 0 ==> del == |Present(at.regions, f, t)| && Removed(at.regions, regions, f, t)
      ensures del >= 0 ==> Now() == at.(regions := regions,
                                        cache := at.cache -
                                          if old(Across(regions, f, t) && adds < cacheCount) then 1 else 0)
      ensures del < 0 ==> del == -ENOMEM && Now() == at && Across(at.regions, f, t)
      ensures del < 0 <==> old(Across(regions, f, t) && adds == cacheCount) && turns != [] && turns[0].Refused?
      ensures at == if old(Across(regions, f, t) && adds == cacheCount) && turns != [] && turns[0].Granted?
                    then turns[0].after else old(Now())
      ensures |rest| == |turns| - if old(Across(regions, f, t) && adds == cacheCount) && turns != [] then 1 else 0
      ensures old(AllEndBy(regions, t)) ==> del >= 0 && at == old(Now()) && rest == turns &&
                                            cacheCount == old(cacheCount)
    {
      hide Sorted, Fair, Left, Ok, Holds, Across, Cut, Overlap, Removed, Present;
      DelAttemptFair(Now(), f, t, turns, id, n);
      AddsBacked(Now());
      NoneAcross(regions, f, t);
      ghost var a, mustSplit := DelAttempt(Now(), f, t, turns), Across(regions, f, t) && cacheCount <= adds;
      var spare := false;
      del, rest := 0, turns;
      while true
        invariant Ok(Now()) && del == 0
        invariant if spare then mustSplit && a == Alloc(true, Now(), rest) else Now() == old(Now()) && rest == turns
        decreases !spare
      {
        at := Now();
        OkSorted(at);
        var stuck;
        del, stuck := DeleteRange(f, t, del, spare);
        if !stuck {
          CutRemoves(at.regions, f, t);
          return;
        }
        if rest != [] {
          var turn := rest[0];
          rest := rest[1..];
          if turn.Refused? {
            return -ENOMEM, rest, at;
          }
          Yield(turn.after);
        }
        spare := true;
      }
    }

    /** How many pages of [f, t) the map holds. */
    method RegionCount(f: int, t: int) returns (chg: int)
      requires Sorted(regions) && f <= t
      ensures chg == |Present(regions, f, t)| == t - f - |Missing(regions, f, t)|
    {
      hide Present, Missing, Overlap, Cut, Width;
      chg := 0;
      var i := 0;
      DeleteNone(regions, f, t);
      while i < |regions|
        invariant i <= |regions| && chg == Overlap(regions[..i], f, t)
      {
        var rg := regions[i];
        CutStep(regions, i, f, t);
        WidthIs(rg, f, t);
        if rg.to <= f {
          i := i + 1;
          continue;
        }
        if rg.from >= t {
          break;
        }
        var segFrom := Max(rg.from, f);
        var segTo := Min(rg.to, t);
        chg := chg + (segTo - segFrom);
        i := i + 1;
      }
      BeyondCut(regions, i, f, t);
      OverlapCounts(regions, f, t);
      PresentAndMissing(regions, f, t);
    }
  }
}
