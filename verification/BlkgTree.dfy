/** Block cgroups, their groups on each request queue, and the pins that keep them: every step that one lock or one
    reference count makes atomic, in any interleaving. */
module BlkgTree {
  import opened Lists

  datatype Phase = Fresh | Live | Offline

  /** `pin` is online_pin; `ext` of them are held by writeback. `online`: css_tryget_online succeeds. `released`: the
      pin on the parent has been put back. */
  datatype Blkcg = Blkcg(phase: Phase, online: bool, pin: int, ext: nat, released: bool)

  /** `lists`: for each queue its blkg_list, a blkg standing for its blkcg. `owned`: for each blkcg its own blkg_list, a
      blkg standing for its queue. The parent of every blkcg but the root never changes. */
  datatype State = State(groups: map<nat, Blkcg>, parent: map<nat, nat>, depth: map<nat, nat>,
                         lists: map<nat, seq<nat>>, owned: map<nat, seq<nat>>, dying: set<nat>)

  function At(m: map<nat, seq<nat>>, k: nat): seq<nat> {
    if k in m then m[k] else []
  }

  lemma AtChange(m: map<nat, seq<nat>>, k: nat, v: seq<nat>, n: map<nat, seq<nat>>)
    requires n == m[k := v]
    ensures forall j :: At(n, j) == if j == k then v else At(m, j)
  {
  }

  /** A step towards the root. */
  ghost predicate Tree(groups: map<nat, Blkcg>, parent: map<nat, nat>, depth: map<nat, nat>) {
    && (forall g :: g in groups ==> g in depth)
    && (forall g :: g in parent ==> g in groups && parent[g] in groups && depth[g] == depth[parent[g]] + 1)
  }

  ghost predicate Linked(lists: map<nat, seq<nat>>, owned: map<nat, seq<nat>>) {
    && (forall q, g :: g in At(lists, q) <==> q in At(owned, g))
    && (forall q :: NoDup(At(lists, q))) && (forall g :: NoDup(At(owned, g)))
  }

  ghost predicate Housed(groups: map<nat, Blkcg>, owned: map<nat, seq<nat>>) {
    forall g :: At(owned, g) != [] ==> g in groups && !groups[g].released && groups[g].phase != Fresh
  }

  /** On each list every blkg has its parent after it. */
  ghost predicate ParentLater(parent: map<nat, nat>, list: seq<nat>) {
    forall i :: 0 <= i < |list| && list[i] in parent ==> parent[list[i]] in list[i + 1..]
  }

  ghost predicate Ordered(parent: map<nat, nat>, lists: map<nat, seq<nat>>) {
    forall q :: ParentLater(parent, At(lists, q))
  }

  /** Does it hold a pin on its parent? */
  predicate Holds(b: Blkcg) {
    b.phase != Fresh && !b.released
  }

  ghost function Holders(groups: map<nat, Blkcg>, parent: map<nat, nat>, g: nat): set<nat> {
    set c | c in parent && c in groups && parent[c] == g && Holds(groups[c])
  }

  /** The pins a blkcg has beyond those of its children. */
  function OwnPins(b: Blkcg): int {
    (if b.phase == Offline then 0 else 1) + b.ext
  }

  ghost predicate Pinned(groups: map<nat, Blkcg>, parent: map<nat, nat>) {
    forall g :: g in groups ==> groups[g].pin == OwnPins(groups[g]) + |Holders(groups, parent, g)|
  }

  ghost predicate Phased(groups: map<nat, Blkcg>, parent: map<nat, nat>) {
    && (forall g :: g in groups && groups[g].online ==> groups[g].phase == Live)
    && (forall g :: g in groups && groups[g].released ==> groups[g].pin == 0 && groups[g].phase == Offline)
    && (forall g :: g in parent && g in groups && parent[g] in groups && groups[parent[g]].phase == Fresh ==>
          groups[g].phase == Fresh)
  }

  ghost predicate Ok(s: State) {
    && Tree(s.groups, s.parent, s.depth) && Linked(s.lists, s.owned) && Housed(s.groups, s.owned)
    && Ordered(s.parent, s.lists) && Pinned(s.groups, s.parent) && Phased(s.groups, s.parent)
  }

  // ----- what the invariant says -----

  /** p is g or one of its ancestors. */
  ghost predicate Above(s: State, p: nat, g: nat)
    requires Tree(s.groups, s.parent, s.depth) && g in s.groups
    decreases s.depth[g]
  {
    p == g || (g in s.parent && Above(s, p, s.parent[g]))
  }

  /** A blkcg with a blkg on a queue has all its ancestors' there too, further back in the list. */
  lemma {:induction false} AncestorsLater(s: State, q: nat, i: nat, p: nat)
    requires Ok(s) && i < |At(s.lists, q)| && At(s.lists, q)[i] in s.groups && Above(s, p, At(s.lists, q)[i]) &&
          p != At(s.lists, q)[i]
    ensures p in At(s.lists, q)[i + 1..]
    decreases s.depth[At(s.lists, q)[i]]
  {
    hide Linked, Pinned, Phased;
    var list := At(s.lists, q);
    var m := s.parent[list[i]];
    assert ParentLater(s.parent, list);
    var j :| i + 1 <= j < |list| && list[j] == m;
    if p != m {
      AncestorsLater(s, q, j, p);
      assert p in list[j + 1..];
    }
  }

  lemma UnpinnedChild(s: State, g: nat)
    requires Ok(s) && g in s.parent && s.groups[s.parent[g]].pin == 0
    ensures s.groups[g].phase == Fresh || s.groups[g].released
  {
    hide Ordered, Linked;
    var hs := Holders(s.groups, s.parent, s.parent[g]);
    assert hs == {};
    assert g !in hs;
  }

  /** When the last pin of a blkcg has gone, nothing below it has any blkg, on any queue, or can get one. */
  lemma {:induction false} NothingBelow(s: State, p: nat, g: nat)
    requires Ok(s) && g in s.groups && p in s.groups && Above(s, p, g) && p != g && s.groups[p].pin == 0
    ensures At(s.owned, g) == [] && !s.groups[g].online
    ensures s.groups[g].phase == Fresh || s.groups[g].released
    decreases s.depth[g]
  {
    hide Ordered, NoDup, Pinned;
    var m := s.parent[g];
    if m != p {
      NothingBelow(s, p, m);
    }
    if s.groups[m].phase != Fresh {
      UnpinnedChild(s, g);
    }
  }

  // ----- the atomic steps -----

  function SetGroup(s: State, g: nat, b: Blkcg): State {
    s.(groups := s.groups[g := b])
  }

  datatype Step =
    | CssAlloc(g: nat, p: nat)
    | CssOnline(g: nat)
    | Kill(g: nat)
    | DropBase(g: nat)
    | PinOnline(g: nat)
    | DropExt(g: nat)
    | DropChild(g: nat)
    | Create(q: nat, g: nat)
    | Destroy(q: nat, g: nat)
    | Die(q: nat)

  /** When the step can happen. Destroy: the two callers of blkg_destroy, tearing a blkcg down, or a queue from the
      head of its list. */
  ghost predicate Enabled(s: State, e: Step)
    requires Tree(s.groups, s.parent, s.depth)
  {
    match e
    case CssAlloc(g, p) => g !in s.groups && g !in s.parent && At(s.owned, g) == [] && p in s.groups
    case CssOnline(g) => g in s.groups && s.groups[g].phase == Fresh && (g in s.parent ==> s.groups[s.parent[g]].online)
    case Kill(g) => g in s.groups
    case DropBase(g) => g in s.groups && s.groups[g].phase == Live && !s.groups[g].online
    case PinOnline(g) => g in s.groups && 0 < s.groups[g].pin
    case DropExt(g) => g in s.groups && 0 < s.groups[g].ext
    case DropChild(g) => g in s.parent && s.groups[g].phase == Offline && s.groups[g].pin == 0 && !s.groups[g].released
                         && At(s.owned, g) == []
    case Create(q, g) => g in s.groups && s.groups[g].online && q !in s.dying && g !in At(s.lists, q)
                         && (g in s.parent ==> s.parent[g] in At(s.lists, q))
    case Destroy(q, g) => g in s.groups && g in At(s.lists, q) && (s.groups[g].pin == 0 || At(s.lists, q)[0] == g)
    case Die(q) => true
  }

  ghost function After(s: State, e: Step): State
    requires Tree(s.groups, s.parent, s.depth) && Enabled(s, e)
  {
    match e
    case CssAlloc(g, p) =>
      s.(groups := s.groups[g := Blkcg(Fresh, false, 1, 0, false)], parent := s.parent[g := p],
          depth := s.depth[g := s.depth[p] + 1])
    case CssOnline(g) =>
      var t := SetGroup(s, g, s.groups[g].(phase := Live, online := true));
      if g in s.parent then var p := s.parent[g]; SetGroup(t, p, t.groups[p].(pin := t.groups[p].pin + 1)) else t
    case Kill(g) => SetGroup(s, g, s.groups[g].(online := false))
    case DropBase(g) => SetGroup(s, g, s.groups[g].(phase := Offline, pin := s.groups[g].pin - 1))
    case PinOnline(g) => SetGroup(s, g, s.groups[g].(ext := s.groups[g].ext + 1, pin := s.groups[g].pin + 1))
    case DropExt(g) => SetGroup(s, g, s.groups[g].(ext := s.groups[g].ext - 1, pin := s.groups[g].pin - 1))
    case DropChild(g) =>
      var p := s.parent[g];
      SetGroup(SetGroup(s, g, s.groups[g].(released := true)), p, s.groups[p].(pin := s.groups[p].pin - 1))
    case Create(q, g) => s.(lists := s.lists[q := [g] + At(s.lists, q)], owned := s.owned[g := [q] + At(s.owned, g)])
    case Destroy(q, g) =>
      s.(lists := s.lists[q := Unlinked(At(s.lists, q), g)], owned := s.owned[g := Unlinked(At(s.owned, g), q)])
    case Die(q) => s.(dying := s.dying + {q})
  }

  // ----- every step keeps the invariant -----

  lemma HoldersChange(groups: map<nat, Blkcg>, parent: map<nat, nat>, g: nat, b: Blkcg, p: nat)
    requires g in groups
    ensures |Holders(groups[g := b], parent, p)| == |Holders(groups, parent, p)|
              + (if g in parent && parent[g] == p
                 then (if Holds(b) then 1 else 0) - (if Holds(groups[g]) then 1 else 0) else 0)
  {
    hide Holds;
    var was, now := Holders(groups, parent, p), Holders(groups[g := b], parent, p);
    assert forall c :: c != g ==> (c in now <==> c in was);
    assert g in now <==> g in parent && parent[g] == p && Holds(b);
    assert g in was <==> g in parent && parent[g] == p && Holds(groups[g]);
    hide Holders;
    if g in parent && parent[g] == p && Holds(b) && !Holds(groups[g]) {
      assert now == was + {g};
    } else if g in parent && parent[g] == p && !Holds(b) && Holds(groups[g]) {
      assert now == was - {g};
    } else {
      assert now == was;
    }
  }

  /** One blkcg's own pins and claim change, and its count with them; its parent's count follows its claim. */
  lemma PinsFollow(groups: map<nat, Blkcg>, parent: map<nat, nat>, g: nat, b: Blkcg, after: map<nat, Blkcg>)
    requires Pinned(groups, parent) && g in groups && b.pin - OwnPins(b) == groups[g].pin - OwnPins(groups[g])
    requires g in parent ==> parent[g] in groups && parent[g] != g
    requires var d := (if Holds(b) then 1 else 0) - (if Holds(groups[g]) then 1 else 0);
             after == if g in parent && d != 0
                     then groups[g := b][parent[g] := groups[parent[g]].(pin := groups[parent[g]].pin + d)]
                      else groups[g := b]
    ensures Pinned(after, parent)
  {
    hide Holds, Holders;
    forall x | x in after ensures after[x].pin == OwnPins(after[x]) + |Holders(after, parent, x)| {
      HoldersChange(groups, parent, g, b, x);
      if g in parent && after != groups[g := b] {
        HoldersSame(groups[g := b], parent, parent[g], after[parent[g]], x);
      }
    }
  }

  lemma HoldersSame(groups: map<nat, Blkcg>, parent: map<nat, nat>, g: nat, b: Blkcg, p: nat)
    requires g in groups && b == groups[g].(pin := b.pin)
    ensures Holders(groups[g := b], parent, p) == Holders(groups, parent, p)
  {
    assert Holds(b) == Holds(groups[g]);
  }

  /** A change to one blkcg that leaves its claim on its parent, and its balance, alone. */
  lemma QuietKeeps(s: State, g: nat, b: Blkcg)
    requires Ok(s) && g in s.groups
    requires b.phase == s.groups[g].phase || (b.phase == Offline && s.groups[g].phase == Live)
    requires b.released == s.groups[g].released
    requires b.online ==> s.groups[g].online && b.phase == Live
    requires b.released ==> b.pin == s.groups[g].pin
    requires b.pin - OwnPins(b) == s.groups[g].pin - OwnPins(s.groups[g])
    ensures Ok(SetGroup(s, g, b))
  {
    hide Linked, Ordered, Pinned;
    assert s.groups[g].phase == Fresh ==> b.phase == Fresh;
    PinsFollow(s.groups, s.parent, g, b, s.groups[g := b]);
  }

  lemma ReleasedPins(s: State, g: nat)
    requires Ok(s) && g in s.groups && s.groups[g].released
    ensures s.groups[g].ext == 0 && s.groups[g].pin == 0
  {
    hide Linked, Ordered, Housed;
  }

  lemma AllocKeeps(s: State, g: nat, p: nat)
    requires Ok(s) && Enabled(s, CssAlloc(g, p))
    ensures Ok(After(s, CssAlloc(g, p)))
  {
    hide Linked, Ordered, Pinned;
    var t := After(s, CssAlloc(g, p));
    AllocPins(s, g, p);
    AllocOrder(s, g, p);
  }

  lemma AllocPins(s: State, g: nat, p: nat)
    requires Ok(s) && Enabled(s, CssAlloc(g, p))
    ensures var t := After(s, CssAlloc(g, p)); Pinned(t.groups, t.parent)
  {
    hide Linked, Ordered, Housed, Phased, Holders;
    var t := After(s, CssAlloc(g, p));
    forall x | x in t.groups ensures Holders(t.groups, t.parent, x) == if x == g then {}
        else Holders(s.groups, s.parent, x) {
      AllocHolders(s, g, p, x);
    }
  }

  lemma AllocHolders(s: State, g: nat, p: nat, x: nat)
    requires Ok(s) && Enabled(s, CssAlloc(g, p)) && (x == g || x in s.groups)
    ensures var t := After(s, CssAlloc(g, p));
            Holders(t.groups, t.parent, x) == if x == g then {} else Holders(s.groups, s.parent, x)
  {
    hide Linked, Ordered, Housed, Phased, Pinned;
  }

  lemma AllocOrder(s: State, g: nat, p: nat)
    requires Ok(s) && Enabled(s, CssAlloc(g, p))
    ensures Ordered(s.parent[g := p], s.lists)
  {
    hide NoDup, Pinned, Phased;
    forall q ensures ParentLater(s.parent[g := p], At(s.lists, q)) {
      assert ParentLater(s.parent, At(s.lists, q));
      assert g !in At(s.lists, q);
    }
  }

  lemma OnlineKeeps(s: State, g: nat)
    requires Ok(s) && Enabled(s, CssOnline(g))
    ensures Ok(After(s, CssOnline(g)))
    ensures g in s.parent ==> s.parent[g] in s.groups && 0 < s.groups[s.parent[g]].pin
  {
    hide Linked, Ordered, Pinned, Phased, Tree;
    OnlinePins(s, g);
    OnlinePhases(s, g);
    FreshOpen(s, g);
  }

  lemma OnlinePins(s: State, g: nat)
    requires Ok(s) && Enabled(s, CssOnline(g))
    ensures var t := After(s, CssOnline(g)); Pinned(t.groups, t.parent)
  {
    hide Linked, Ordered, Pinned, Holders, Housed, Phased;
    FreshOpen(s, g);
    PinsFollow(s.groups, s.parent, g, s.groups[g].(phase := Live, online := true), After(s, CssOnline(g)).groups);
  }

  lemma FreshOpen(s: State, g: nat)
    requires Ok(s) && g in s.groups && s.groups[g].phase == Fresh
    ensures !s.groups[g].released
  {
    hide Linked, Ordered, Pinned, Housed;
  }

  lemma OnlinePhases(s: State, g: nat)
    requires Ok(s) && Enabled(s, CssOnline(g))
    ensures var t := After(s, CssOnline(g)); Phased(t.groups, t.parent) && Tree(t.groups, t.parent, t.depth)
    ensures g in s.parent ==> s.parent[g] in s.groups && 0 < s.groups[s.parent[g]].pin
  {
    hide Linked, Ordered, Pinned, Housed;
    if g in s.parent {
      LivePinned(s, s.parent[g]);
    }
  }

  lemma LivePinned(s: State, g: nat)
    requires Ok(s) && g in s.groups && s.groups[g].online
    ensures 0 < s.groups[g].pin && !s.groups[g].released && s.groups[g].phase == Live
  {
    hide Linked, Ordered, Housed;
  }

  lemma DropChildKeeps(s: State, g: nat)
    requires Ok(s) && Enabled(s, DropChild(g))
    ensures Ok(After(s, DropChild(g))) && 0 < s.groups[s.parent[g]].pin
  {
    hide Linked, Ordered, Pinned, Holders, Phased;
    HolderPins(s, g);
    DropChildPins(s, g);
    DropChildPhases(s, g);
  }

  lemma DropChildPhases(s: State, g: nat)
    requires Ok(s) && Enabled(s, DropChild(g))
    ensures var t := After(s, DropChild(g)); Phased(t.groups, t.parent)
  {
    hide Linked, Ordered, Pinned, Holders, Housed;
    HolderPins(s, g);
  }

  lemma DropChildPins(s: State, g: nat)
    requires Ok(s) && Enabled(s, DropChild(g))
    ensures var t := After(s, DropChild(g)); Pinned(t.groups, t.parent)
  {
    hide Linked, Ordered, Pinned, Holders, Housed, Phased;
    PinsFollow(s.groups, s.parent, g, s.groups[g].(released := true), After(s, DropChild(g)).groups);
  }

  lemma HolderPins(s: State, g: nat)
    requires Ok(s) && g in s.parent && Holds(s.groups[g])
    ensures OwnPins(s.groups[s.parent[g]]) < s.groups[s.parent[g]].pin
  {
    hide Linked, Ordered, Housed, Phased, Holds;
    var hs := Holders(s.groups, s.parent, s.parent[g]);
    assert g in hs;
    assert hs != {};
  }

  lemma CreateKeeps(s: State, q: nat, g: nat)
    requires Ok(s) && Enabled(s, Create(q, g))
    ensures Ok(After(s, Create(q, g)))
  {
    hide Pinned, Phased, Linked, Ordered;
    LivePinned(s, g);
    CreateLinks(s, q, g);
    CreateOrder(s, q, g);
  }

  lemma Pushed(list: seq<nat>, g: nat)
    requires NoDup(list) && g !in list
    ensures NoDup([g] + list) && forall x :: x in [g] + list <==> x in list || x == g
  {
  }

  lemma CreateLinks(s: State, q: nat, g: nat)
    requires Ok(s) && Enabled(s, Create(q, g))
    ensures var t := After(s, Create(q, g)); Linked(t.lists, t.owned)
  {
    hide Pinned, Phased, Ordered, Housed, NoDup;
    var t := After(s, Create(q, g));
    Pushed(At(s.lists, q), g);
    Pushed(At(s.owned, g), q);
    assert q !in At(s.owned, g);
    AtChange(s.lists, q, [g] + At(s.lists, q), t.lists);
    AtChange(s.owned, g, [q] + At(s.owned, g), t.owned);
  }

  lemma CreateOrder(s: State, q: nat, g: nat)
    requires Ok(s) && Enabled(s, Create(q, g))
    ensures Ordered(s.parent, After(s, Create(q, g)).lists)
  {
    hide Pinned, Phased, Linked, Housed;
    var list := At(s.lists, q);
    assert ParentLater(s.parent, list);
    AtChange(s.lists, q, [g] + list, After(s, Create(q, g)).lists);
    ParentBehind(s.parent, list, g);
  }

  lemma ParentBehind(parent: map<nat, nat>, list: seq<nat>, g: nat)
    requires ParentLater(parent, list) && (g in parent ==> parent[g] in list)
    ensures ParentLater(parent, [g] + list)
  {
    var l := [g] + list;
    forall i | 0 <= i < |l| && l[i] in parent ensures parent[l[i]] in l[i + 1..] {
      assert i == 0 ==> l[1..] == list;
      assert i > 0 ==> l[i + 1..] == list[i..] && l[i] == list[i - 1];
    }
  }

  /** Taking a blkg off a list keeps the order, if no child of it is left there. */
  lemma DestroyKeeps(s: State, q: nat, g: nat)
    requires Ok(s) && Enabled(s, Destroy(q, g))
    ensures Ok(After(s, Destroy(q, g)))
  {
    hide Pinned, Phased, Linked, Ordered;
    DestroyLinks(s, q, g);
    Childless(s, q, g);
    DestroyOrder(s, q, g);
  }

  lemma DestroyLinks(s: State, q: nat, g: nat)
    requires Ok(s) && Enabled(s, Destroy(q, g))
    ensures var t := After(s, Destroy(q, g)); Linked(t.lists, t.owned) && Housed(t.groups, t.owned)
  {
    hide Pinned, Phased, Ordered, NoDup, Unlinked;
    UnlinkedHas(At(s.lists, q), g);
    UnlinkedHas(At(s.owned, g), q);
    var t := After(s, Destroy(q, g));
    AtChange(s.lists, q, Unlinked(At(s.lists, q), g), t.lists);
    AtChange(s.owned, g, Unlinked(At(s.owned, g), q), t.owned);
    assert At(s.owned, g) != [];
  }

  /** A blkg that blkg_destroy may take away has no child on its list. */
  lemma Childless(s: State, q: nat, g: nat)
    requires Ok(s) && Enabled(s, Destroy(q, g))
    ensures forall c :: c in At(s.lists, q) && c in s.parent ==> s.parent[c] != g
  {
    hide Pinned, Ordered;
    var list := At(s.lists, q);
    forall c | c in list && c in s.parent ensures s.parent[c] != g {
      assert q in At(s.owned, c);
      HeadChildless(s, q, c);
      if s.groups[s.parent[c]].pin == 0 {
        UnpinnedChild(s, c);
      }
    }
  }

  lemma HeadChildless(s: State, q: nat, c: nat)
    requires Ok(s) && c in At(s.lists, q) && c in s.parent
    ensures s.parent[c] != At(s.lists, q)[0]
  {
    hide Pinned, Phased, Housed;
    var list := At(s.lists, q);
    var i :| 0 <= i < |list| && list[i] == c;
    assert ParentLater(s.parent, list);
    var j :| i + 1 <= j < |list| && list[j] == s.parent[c];
    assert NoDup(list);
  }

  lemma DestroyOrder(s: State, q: nat, g: nat)
    requires Ok(s) && Enabled(s, Destroy(q, g))
    requires forall c :: c in At(s.lists, q) && c in s.parent ==> s.parent[c] != g
    ensures Ordered(s.parent, After(s, Destroy(q, g)).lists)
  {
    hide Pinned, Phased, Housed, NoDup, Unlinked;
    assert ParentLater(s.parent, At(s.lists, q));
    AtChange(s.lists, q, Unlinked(At(s.lists, q), g), After(s, Destroy(q, g)).lists);
    LaterWithout(s.parent, At(s.lists, q), g);
  }

  lemma {:induction false} LaterWithout(parent: map<nat, nat>, list: seq<nat>, g: nat)
    requires ParentLater(parent, list) && NoDup(list) && forall c :: c in list && c in parent ==> parent[c] != g
    ensures ParentLater(parent, Unlinked(list, g))
  {
    if list != [] {
      var rest := list[1..];
      LaterTail(parent, list);
      if list[0] != g {
        LaterWithout(parent, rest, g);
        UnlinkedHas(rest, g);
        assert list[0] in parent ==> parent[list[0]] in rest && list[0] in list;
        ParentBehind(parent, Unlinked(rest, g), list[0]);
      }
    }
  }

  lemma LaterTail(parent: map<nat, nat>, list: seq<nat>)
    requires ParentLater(parent, list) && list != []
    ensures ParentLater(parent, list[1..])
  {
    var rest := list[1..];
    forall i | 0 <= i < |rest| && rest[i] in parent ensures parent[rest[i]] in rest[i + 1..] {
      assert rest[i + 1..] == list[i + 2..] && rest[i] == list[i + 1];
    }
  }

  // ----- any interleaving -----

  lemma StepKeeps(s: State, e: Step)
    requires Ok(s) && Enabled(s, e)
    ensures Ok(After(s, e)) && forall g :: g in After(s, e).groups ==> 0 <= After(s, e).groups[g].pin
  {
    hide Linked, Ordered, Pinned, Phased, Housed, Tree, Unlinked;
    match e {
      case CssAlloc(g, p) => AllocKeeps(s, g, p);
      case CssOnline(g) => OnlineKeeps(s, g);
      case Kill(g) => KillKeeps(s, g);
      case DropBase(g) => DropBaseKeeps(s, g);
      case PinOnline(g) => PinKeeps(s, g, 1);
      case DropExt(g) => PinKeeps(s, g, -1);
      case DropChild(g) => DropChildKeeps(s, g);
      case Create(q, g) => CreateKeeps(s, q, g);
      case Destroy(q, g) => DestroyKeeps(s, q, g);
      case Die(q) =>
    }
    NoneNegative(After(s, e));
  }

  /** No reference count ever falls below zero. */
  lemma NoneNegative(s: State)
    requires Ok(s)
    ensures forall g :: g in s.groups ==> 0 <= s.groups[g].pin
  {
    hide Linked, Ordered, Phased, Housed, Tree;
  }

  lemma KillKeeps(s: State, g: nat)
    requires Ok(s) && Enabled(s, Kill(g))
    ensures Ok(After(s, Kill(g)))
  {
    hide Linked, Ordered, Pinned, Phased, Housed, Tree, Ok;
    QuietKeeps(s, g, s.groups[g].(online := false));
  }

  lemma DropBaseKeeps(s: State, g: nat)
    requires Ok(s) && Enabled(s, DropBase(g))
    ensures Ok(After(s, DropBase(g)))
  {
    hide Linked, Ordered, Pinned, Housed, Tree;
    QuietKeeps(s, g, s.groups[g].(phase := Offline, pin := s.groups[g].pin - 1));
  }

  lemma PinKeeps(s: State, g: nat, n: int)
    requires Ok(s) && g in s.groups && ((n == 1 && 0 < s.groups[g].pin) || (n == -1 && 0 < s.groups[g].ext))
    ensures Ok(SetGroup(s, g, s.groups[g].(ext := s.groups[g].ext + n, pin := s.groups[g].pin + n)))
  {
    hide Linked, Ordered, Pinned, Housed;
    if s.groups[g].released {
      ReleasedPins(s, g);
    }
    QuietKeeps(s, g, s.groups[g].(ext := s.groups[g].ext + n, pin := s.groups[g].pin + n));
  }

  ghost predicate Takes(s: State, e: Step, t: State) {
    Tree(s.groups, s.parent, s.depth) && Enabled(s, e) && t == After(s, e)
  }

  /** From the root alone. */
  ghost function Boot(root: nat): State {
    State(map[root := Blkcg(Live, true, 1, 0, false)], map[], map[root := 0], map[], map[], {})
  }

  lemma BootOk(root: nat)
    ensures Ok(Boot(root))
  {
    assert Holders(Boot(root).groups, Boot(root).parent, root) == {};
  }

  ghost predicate IsRun(root: nat, run: seq<State>, es: seq<Step>) {
    && |run| == |es| + 1 && run[0] == Boot(root)
    && forall i, j :: 0 <= i < j < |run| && j == i + 1 ==> Takes(run[i], es[i], run[j])
  }

  lemma {:induction false} RunOk(root: nat, run: seq<State>, es: seq<Step>, n: nat)
    requires IsRun(root, run, es) && n < |run|
    ensures Ok(run[n])
  {
    hide Ok, Boot;
    if n == 0 {
      BootOk(root);
    } else {
      RunOk(root, run, es, n - 1);
      assert Takes(run[n - 1], es[n - 1], run[n]);
      StepKeeps(run[n - 1], es[n - 1]);
    }
  }

  /** At every moment of every run: the ancestors of a group on a queue have their groups there too, further back; and a
      blkcg whose last pin is gone has nothing left below it, and nothing can come. */
  lemma EveryRun(root: nat, run: seq<State>, es: seq<Step>, n: nat, q: nat, i: nat, g: nat, p: nat)
    requires IsRun(root, run, es) && n < |run|
    requires Tree(run[n].groups, run[n].parent, run[n].depth)
    requires g in run[n].groups && p in run[n].groups && Above(run[n], p, g) && p != g
    ensures i < |At(run[n].lists, q)| && At(run[n].lists, q)[i] == g ==> p in At(run[n].lists, q)[i + 1..]
    ensures run[n].groups[p].pin == 0 ==> At(run[n].owned, g) == [] && !run[n].groups[g].online
  {
    hide Ok, IsRun;
    var t := run[n];
    RunOk(root, run, es, n);
    if i < |At(t.lists, q)| && At(t.lists, q)[i] == g {
      AncestorsLater(t, q, i, p);
    }
    if t.groups[p].pin == 0 {
      NothingBelow(t, p, g);
    }
  }

  /** Nobody gets onto the list of a dying queue, or onto any list once it has been killed. */
  ghost predicate Closed(s: State, q: nat, g: nat) {
    g !in At(s.lists, q)
    && (q in s.dying || (g in s.groups && s.groups[g].phase != Fresh && !s.groups[g].online))
  }

  lemma StaysClosed(s: State, e: Step, t: State, q: nat, g: nat)
    requires Ok(s) && Takes(s, e, t) && Closed(s, q, g)
    ensures Closed(t, q, g)
  {
    hide Tree, Unlinked, NoDup, Ordered, Pinned, Phased, Housed;
    if e.Destroy? {
      UnlinkedHas(At(s.lists, e.q), e.g);
    }
  }

  /** In any run: a blkg that a dying queue, or a killed blkcg, does not have it will never have. */
  lemma {:induction false} NoneForTheDying(root: nat, run: seq<State>, es: seq<Step>, m: nat, n: nat, q: nat, g: nat)
    requires IsRun(root, run, es) && m <= n < |run| && g !in At(run[m].lists, q)
    requires q in run[m].dying || (g in run[m].groups && run[m].groups[g].phase != Fresh && !run[m].groups[g].online)
    ensures g !in At(run[n].lists, q)
  {
    hide Boot;
    assert Closed(run[m], q, g);
    StayClosed(root, run, es, m, n, q, g);
  }

  lemma {:induction false} StayClosed(root: nat, run: seq<State>, es: seq<Step>, m: nat, n: nat, q: nat, g: nat)
    requires IsRun(root, run, es) && m <= n < |run| && Closed(run[m], q, g)
    ensures Closed(run[n], q, g)
    decreases n
  {
    hide Boot, Closed, Ok;
    if m < n {
      StayClosed(root, run, es, m, n - 1, q, g);
      assert Takes(run[n - 1], es[n - 1], run[n]);
      RunOk(root, run, es, n - 1);
      StaysClosed(run[n - 1], es[n - 1], run[n], q, g);
    }
  }
}
