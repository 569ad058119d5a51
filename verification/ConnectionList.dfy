/**
  The connection list (Source/ConnectionList.cpp): a bounded, scrolled and sorted window over the connection
  storage with a cursor and per-row dirty flags, kept up to date edit by edit.

  `screen` is a ghost: the rows a user interface shows that draws exactly the updates it was given.
*/
module ConnectionLists {
  import opened Numbers
  import opened Options
  import opened Connections
  import opened Ordering
  import opened ListWindow
  import opened ListChanges

  /** The items from position `from` on, flagged for a complete repaint. */
  function Invalidated(list: Items, from: nat): Items {
    seq(|list|, i requires 0 <= i < |list| => if i >= from then list[i].(flags := All, dirty := true) else list[i])
  }

  predicate SameConns(a: Items, b: Items) {
    |a| == |b| && forall i :: 0 <= i < |a| ==> a[i].conn == b[i].conn
  }

  lemma SameConnsKeep(a: Items, b: Items, rk: RankMap)
    requires SameConns(a, b) && Ordered(a, rk)
    ensures Ordered(b, rk) && (TopK(a, rk) <==> TopK(b, rk))
    ensures forall c :: Contains(a, c) <==> Contains(b, c)
  {
    forall c ensures Contains(a, c) <==> Contains(b, c) {
      if Contains(a, c) {
        var i :| 0 <= i < |a| && a[i].conn == c;
        assert b[i].conn == c;
      }
    }
  }

  /** The list after an insertion at idx: cut to `limit` items, and flagged from the first visible moved row on. */
  function Inserted(list: Items, idx: nat, c: Connection, limit: nat, scroll: nat): Items
    requires idx <= |list|
  {
    var n := if |list| < limit then |list| + 1 else |list|;
    Invalidated(InsertAt(list, idx, NewItem(c))[..n], Max(idx, if n > scroll then scroll else 0))
  }

  lemma EnteredSame(old_: Items, a: Items, b: Items, rk: RankMap, c: Connection, limit: nat)
    requires Entered(old_, a, rk, c, limit) && SameConns(a, b)
    ensures Entered(old_, b, rk, c, limit)
  {
    SameConnsKeep(a, b, rk);
    hide Contains;
  }

  lemma InsertedOk(list: Items, rk: RankMap, idx: nat, c: Connection, limit: nat, scroll: nat)
    requires Enters(list, rk, c, limit) && IsUpperBound(list, rk, idx, c)
    ensures Entered(list, Inserted(list, idx, c, limit, scroll), rk, c, limit)
  {
    InsertAdmits(list, rk, idx, NewItem(c), limit);
    var cut := InsertAt(list, idx, NewItem(c))[..if |list| < limit then |list| + 1 else |list|];
    hide Entered, InsertAt, Ordered;
    EnteredSame(list, cut, Inserted(list, idx, c, limit, scroll), rk, c, limit);
  }

  /** Rows before the insertion are as they were; the others are flagged. */
  lemma InsertedShows(s: Screen, w: World, list: Items, idx: nat, c: Connection, limit: nat, scroll: nat, cursor: nat, refresh: bool)
    requires Shows(s, w, list, scroll, cursor, refresh) && idx <= |list|
    ensures Shows(s, w, Inserted(list, idx, c, limit, scroll), scroll, cursor, true)
  {
    var b := Inserted(list, idx, c, limit, scroll);
    forall i | scroll <= i < |b| ensures RowOk(s, w, b[i], i - scroll, i - scroll == cursor) {
      if i < Max(idx, scroll) { assert b[i] == list[i]; }
    }
  }

  lemma NotedShows(s: Screen, w: World, list: Items, scroll: nat, cursor: nat, refresh: bool)
    requires Shows(s, w, list, scroll, cursor, refresh)
    ensures Shows(s, w, list, scroll, cursor, true)
  {
  }

  /** Sorting one more item: it goes in front of the first item that it precedes. */
  lemma SortStep(items: Items, sorted: Items, rk: RankMap, idx: nat, i: nat)
    requires i < |items| && |sorted| == i && idx <= i && Known(items, rk) && Distinct(items)
    requires Ordered(sorted, rk) && forall c :: Contains(sorted, c) <==> Contains(items[..i], c)
    requires forall k :: 0 <= k < idx ==> rk[sorted[k].conn] <= rk[items[i].conn]
    requires idx < i ==> rk[items[i].conn] < rk[sorted[idx].conn]
    ensures var r := InsertAt(sorted, idx, items[i]);
      Ordered(r, rk) && forall c :: Contains(r, c) <==> Contains(items[..i + 1], c)
  {
    var r := InsertAt(sorted, idx, items[i]);
    assert !Contains(items[..i], items[i].conn);
    assert IsUpperBound(sorted, rk, idx, items[i].conn);
    InsertOrdered(sorted, rk, idx, items[i]);
    assert items[..i + 1] == InsertAt(items[..i], i, items[i]);
    forall c ensures Contains(r, c) <==> Contains(items[..i + 1], c) {
      InsertContents(sorted, idx, items[i], c);
      InsertContents(items[..i], i, items[i], c);
    }
  }

  /** The list without its item at idx, if there is one; the visible items after it are flagged. */
  function Erased(list: Items, idx: nat, scroll: nat): Items
    requires idx <= |list|
  {
    var b := if idx < |list| then EraseAt(list, idx) else list;
    Invalidated(b, Max(idx, if |b| > scroll then scroll else |b|))
  }

  lemma ErasedOk(list: Items, rk: RankMap, idx: nat, scroll: nat, c: Connection)
    requires Ordered(list, rk) && idx <= |list|
    requires if idx < |list| then list[idx].conn == c else !Contains(list, c)
    ensures Ordered(Erased(list, idx, scroll), rk) && |Erased(list, idx, scroll)| <= |list|
    ensures forall d :: Contains(Erased(list, idx, scroll), d) <==> Contains(list, d) && d != c
  {
    var b := if idx < |list| then EraseAt(list, idx) else list;
    if idx < |list| { EraseOrdered(list, rk, idx); }
    SameConnsKeep(b, Erased(list, idx, scroll), rk);
  }

  /** Rows before an erased item are as they were; the others are flagged. */
  lemma ErasedShows(s: Screen, w: World, list: Items, idx: nat, scroll: nat, cursor: nat)
    requires Shows(s, w, list, scroll, cursor, true) && idx <= |list|
    ensures Shows(s, w, Erased(list, idx, scroll), scroll, cursor, true)
  {
    var b := Erased(list, idx, scroll);
    forall i | scroll <= i < |b| ensures RowOk(s, w, b[i], i - scroll, i - scroll == cursor) {
      if i < idx { assert b[i] == list[i]; }
    }
  }

  lemma PrefixShows(s: Screen, w: World, list: Items, n: nat, scroll: nat, cursor: nat, refresh: bool)
    requires Shows(s, w, list, scroll, cursor, refresh) && n <= |list|
    ensures Shows(s, w, list[..n], scroll, cursor, refresh)
  {
  }

  /** An edit that flags one row and moves the cursor there from a row that is flagged or gone. */
  lemma CursorMoved(s: Screen, w: World, list: Items, list': Items, scroll: nat, cursor: nat, pos: nat, refresh: bool)
    requires Shows(s, w, list, scroll, cursor, refresh) && |list'| == |list|
    requires forall i :: 0 <= i < |list| && i != scroll + pos ==> list'[i] == list[i]
    requires scroll + pos < |list| ==> list'[scroll + pos] == list[scroll + pos].(flags := All, dirty := true)
    requires scroll + cursor < |list| && cursor != pos ==> list[scroll + cursor].flags.All? && list[scroll + cursor].dirty
    ensures Shows(s, w, list', scroll, pos, true)
  {
    assert Shows(s, w, list', scroll, cursor, true);
    CursorShows(s, w, list', scroll, cursor, pos, true);
  }

  lemma NoneShown(s: Screen, w: World, list: Items, scroll: nat, cursor: nat, refresh: bool)
    requires |list| <= scroll
    ensures Shows(s, w, list, scroll, cursor, refresh)
  {
  }

  lemma ListedShrink(
    s: Screen, w: World, w': World, mode: SortMode, list: Items, scroll: nat, cursor: nat, c: Connection)
    requires ShrinksBy(w, w', c) && Ordered(list, Ranks(w', mode)) && Shows(s, w, list, scroll, cursor, true)
    ensures Shows(s, w', list, scroll, cursor, true)
  {
    hide Ranks, SameData, RowOk;
    WorldShows(s, w, w', list, scroll, cursor, true);
  }

  lemma ContainsAt(list: Items, i: nat)
    requires i < |list|
    ensures Contains(list, list[i].conn)
  {
  }

  lemma EmptyOk(s: Screen, w: World, rk: RankMap, scroll: nat, cursor: nat)
    ensures Ordered([], rk) && TopK([], rk) && forall refresh :: Shows(s, w, [], scroll, cursor, refresh)
  {
  }

  /** What the resolver adds to the flags of the connection in detail. */
  function DetailFlagged(flags: Flags, detail: Option<Connection>, u: Users): Flags {
    if detail.Some? && Uses(u, detail.value) then Or(flags, Only(UsedColumns(u, detail.value))) else flags
  }

  /** Every column of the connection in detail that shows something new is flagged. */
  ghost predicate DetailFollows(w: World, w': World, detail: Option<Connection>, flags: Flags) {
    detail.Some? ==> SameColumns(w, w', detail.value, flags)
  }

  lemma ResolvedDetail(w: World, w': World, mode: SortMode, u: Users, affects: bool, detail: Option<Connection>, flags: Flags)
    requires Resolves(w, w', mode, u, affects) && (detail.Some? ==> detail.value in w.conns)
    ensures DetailFollows(w, w', detail, DetailFlagged(flags, detail, u))
  {
    hide Less, SameData, Shown;
    if detail.Some? && !Uses(u, detail.value) {
      forall col ensures Shown(w', detail.value, col) == Shown(w, detail.value, col) { ShownSame(w, w', detail.value, col); }
    }
  }

  lemma UpdatedDetail(w: World, c: Connection, u: ConnectionData, flags: int, detail: Option<Connection>, before: Flags)
    requires c in w.conns
    ensures DetailFollows(w, Patched(w, c, u, flags), detail,
      if detail == Some(c) && ColumnsOf(flags) != {} then Only(ColumnsOf(flags)) else before)
  {
    hide ColumnsOf, Patch, Shown, SameData;
    if detail.Some? {
      forall col ensures (detail == Some(c) && Marks(Only(ColumnsOf(flags)), col)) ||
        Shown(Patched(w, c, u, flags), detail.value, col) == Shown(w, detail.value, col)
      {
        if detail == Some(c) {
          PatchedColumn(w, c, u, flags, col);
        } else {
          OtherUnpatched(w, c, u, flags, detail.value);
          ShownSame(w, Patched(w, c, u, flags), detail.value, col);
        }
      }
    }
  }

  lemma SameDetail(w: World, detail: Option<Connection>, flags: Flags)
    ensures DetailFollows(w, w, detail, flags)
  {
  }

  lemma OtherUnpatched(w: World, c: Connection, u: ConnectionData, flags: int, d: Connection)
    requires c in w.conns && d != c
    ensures SameData(w, Patched(w, c, u, flags), d)
  {
  }

  lemma FlagTwice(f: Flags, u: Users, c: Connection)
    ensures c in u.src && c in u.dst ==>
      Or(Or(f, Only({u.srcColumn})), Only({u.dstColumn})) == Or(f, Only(UsedColumns(u, c)))
    ensures c in u.src && c !in u.dst ==> Or(f, Only({u.srcColumn})) == Or(f, Only(UsedColumns(u, c)))
    ensures c !in u.src && c in u.dst ==> Or(f, Only({u.dstColumn})) == Or(f, Only(UsedColumns(u, c)))
  {
    if f.Only? {
      assert f.columns + {u.srcColumn} + {u.dstColumn} == f.columns + ({u.srcColumn} + {u.dstColumn});
    }
  }

  lemma FirstOk(s: Screen, w: World, c: Connection, rk: RankMap, scroll: nat, cursor: nat)
    requires c in rk
    ensures forall limit: nat :: limit > 0 ==> Filling([NewItem(c)], rk, {}, limit)
    ensures Shows(s, w, [NewItem(c)], scroll, cursor, true)
  {
  }

  lemma PushedShows(s: Screen, w: World, list: Items, c: Connection, scroll: nat, cursor: nat)
    requires Shows(s, w, list, scroll, cursor, true)
    ensures Shows(s, w, list + [NewItem(c)], scroll, cursor, true)
  {
  }

  class ConnectionList {
    var world: World
    var mode: SortMode
    var list: Items
    var targetSize: nat
    var scrollOffset: nat
    var cursorPos: nat
    var detail: Option<Connection>
    var detailFlags: Flags
    var isRefreshRequired: bool
    ghost var screen: Screen

    // -------------------------------------------------------------- reading

    function Size(): nat
      reads this`list, this`scrollOffset
    {
      if |list| > scrollOffset then |list| - scrollOffset else 0
    }

    function CursorMaxPos(): nat
      reads this`list, this`scrollOffset
    {
      if Size() > 0 then Size() - 1 else 0
    }

    /** getListBeginIndex: 0, not the end, when nothing is visible. */
    function BeginIndex(): nat
      reads this`list, this`scrollOffset
    {
      if |list| > scrollOffset then scrollOffset else 0
    }

    /** The position of getListBeginIt. */
    function BeginPos(): nat
      reads this`list, this`scrollOffset
    {
      if |list| > scrollOffset then scrollOffset else |list|
    }

    /** m_compareFunc. */
    predicate Before(a: Connection, b: Connection)
      reads this`world, this`mode
    {
      Less(world, mode, a, b)
    }

    // -------------------------------------------------------------- invariant

    ghost function Rk(): RankMap
      reads this`world, this`mode
    {
      Ranks(world, mode)
    }

    ghost predicate ListOk()
      reads this`world, this`mode, this`list, this`scrollOffset, this`targetSize
    {
      Ordered(list, Rk()) && |list| <= scrollOffset + targetSize
    }

    /** While rows are wanted, the list is as long as storage and window allow. */
    ghost predicate LengthOk()
      reads this`world, this`list, this`scrollOffset, this`targetSize
    {
      targetSize > 0 ==> |list| == Min(|world.conns|, scrollOffset + targetSize)
    }

    ghost predicate CursorOk()
      reads this`list, this`scrollOffset, this`cursorPos
    {
      if Size() > 0 then cursorPos < Size() else cursorPos == 0
    }

    ghost predicate DetailOk()
      reads this`world, this`detail
    {
      detail.Some? ==> detail.value in world.conns
    }

    ghost predicate ScreenOk()
      reads this`world, this`list, this`scrollOffset, this`cursorPos, this`isRefreshRequired, this`screen
    {
      Shows(screen, world, list, scrollOffset, cursorPos, isRefreshRequired)
    }

    /** As ScreenOk, but with the note that something must be refreshed taken as made. */
    ghost predicate RowsOk()
      reads this`world, this`list, this`scrollOffset, this`cursorPos, this`screen
    {
      Shows(screen, world, list, scrollOffset, cursorPos, true)
    }

    ghost predicate Valid()
      reads this
    {
      ListOk() && LengthOk() && CursorOk() && DetailOk() && ScreenOk()
    }

    /** No stored connection outside the list comes before its last item. */
    ghost predicate HasTop()
      reads this`world, this`mode, this`list
    {
      Ordered(list, Rk()) && TopK(list, Rk())
    }

    constructor ()
      ensures Valid() && HasTop() && list == [] && world == World(map[], map[], map[])
      ensures targetSize == scrollOffset == cursorPos == 0 && detail == None && mode == SortMode(ByNone, false)
      ensures screen == map[]
    {
      world, mode, list := World(map[], map[], map[]), SortMode(ByNone, false), [];
      targetSize, scrollOffset, cursorPos := 0, 0, 0;
      detail, detailFlags, isRefreshRequired := None, NO_FLAGS, true;
      screen := map[];
    }

    // -------------------------------------------------------------- private edits

    method ContainsItem(c: Connection) returns (found: bool)
      ensures found <==> Contains(list, c)
    {
      var i := 0;
      while i < |list|
        invariant 0 <= i <= |list|
        invariant forall k :: 0 <= k < i ==> list[k].conn != c
      {
        if list[i].conn == c { return true; }
        i := i + 1;
      }
      return false;
    }

    /** The position of the connection's item, or the end. */
    method IndexOf(c: Connection) returns (i: nat)
      ensures i <= |list| && if i < |list| then list[i].conn == c else !Contains(list, c)
    {
      i := 0;
      while i < |list| && list[i].conn != c
        invariant 0 <= i <= |list|
        invariant forall k :: 0 <= k < i ==> list[k].conn != c
      {
        i := i + 1;
      }
    }

    /** Flags the items from a position on for a complete repaint. */
    method Invalidate(from: nat)
      modifies this`list
      ensures list == Invalidated(old(list), from)
    {
      var i := from;
      while i < |list|
        invariant |list| == |old(list)|
        invariant forall k :: 0 <= k < |list| ==>
          list[k] == if from <= k < i then old(list)[k].(flags := All, dirty := true) else old(list)[k]
      {
        list := list[i := list[i].(flags := All, dirty := true)];
        i := i + 1;
      }
    }

    method InvalidateAllVisible()
      modifies this`list, this`isRefreshRequired
      ensures list == Invalidated(old(list), old(BeginPos())) && isRefreshRequired
      ensures SameConns(old(list), list) && ScreenOk()
      ensures old(ListOk()) ==> ListOk() && (HasTop() <==> old(HasTop()))
    {
      hide Ranks, Less, Contains, Sorted, Distinct, TopK, Shown;
      Invalidate(BeginPos());
      isRefreshRequired := true;
      if old(ListOk()) { SameConnsKeep(old(list), list, Rk()); }
    }

    /** std::upper_bound on the sorted list. */
    method UpperBound(c: Connection) returns (idx: nat)
      requires Ordered(list, Rk()) && c in world.conns
      ensures idx <= |list| && IsUpperBound(list, Rk(), idx, c)
    {
      hide Ranks, Less, Distinct;
      ghost var rk := Rk();
      var lo, hi := 0, |list|;
      while lo < hi
        invariant 0 <= lo <= hi <= |list|
        invariant forall i :: 0 <= i < lo ==> rk[list[i].conn] <= rk[c]
        invariant forall i :: hi <= i < |list| ==> rk[c] < rk[list[i].conn]
      {
        var mid := (lo + hi) / 2;
        RankDecides(world, mode, c, list[mid].conn);
        if Before(c, list[mid].conn) { hi := mid; } else { lo := mid + 1; }
      }
      idx := lo;
    }

    /** Inserts at a position, drops the last item if that is one too many, and flags what moved. */
    method InsertAtPosition(idx: nat, c: Connection)
      requires idx <= |list| <= scrollOffset + targetSize
      modifies this`list, this`isRefreshRequired
      ensures list == Inserted(old(list), idx, c, scrollOffset + targetSize, scrollOffset) && isRefreshRequired
    {
      list := InsertAt(list, idx, NewItem(c));
      if Size() > targetSize {
        list := list[..|list| - 1];
      }
      Invalidate(Max(idx, BeginIndex()));
      isRefreshRequired := true;
    }

    method InsertItem(c: Connection)
      requires Enters(list, Rk(), c, scrollOffset + targetSize)
      modifies this`list, this`isRefreshRequired
      ensures Entered(old(list), list, Rk(), c, scrollOffset + targetSize) && isRefreshRequired
      ensures old(RowsOk()) ==> ScreenOk()
    {
      hide Ranks, Shows, Ordered, Contains, LastRank, Entered, Inserted, IsUpperBound;
      var idx := UpperBound(c);
      InsertedOk(list, Rk(), idx, c, scrollOffset + targetSize, scrollOffset);
      if RowsOk() {
        InsertedShows(screen, world, list, idx, c, scrollOffset + targetSize, scrollOffset, cursorPos, true);
      }
      InsertAtPosition(idx, c);
    }

    /** Fills the window from the storage, unless it is full or holds every connection already. */
    method Fill()
      requires ListOk()
      modifies this`list, this`isRefreshRequired
      ensures ListOk() && LengthOk() && |list| >= |old(list)|
      ensures old(RowsOk()) ==> RowsOk()
      ensures old(ScreenOk()) ==> ScreenOk()
      ensures if targetSize <= old(Size()) || |world.conns| <= |old(list)|
        then list == old(list) && isRefreshRequired == old(isRefreshRequired)
        else HasTop()
    {
      hide Ranks, Shows, Contains, LastRank, Entered, Less, Sorted, Distinct, TopK;
      ghost var rk, limit := Rk(), scrollOffset + targetSize;
      Bounded(list, rk);
      if ScreenOk() { NotedShows(screen, world, list, scrollOffset, cursorPos, isRefreshRequired); }
      if targetSize <= Size() || |world.conns| <= |list| { return; }
      if list == [] {
        assert world.conns.Keys != {};
        var c :| c in world.conns.Keys;
        FirstOk(screen, world, c, rk, scrollOffset, cursorPos);
        list := [NewItem(c)];
      }
      FillFrom(rk, limit);
      isRefreshRequired := true;
      Filled(list, rk, limit);
    }

    /** The loop of fill: every connection of the storage, in any order. */
    method FillFrom(ghost rk: RankMap, ghost limit: nat)
      requires rk == Rk() && limit == scrollOffset + targetSize && targetSize > 0 && Filling(list, rk, {}, limit)
      modifies this`list, this`isRefreshRequired
      ensures Filling(list, rk, rk.Keys, limit) && |list| >= |old(list)|
      ensures old(RowsOk()) ==> RowsOk()
    {
      hide Ranks, Shows, Contains, LastRank, Entered, Less, Ordered, Filling;
      var rest := world.conns.Keys;
      assert world.conns.Keys - rest == {};
      while rest != {}
        invariant rest <= world.conns.Keys
        invariant Filling(list, rk, world.conns.Keys - rest, limit)
        invariant |list| >= |old(list)|
        invariant old(RowsOk()) ==> RowsOk()
        decreases |rest|
      {
        var c :| c in rest;
        ghost var visited := world.conns.Keys - rest;
        rest := rest - {c};
        assert world.conns.Keys - rest == visited + {c};
        FillOne(c, rk, visited, limit);
      }
      assert world.conns.Keys - rest == rk.Keys;
    }

    method FillOne(c: Connection, ghost rk: RankMap, ghost visited: set<Connection>, ghost limit: nat)
      requires rk == Rk() && limit == scrollOffset + targetSize && targetSize > 0 && Filling(list, rk, visited, limit)
      requires c in world.conns
      modifies this`list, this`isRefreshRequired
      ensures Filling(list, rk, visited + {c}, limit) && |list| >= |old(list)|
      ensures old(RowsOk()) ==> RowsOk()
    {
      hide Ranks, Shows, Contains, Less;
      RankDecides(world, mode, c, list[|list| - 1].conn);
      var found := ContainsItem(c);
      if Before(c, list[|list| - 1].conn) {
        if !found {
          ghost var before := list;
          InsertItem(c);
          FillInsert(before, list, rk, visited, c, limit);
          return;
        }
      } else if Size() < targetSize {
        if !found {
          FillPush(list, rk, visited, c, limit);
          if RowsOk() { PushedShows(screen, world, list, c, scrollOffset, cursorPos); }
          list := list + [NewItem(c)];
          return;
        }
      }
      FillSkip(list, rk, visited, c, limit);
    }

    /** std::sort with the current comparator: some ordered arrangement of the same items. */
    method SortItems(items: Items) returns (sorted: Items)
      requires Known(items, Rk()) && Distinct(items)
      ensures Ordered(sorted, Rk()) && |sorted| == |items| && forall c :: Contains(sorted, c) <==> Contains(items, c)
    {
      hide Ranks, Less;
      sorted := [];
      ghost var rk := Rk();
      for i := 0 to |items|
        invariant |sorted| == i && Ordered(sorted, rk)
        invariant forall c :: Contains(sorted, c) <==> Contains(items[..i], c)
      {
        var idx := 0;
        while idx < |sorted| && !Before(items[i].conn, sorted[idx].conn)
          invariant 0 <= idx <= |sorted|
          invariant forall k :: 0 <= k < idx ==> rk[sorted[k].conn] <= rk[items[i].conn]
        {
          RankDecides(world, mode, items[i].conn, sorted[idx].conn);
          idx := idx + 1;
        }
        if idx < i { RankDecides(world, mode, items[i].conn, sorted[idx].conn); }
        SortStep(items, sorted, rk, idx, i);
        sorted := InsertAt(sorted, idx, items[i]);
      }
      assert items[..|items|] == items;
    }

    method Sort()
      requires Known(list, Rk()) && Distinct(list) && |list| <= scrollOffset + targetSize
      modifies this`list, this`isRefreshRequired
      ensures ListOk() && |list| == |old(list)| && (forall c :: Contains(list, c) <==> Contains(old(list), c))
      ensures ScreenOk() && isRefreshRequired
    {
      hide Ranks, Shows, Less;
      list := SortItems(list);
      ghost var sorted := list;
      InvalidateAllVisible();
      SameConnsKeep(sorted, list, Rk());
    }

    method InvalidateCursor()
      requires CursorOk()
      modifies this`list, this`isRefreshRequired
      ensures |list| == |old(list)| && SameConns(old(list), list)
      ensures forall i :: 0 <= i < |list| && i != scrollOffset + cursorPos ==> list[i] == old(list)[i]
      ensures var k := scrollOffset + cursorPos;
        k < |list| ==> isRefreshRequired && list[k] == old(list)[k].(flags := All, dirty := true)
      ensures old(isRefreshRequired) ==> isRefreshRequired
      ensures |list| <= scrollOffset ==> isRefreshRequired == old(isRefreshRequired)
      ensures old(Valid()) ==> Valid() && (HasTop() <==> old(HasTop()))
    {
      hide Ranks, Shows, Less, Contains, Sorted, Distinct, TopK, Known;
      var it := BeginPos();
      if it < |list| {
        it := it + cursorPos;
        list := list[it := list[it].(flags := All, dirty := true)];
        isRefreshRequired := true;
      }
      if old(Valid()) {
        CursorMoved(screen, world, old(list), list, scrollOffset, cursorPos, cursorPos, old(isRefreshRequired));
        SameConnsKeep(old(list), list, Rk());
        if |list| <= scrollOffset { NoneShown(screen, world, list, scrollOffset, cursorPos, isRefreshRequired); }
      }
    }

    /** `m_cursorPos = pos; invalidateCursor()` when the row the cursor leaves is flagged or gone. */
    method PutCursor(pos: nat)
      requires ListOk() && RowsOk() && (if Size() > 0 then pos < Size() else pos == 0)
      requires scrollOffset + cursorPos < |list| && cursorPos != pos ==>
        list[scrollOffset + cursorPos].flags.All? && list[scrollOffset + cursorPos].dirty
      modifies this`list, this`isRefreshRequired, this`cursorPos
      ensures ListOk() && CursorOk() && RowsOk() && cursorPos == pos && SameConns(old(list), list) && |list| == |old(list)|
      ensures Size() > 0 || old(isRefreshRequired) ==> isRefreshRequired
      ensures HasTop() <==> old(HasTop())
    {
      hide Ranks, Shows, RowOk, Contains, Distinct, Sorted, TopK;
      ghost var before, was := list, cursorPos;
      cursorPos := pos;
      InvalidateCursor();
      CursorMoved(screen, world, before, list, scrollOffset, was, pos, true);
      SameConnsKeep(before, list, Rk());
    }

    // -------------------------------------------------------------- IConnectionUpdateCallback

    method Add(c: Connection, d: ConnectionData)
      requires Valid()
      modifies this`world, this`list, this`isRefreshRequired
      ensures Valid() && (old(HasTop()) ==> HasTop())
      ensures world == if c in old(world).conns then old(world) else old(world).(conns := old(world).conns[c := d])
      ensures c in old(world).conns ==> list == old(list) && isRefreshRequired == old(isRefreshRequired)
    {
      if c !in world.conns { AddNew(c, d); }
    }

    method AddNew(c: Connection, d: ConnectionData)
      requires Valid() && c !in world.conns
      modifies this`world, this`list, this`isRefreshRequired
      ensures Valid() && (old(HasTop()) ==> HasTop())
      ensures world == old(world).(conns := old(world).conns[c := d])
    {
      hide Ranks, Shows, Contains, Less, Distinct, Sorted, TopK, TopBut, GrowsBy;
      ghost var w := world;
      AddedGrows(w, c, d);
      Bounded(list, Rk());
      world := world.(conns := world.conns[c := d]);
      WorldGrows(screen, w, world, mode, list, c, scrollOffset, cursorPos, isRefreshRequired);
      if old(HasTop()) { WorldGrowsTop(w, world, mode, list, c); }
      HandleNewConnection(c);
    }

    method HandleNewConnection(c: Connection)
      requires ListOk() && CursorOk() && ScreenOk() && c in world.conns && !Contains(list, c)
      requires targetSize > 0 ==> |list| == Min(|world.conns| - 1, scrollOffset + targetSize)
      modifies this`list, this`isRefreshRequired
      ensures ListOk() && LengthOk() && CursorOk() && ScreenOk()
      ensures old(TopBut(list, Rk(), c)) ==> HasTop()
    {
      hide Ranks, Shows, Contains, Less, Distinct, Sorted, RowOk;
      if list != [] { RankDecides(world, mode, c, list[|list| - 1].conn); }
      NotedShows(screen, world, list, scrollOffset, cursorPos, isRefreshRequired);
      ghost var old_ := list;
      if list != [] && Before(c, list[|list| - 1].conn) {
        InsertItem(c);
        if TopBut(old_, Rk(), c) { EnteredTop(old_, list, Rk(), c, scrollOffset + targetSize); }
      } else if Size() < targetSize {
        PushOrdered(list, Rk(), NewItem(c));
        PushedShows(screen, world, list, c, scrollOffset, cursorPos);
        list := list + [NewItem(c)];
        isRefreshRequired := true;
        Bounded(list, Rk());
      }
    }

    method Remove(c: Connection)
      requires Valid()
      modifies this`world, this`list, this`isRefreshRequired, this`cursorPos, this`detail, this`detailFlags
      ensures Valid() && (old(HasTop()) ==> HasTop())
      ensures world == old(world).(conns := old(world).conns - {c}) && cursorPos == Min(old(cursorPos), CursorMaxPos())
      ensures detail == if old(detail) == Some(c) then None else old(detail)
      ensures detailFlags == if old(detail) == Some(c) then All else old(detailFlags)
      ensures c !in old(world).conns ==> list == old(list) && isRefreshRequired == old(isRefreshRequired)
    {
      if c in world.conns {
        RemoveStored(c);
      } else {
        assert world.conns - {c} == world.conns;
      }
    }

    method RemoveStored(c: Connection)
      requires Valid() && c in world.conns
      modifies this`world, this`list, this`isRefreshRequired, this`cursorPos, this`detail, this`detailFlags
      ensures Valid() && (old(HasTop()) ==> HasTop())
      ensures world == old(world).(conns := old(world).conns - {c}) && cursorPos == Min(old(cursorPos), CursorMaxPos())
      ensures detail == if old(detail) == Some(c) then None else old(detail)
      ensures detailFlags == if old(detail) == Some(c) then All else old(detailFlags)
    {
      hide Ranks, Shows, Contains, Less, Distinct, Sorted, TopK, ShrinksBy, Ordered, Known, SameConns, Patched;
      ghost var w, before := world, list;
      world := world.(conns := world.conns - {c});
      RemovedShrinks(w, c);
      if detail == Some(c) {
        detail, detailFlags := None, All;
      }
      NotedShows(screen, w, list, scrollOffset, cursorPos, isRefreshRequired);
      EraseItem(c, w);
      WorldShrinks(w, world, mode, before, list, c);
      ListedShrink(screen, w, world, mode, list, scrollOffset, cursorPos, c);
      Settle();
    }

    /** The end of handleRemovedConnection: fill the gap and keep the cursor among the visible rows. */
    method Settle()
      requires ListOk() && RowsOk()
      modifies this`list, this`isRefreshRequired, this`cursorPos
      ensures ListOk() && LengthOk() && CursorOk() && ScreenOk() && isRefreshRequired
      ensures cursorPos == Min(old(cursorPos), CursorMaxPos())
      ensures old(HasTop()) ==> HasTop()
    {
      hide Ranks, Shows, Contains, Less, TopK, Ordered, SameConns;
      Fill();
      if cursorPos > CursorMaxPos() {
        PutCursor(CursorMaxPos());
      }
      isRefreshRequired := true;
    }

    /** Erases the connection's item, if it is listed, and flags the visible items after it. */
    method EraseItem(c: Connection, ghost w: World)
      requires Ordered(list, Ranks(w, mode)) && Shows(screen, w, list, scrollOffset, cursorPos, true)
      modifies this`list
      ensures Ordered(list, Ranks(w, mode)) && |list| <= |old(list)|
      ensures forall d :: Contains(list, d) <==> Contains(old(list), d) && d != c
      ensures Shows(screen, w, list, scrollOffset, cursorPos, true)
    {
      hide Ranks, Shows, Less, Ordered;
      var it := IndexOf(c);
      ErasedOk(list, Ranks(w, mode), it, scrollOffset, c);
      ErasedShows(screen, w, list, it, scrollOffset, cursorPos);
      hide Contains;
      EraseAtPosition(it);
    }

    method EraseAtPosition(it: nat)
      requires it <= |list|
      modifies this`list
      ensures list == Erased(old(list), it, scrollOffset)
    {
      if it < |list| {
        list := EraseAt(list, it);
      }
      Invalidate(Max(it, BeginPos()));
    }

    method Clear()
      requires Valid()
      modifies this`world, this`list, this`isRefreshRequired, this`cursorPos, this`detail, this`detailFlags
      ensures Valid() && HasTop() && list == [] && world == old(world).(conns := map[])
      ensures cursorPos == 0 && detail == None && detailFlags == All && isRefreshRequired
    {
      list := [];
      world := world.(conns := map[]);
      cursorPos := 0;
      detail, detailFlags := None, All;
      isRefreshRequired := true;
    }

    /** The UPDATE branch of ConnectionData::Deserialize: patch the stored data, then report the patched fields. */
    method Update(c: Connection, u: ConnectionData, flags: int)
      requires Valid()
      modifies this`world, this`list, this`isRefreshRequired, this`detailFlags
      ensures Valid() && world == if c in old(world).conns then Patched(old(world), c, u, flags) else old(world)
      ensures old(HasTop()) ==> (HasTop() <==> (Contains(old(list), c) ==> NonePrecedes(world, mode, old(list), c)))
      ensures detailFlags ==
        if detail == Some(c) && ColumnsOf(flags) != {} then Only(ColumnsOf(flags)) else old(detailFlags)
      ensures DetailFollows(old(world), world, detail, detailFlags)
    {
      hide Ranks, Shows, Less, TopK, Sorted, Distinct, Changes1, Patched, ColumnsOf, NonePrecedes, DetailFollows;
      SameDetail(world, detail, detailFlags);
      if c in world.conns {
        UpdatedDetail(world, c, u, flags, detail, detailFlags);
        PatchChanges(world, c, u, flags);
        ghost var w := world;
        var columns := ColumnsOf(flags);
        if columns != {} {
          world := Patched(world, c, u, flags);
          DataUpdated(c, Only(columns), w);
        } else {
          NothingPatched(w, c, u, flags);
          if HasTop() && Contains(list, c) { NoneBefore(list, world, mode, c); }
        }
      }
    }

    /** ConnectionList::update, once the data of c has been changed from what it was in w. */
    method DataUpdated(c: Connection, flags: Flags, ghost w: World)
      requires Changes1(w, world, c, flags) && Ordered(list, Ranks(w, mode)) && |list| <= scrollOffset + targetSize
      requires LengthOk() && CursorOk() && DetailOk()
      requires Shows(screen, w, list, scrollOffset, cursorPos, isRefreshRequired)
      modifies this`list, this`isRefreshRequired, this`detailFlags
      ensures Valid()
      ensures TopK(old(list), Ranks(w, mode)) ==>
        (HasTop() <==> (Contains(old(list), c) ==> NonePrecedes(world, mode, old(list), c)))
      ensures detailFlags == if detail == Some(c) then flags else old(detailFlags)
    {
      hide Ranks, Shows, Less, Changes1, Ordered, TopK, Contains, NonePrecedes;
      if detail == Some(c) {
        detailFlags := flags;
      }
      UpdatePlace(c, flags, w);
    }

    method UpdatePlace(c: Connection, flags: Flags, ghost w: World)
      requires Changes1(w, world, c, flags) && Ordered(list, Ranks(w, mode)) && |list| <= scrollOffset + targetSize
      requires LengthOk() && CursorOk()
      requires Shows(screen, w, list, scrollOffset, cursorPos, isRefreshRequired)
      modifies this`list, this`isRefreshRequired
      ensures ListOk() && LengthOk() && CursorOk() && ScreenOk()
      ensures TopK(old(list), Ranks(w, mode)) ==>
        (HasTop() <==> (Contains(old(list), c) ==> NonePrecedes(world, mode, old(list), c)))
    {
      assert c in world.conns;
      hide Ranks, Shows, Less, Changes1, Ordered, TopK, Contains, NonePrecedes;
      var i := IndexOf(c);
      if i < |list| {
        ContainsAt(list, i);
        UpdateListed(i, flags, w);
      } else {
        UpdateUnlisted(c, flags, w);
      }
    }

    method UpdateUnlisted(c: Connection, flags: Flags, ghost w: World)
      requires Changes1(w, world, c, flags) && Ordered(list, Ranks(w, mode)) && |list| <= scrollOffset + targetSize
      requires LengthOk() && CursorOk() && !Contains(list, c) && c in world.conns
      requires Shows(screen, w, list, scrollOffset, cursorPos, isRefreshRequired)
      modifies this`list, this`isRefreshRequired
      ensures ListOk() && LengthOk() && CursorOk() && ScreenOk()
      ensures TopK(old(list), Ranks(w, mode)) ==> HasTop()
    {
      hide Ranks, Shows, Less, Changes1, Contains, Sorted, Distinct;
      UnlistedChange(screen, w, world, mode, list, c, flags, scrollOffset, cursorPos, isRefreshRequired);
      Bounded(list, Rk());
      if list == [] { return; }
      RankDecides(world, mode, c, list[|list| - 1].conn);
      if Before(c, list[|list| - 1].conn) {
        ghost var before := list;
        NotedShows(screen, world, list, scrollOffset, cursorPos, isRefreshRequired);
        InsertItem(c);
        if TopBut(before, Rk(), c) { EnteredTop(before, list, Rk(), c, scrollOffset + targetSize); }
      }
    }

    method FlagUpdated(i: nat, flags: Flags, ghost w: World)
      requires i < |list| && Changes1(w, world, list[i].conn, flags) && Ordered(list, Ranks(w, mode))
      requires Shows(screen, w, list, scrollOffset, cursorPos, isRefreshRequired)
      modifies this`list, this`isRefreshRequired
      ensures SameConns(old(list), list) && ScreenOk()
    {
      hide Ranks, Shows, Less, Changes1, Sorted, Or;
      UpdatedShows(screen, w, world, list, i, flags, scrollOffset, cursorPos, isRefreshRequired);
      // rows above the window are never drawn
      if i >= BeginIndex() {
        list := list[i := list[i].(flags := Or(list[i].flags, flags), dirty := true)];
        isRefreshRequired := true;
      }
    }

    /** The fill at the end never changes anything: the list is full, or it holds every connection. */
    method UpdateListed(i: nat, flags: Flags, ghost w: World)
      requires i < |list| && Changes1(w, world, list[i].conn, flags) && Ordered(list, Ranks(w, mode))
      requires |list| <= scrollOffset + targetSize && LengthOk() && CursorOk()
      requires Shows(screen, w, list, scrollOffset, cursorPos, isRefreshRequired)
      modifies this`list, this`isRefreshRequired
      ensures ListOk() && LengthOk() && CursorOk() && ScreenOk()
      ensures |list| == |old(list)| && (forall d :: Contains(list, d) <==> Contains(old(list), d))
      ensures TopK(old(list), Ranks(w, mode)) ==> (HasTop() <==> NonePrecedes(world, mode, old(list), old(list)[i].conn))
    {
      hide Ranks, Shows, Less, Contains, Sorted, TopK, Distinct, Known, Changes1, NonePrecedes;
      ghost var before, c := list, list[i].conn;
      FlagUpdated(i, flags, w);
      SameConnsKeep(before, list, Ranks(w, mode));
      Resort(i, flags, w);
      ContainsAt(before, i);
      if TopK(before, Ranks(w, mode)) { MovedTop(before, list, w, world, mode, c, flags); }
    }

    method Resort(i: nat, flags: Flags, ghost w: World)
      requires i < |list| && Changes1(w, world, list[i].conn, flags) && Ordered(list, Ranks(w, mode))
      requires |list| <= scrollOffset + targetSize && LengthOk() && ScreenOk()
      modifies this`list, this`isRefreshRequired
      ensures ListOk() && LengthOk() && ScreenOk()
      ensures |list| == |old(list)| && (forall d :: Contains(list, d) <==> Contains(old(list), d))
    {
      hide Ranks, Shows, Less, Contains, Sorted, TopK, Distinct, SameColumns, SameData;
      var isSortRequired, isFillRequired := CompareNeighbours(i);
      if isSortRequired {
        Sort();
      } else {
        ListedChange(w, world, mode, list, i, flags);
      }
      hide Known, Changes1;
      if isFillRequired { FillNothing(); }
    }

    method CompareNeighbours(i: nat) returns (isSortRequired: bool, isFillRequired: bool)
      requires i < |list| && Known(list, Rk())
      ensures !isSortRequired ==>
        && (i > 0 ==> Rk()[list[i - 1].conn] <= Rk()[list[i].conn])
        && (i + 1 < |list| ==> Rk()[list[i].conn] <= Rk()[list[i + 1].conn])
    {
      hide Ranks, Less;
      isSortRequired, isFillRequired := false, false;
      if i > 0 {
        RankDecides(world, mode, list[i].conn, list[i - 1].conn);
        if Before(list[i].conn, list[i - 1].conn) { isSortRequired := true; }
      }
      if i + 1 < |list| {
        RankDecides(world, mode, list[i + 1].conn, list[i].conn);
        if Before(list[i + 1].conn, list[i].conn) { isSortRequired := true; }
        // an unlisted connection may deserve its row more
        if Before(list[|list| - 1].conn, list[i].conn) { isFillRequired := true; }
      } else if !isSortRequired {
        isFillRequired := true;
      }
    }

    /** Fill on a list that is full or holds every connection. */
    method FillNothing()
      requires ListOk() && LengthOk()
      modifies this`list, this`isRefreshRequired
      ensures list == old(list) && isRefreshRequired == old(isRefreshRequired)
    {
      hide Ranks, Shows, Less, Ordered, TopK;
      Fill();
    }

    // -------------------------------------------------------------- window

    method MoveCursor(amount: int)
      requires Valid()
      modifies this`list, this`isRefreshRequired, this`cursorPos, this`scrollOffset
      ensures Valid() && (old(HasTop()) ==> HasTop())
      ensures amount <= 0 ==> scrollOffset + cursorPos == Max(0, old(scrollOffset + cursorPos) + amount)
      ensures amount > 0 && old(Size()) > 0 ==>
        scrollOffset + cursorPos == Min(|world.conns| - 1, old(scrollOffset + cursorPos) + amount)
    {
      hide Ranks, Shows, Contains, Less, TopK, Known, Distinct, Sorted;
      if amount < 0 {
        MoveUp(-amount);
      } else if amount > 0 {
        MoveDown(amount);
      }
    }

    method MoveUp(steps: nat)
      requires Valid() && steps > 0
      modifies this`list, this`isRefreshRequired, this`cursorPos, this`scrollOffset
      ensures Valid() && (old(HasTop()) ==> HasTop())
      ensures scrollOffset + cursorPos == Max(0, old(scrollOffset + cursorPos) - steps)
    {
      hide Ranks, Shows, Less, TopK, Ordered;
      var maxAmount := cursorPos;
      if steps > maxAmount && scrollOffset > 0 {
        cursorPos := 0;
        DoScroll(maxAmount - steps);  // the entire list is invalidated
      } else if cursorPos > 0 {
        Step(cursorPos - Min(steps, maxAmount));
      }
    }

    method MoveDown(steps: nat)
      requires Valid() && steps > 0
      modifies this`list, this`isRefreshRequired, this`cursorPos, this`scrollOffset
      ensures Valid() && (old(HasTop()) ==> HasTop())
      ensures old(Size()) > 0 ==>
        scrollOffset + cursorPos == Min(|world.conns| - 1, old(scrollOffset + cursorPos) + steps)
    {
      hide Ranks, Shows, Less, TopK, Sorted;
      Bounded(list, Rk());
      hide Ordered;
      var maxPos := CursorMaxPos();
      var maxAmount := maxPos - cursorPos;
      if steps > maxAmount && |world.conns| > |list| {
        cursorPos := maxPos;
        DoScroll(steps - maxAmount);  // the entire list is invalidated
      } else if cursorPos < maxPos {
        Step(cursorPos + Min(steps, maxAmount));
      }
    }

    /** Moves the cursor within the visible rows and flags both the row it leaves and the row it enters. */
    method Step(pos: nat)
      requires Valid() && pos < Size()
      modifies this`list, this`isRefreshRequired, this`cursorPos
      ensures Valid() && cursorPos == pos && (old(HasTop()) ==> HasTop())
    {
      hide Ranks, Shows, Less, TopK, Sorted, Distinct, Contains, RowOk;
      ghost var before := list;
      NotedShows(screen, world, list, scrollOffset, cursorPos, isRefreshRequired);
      InvalidateCursor();
      SameConnsKeep(before, list, Rk());
      CursorMoved(screen, world, before, list, scrollOffset, cursorPos, cursorPos, true);
      PutCursor(pos);
    }

    method DoScroll(amount: int)
      requires ListOk() && LengthOk() && CursorOk() && DetailOk()
      modifies this`list, this`isRefreshRequired, this`scrollOffset
      ensures ListOk() && LengthOk() && CursorOk() && DetailOk() && (old(HasTop()) ==> HasTop())
      ensures old(ScreenOk()) || scrollOffset != old(scrollOffset) ==> ScreenOk()
      ensures scrollOffset ==
        if amount < 0 then Max(0, old(scrollOffset) + amount)
        else old(scrollOffset) + Min(amount, |world.conns| - old(|list|))
    {
      hide Ranks, Shows, Less, TopK, Sorted;
      Bounded(list, Rk());
      hide Ordered;
      if amount < 0 {
        ScrollUp(Min(-amount, scrollOffset));
      } else if amount > 0 {
        ScrollDown(Min(amount, |world.conns| - |list|));
      }
    }

    method ScrollUp(amount: nat)
      requires ListOk() && LengthOk() && CursorOk() && amount <= scrollOffset
      modifies this`list, this`isRefreshRequired, this`scrollOffset
      ensures ListOk() && LengthOk() && CursorOk() && (old(HasTop()) ==> HasTop())
      ensures scrollOffset == old(scrollOffset) - amount && (amount > 0 || old(ScreenOk()) ==> ScreenOk())
    {
      hide Ranks, Shows, Less, TopK, Sorted, Known, Distinct, Contains, SameConns;
      if amount > 0 {
        ghost var n := Min(|list|, scrollOffset - amount + targetSize);
        PrefixTop(list, Rk(), n);
        scrollOffset := scrollOffset - amount;
        DropSurplus();
        InvalidateAllVisible();
      }
    }

    /** Drops items from the end until no more are visible than wanted. */
    method DropSurplus()
      modifies this`list
      ensures list == old(list)[..Min(|old(list)|, scrollOffset + targetSize)]
    {
      while Size() > targetSize
        invariant Min(|old(list)|, scrollOffset + targetSize) <= |list| <= |old(list)| && list == old(list)[..|list|]
        decreases |list|
      {
        list := list[..|list| - 1];
      }
    }

    method ScrollDown(amount: nat)
      requires ListOk() && LengthOk() && CursorOk() && amount <= |world.conns| - |list|
      modifies this`list, this`isRefreshRequired, this`scrollOffset
      ensures ListOk() && LengthOk() && CursorOk() && (old(HasTop()) ==> HasTop())
      ensures scrollOffset == old(scrollOffset) + amount && (amount > 0 || old(ScreenOk()) ==> ScreenOk())
    {
      hide Ranks, Shows, Less, TopK, Sorted, Known, Distinct, Contains, SameConns, Ordered;
      if amount > 0 {
        scrollOffset := scrollOffset + amount;
        InvalidateAllVisible();
        Fill();
      }
    }

    method InitConnectionDetail()
      requires Valid()
      modifies this`detail, this`detailFlags
      ensures Valid() && detail == if Size() > 0 then Some(list[scrollOffset + cursorPos].conn) else None
      ensures detailFlags == All
    {
      hide Ranks, Shows, Less, Sorted, Distinct;
      var it := BeginPos();
      if it < |list| {
        it := it + cursorPos;
        detail := Some(list[it].conn);
      } else {
        detail := None;
      }
      detailFlags := All;
    }

    /** resetConnectionDetailRefresh. */
    method ResetConnectionDetailRefresh()
      requires Valid()
      modifies this`detailFlags
      ensures Valid() && detailFlags == NO_FLAGS && (HasTop() <==> old(HasTop()))
    {
      hide Ranks, Shows, Ordered, TopK;
      detailFlags := NO_FLAGS;
    }

    method SetTargetSize(size: nat)
      requires Valid()
      modifies this`list, this`isRefreshRequired, this`cursorPos, this`targetSize
      ensures Valid() && targetSize == size && cursorPos == Min(old(cursorPos), CursorMaxPos())
      ensures old(HasTop()) ==> HasTop()
    {
      hide Ranks, Shows, Less, TopK, Ordered, SameConns;
      if targetSize != size {
        targetSize := size;
        FitList();
        if cursorPos > CursorMaxPos() {
          PutCursor(CursorMaxPos());
        }
      }
    }

    method FitList()
      requires Ordered(list, Rk()) && CursorOk() && ScreenOk()
      modifies this`list, this`isRefreshRequired
      ensures ListOk() && LengthOk() && ScreenOk() && (old(HasTop()) ==> HasTop())
      ensures cursorPos > CursorMaxPos() ==> isRefreshRequired
      ensures |list| <= |old(list)| || |list| <= scrollOffset + targetSize
    {
      hide Ranks, Shows, Less, TopK, Sorted, Contains;
      Bounded(list, Rk());
      hide Known, Distinct;
      var currentSize := Size();
      if currentSize > targetSize {
        var n := Min(|list|, scrollOffset + targetSize);
        PrefixTop(list, Rk(), n);
        PrefixShows(screen, world, list, n, scrollOffset, cursorPos, isRefreshRequired);
        NotedShows(screen, world, list[..n], scrollOffset, cursorPos, isRefreshRequired);
        DropSurplus();
        isRefreshRequired := true;
      } else if currentSize < targetSize {
        Fill();
      }
    }

    method SetSortMode(sortMode: SortMode)
      requires Valid()
      modifies this`list, this`isRefreshRequired, this`mode
      ensures Valid() && mode == sortMode
      ensures sortMode != old(mode) || old(HasTop()) ==> HasTop()
    {
      hide Ranks, Shows, Less, Contains, Ordered, TopK;
      if mode != sortMode {
        mode := sortMode;
        list := [];
        EmptyOk(screen, world, Rk(), scrollOffset, cursorPos);
        Fill();
        isRefreshRequired := true;
      }
    }

    // -------------------------------------------------------------- resolver

    /** No stored connection but the resolved ones and the listed ones comes early enough to be listed. */
    ghost predicate NoneLeftBehind(listed: set<Connection>, u: Users)
      reads this`world, this`mode, this`scrollOffset, this`targetSize
    {
      listed <= Rk().Keys && OthersComeLate(Rk(), listed, Stored(u, Rk()), scrollOffset + targetSize)
    }

    /** ResolverCallbackAddress and addressDataUpdated. */
    method ResolveAddress(a: Address, info: HostInfo)
      requires Valid()
      modifies this`world, this`list, this`isRefreshRequired, this`detailFlags
      ensures Valid() && world == old(world).(hosts := old(world).hosts[a := info])
      ensures SortsByHost(mode.key) ==> (HasTop() <==> NoneLeftBehind(Conns(old(list)), AddressUsers(old(world), a)))
      ensures !SortsByHost(mode.key) ==> (HasTop() <==> old(HasTop()))
      ensures old(HasTop()) && NoUserPassed(world, mode, old(list), AddressUsers(old(world), a)) ==> HasTop()
      ensures detailFlags == DetailFlagged(old(detailFlags), detail, AddressUsers(old(world), a))
      ensures DetailFollows(old(world), world, detail, detailFlags)
    {
      hide Ranks, Shows, Less, Contains, Sorted, Distinct, NoUserPassed, Resolves, AddressUsers, NoneLeftBehind, Conns, TopK, DetailFollows, DetailFlagged;
      ghost var w := world;
      AddressResolves(world, mode, a, info);
      var users := AddressUsers(world, a);
      world := world.(hosts := world.hosts[a := info]);
      ResolvedDetail(w, world, mode, users, SortsByHost(mode.key), detail, detailFlags);
      Resolved(users, SortsByHost(mode.key), w);
    }

    /** ResolverCallbackPort and portDataUpdated. */
    method ResolvePort(p: Port, service: string)
      requires Valid()
      modifies this`world, this`list, this`isRefreshRequired, this`detailFlags
      ensures Valid() && world == old(world).(services := old(world).services[p := service])
      ensures SortsByService(mode.key) ==> (HasTop() <==> NoneLeftBehind(Conns(old(list)), PortUsers(old(world), p)))
      ensures !SortsByService(mode.key) ==> (HasTop() <==> old(HasTop()))
      ensures old(HasTop()) && NoUserPassed(world, mode, old(list), PortUsers(old(world), p)) ==> HasTop()
      ensures detailFlags == DetailFlagged(old(detailFlags), detail, PortUsers(old(world), p))
      ensures DetailFollows(old(world), world, detail, detailFlags)
    {
      hide Ranks, Shows, Less, Contains, Sorted, Distinct, NoUserPassed, Resolves, PortUsers, NoneLeftBehind, Conns, TopK, DetailFollows, DetailFlagged;
      ghost var w := world;
      PortResolves(world, mode, p, service);
      var users := PortUsers(world, p);
      world := world.(services := world.services[p := service]);
      ResolvedDetail(w, world, mode, users, SortsByService(mode.key), detail, detailFlags);
      Resolved(users, SortsByService(mode.key), w);
    }

    /** The common text of addressDataUpdated and portDataUpdated. */
    method Resolved(u: Users, mayAffectOrder: bool, ghost w: World)
      requires Resolves(w, world, mode, u, mayAffectOrder) && Ordered(list, Ranks(w, mode))
      requires |list| <= scrollOffset + targetSize && LengthOk() && CursorOk()
      requires Shows(screen, w, list, scrollOffset, cursorPos, isRefreshRequired)
      modifies this`list, this`isRefreshRequired, this`detailFlags
      ensures ListOk() && LengthOk() && CursorOk() && ScreenOk()
      ensures mayAffectOrder ==> (HasTop() <==> NoneLeftBehind(Conns(old(list)), u))
      ensures !mayAffectOrder ==> (HasTop() <==> TopK(old(list), Ranks(w, mode)))
      ensures TopK(old(list), Ranks(w, mode)) && NoUserPassed(world, mode, old(list), u) ==> HasTop()
      ensures detailFlags == DetailFlagged(old(detailFlags), detail, u)
    {
      hide Ranks, Shows, Less, Contains, Sorted, Distinct, Known, NoUserPassed, Resolves, TopK, SameConns, RowOk, Conns, NoneLeftBehind;
      if detail.Some? {
        FlagTwice(detailFlags, u, detail.value);
        if detail.value in u.src { detailFlags := Or(detailFlags, Only({u.srcColumn})); }
        if detail.value in u.dst { detailFlags := Or(detailFlags, Only({u.dstColumn})); }
      }
      if list == [] {
        EmptyOk(screen, world, Rk(), scrollOffset, cursorPos);
        EmptyLeavesNone(u, w);
        return;
      }
      ghost var before := list;
      var contains := FlagResolved(u, mayAffectOrder, w);
      if mayAffectOrder {
        if TopK(before, Ranks(w, mode)) && NoUserPassed(world, mode, before, u) { PassedNone(before, u, w); }
        ReorderResolved(u, contains, w, before);
      } else {
        UnusedOrdered(w, world, mode, before, u, false);
        OrderKept(w, world, mode, before, u);
        SameConnsKeep(before, list, Rk());
      }
    }

    lemma EmptyLeavesNone(u: Users, w: World)
      requires list == []
      ensures NoneLeftBehind(Conns(list), u) && TopK(list, Ranks(w, mode))
    {
      hide Ranks;
      assert Conns(list) == {};
      assert Newcomers(Rk(), {}, Stored(u, Rk())) == {};
    }

    lemma PassedNone(before: Items, u: Users, w: World)
      requires Resolves(w, world, mode, u, true) && Ordered(before, Ranks(w, mode)) && TopK(before, Ranks(w, mode))
      requires NoUserPassed(world, mode, before, u)
      ensures NoneLeftBehind(Conns(before), u)
    {
      hide Ranks, Less, Resolves, Ordered, TopK, NoUserPassed, OthersComeLate;
      UnpassedIsLate(w, world, mode, before, u, scrollOffset + targetSize);
    }

    /** Flags the visible users; tells whether the list has to be sorted again. */
    method FlagResolved(u: Users, mayAffectOrder: bool, ghost w: World) returns (contains: bool)
      requires Resolves(w, world, mode, u, mayAffectOrder) && Ordered(list, Ranks(w, mode))
      requires Shows(screen, w, list, scrollOffset, cursorPos, isRefreshRequired)
      modifies this`list, this`isRefreshRequired
      ensures SameConns(old(list), list) && |list| == |old(list)| && Ordered(list, Ranks(w, mode)) && ScreenOk()
      ensures TopK(list, Ranks(w, mode)) <==> TopK(old(list), Ranks(w, mode))
      ensures forall d :: Contains(list, d) <==> Contains(old(list), d)
      ensures mayAffectOrder ==> (contains <==> exists i :: 0 <= i < |list| && Uses(u, list[i].conn))
    {
      hide Ranks, Shows, Less, Sorted, Distinct, Resolves, TopK, RowOk, Contains;
      ghost var before := list;
      FlagUsersShows(screen, w, world, mode, list, u, mayAffectOrder, BeginPos(), scrollOffset, cursorPos, isRefreshRequired);
      contains := false;
      if mayAffectOrder {
        for i := 0 to BeginPos()
          invariant contains <==> exists k :: 0 <= k < i && Uses(u, list[k].conn)
        {
          if Uses(u, list[i].conn) { contains := true; }
        }
      }
      var isVisible := FlagVisible(u);
      if isVisible {
        contains := true;
        isRefreshRequired := true;
      }
      SameConnsKeep(before, list, Ranks(w, mode));
    }

    method FlagVisible(u: Users) returns (isVisible: bool)
      modifies this`list
      ensures list == FlagUsers(old(list), old(BeginPos()), u)
      ensures isVisible <==> exists i :: old(BeginPos()) <= i < |old(list)| && Uses(u, old(list)[i].conn)
    {
      hide Or;
      isVisible := false;
      var i := BeginPos();
      while i < |list|
        invariant old(BeginPos()) <= i <= |list| == |old(list)|
        invariant forall k :: 0 <= k < |list| ==>
          list[k] == if old(BeginPos()) <= k < i then FlagUser(old(list)[k], u) else old(list)[k]
        invariant isVisible <==> exists k :: old(BeginPos()) <= k < i && Uses(u, old(list)[k].conn)
      {
        var item := list[i];
        FlagTwice(item.flags, u, item.conn);
        if item.conn in u.src {
          isVisible := true;
          item := item.(flags := Or(item.flags, Only({u.srcColumn})), dirty := true);
        }
        if item.conn in u.dst {
          isVisible := true;
          item := item.(flags := Or(item.flags, Only({u.dstColumn})), dirty := true);
        }
        list := list[i := item];
        i := i + 1;
      }
    }

    method ReorderResolved(u: Users, contains: bool, ghost w: World, ghost before: Items)
      requires Resolves(w, world, mode, u, true) && Ordered(list, Ranks(w, mode)) && list != []
      requires |list| <= scrollOffset + targetSize && LengthOk() && ScreenOk()
      requires contains <==> exists i :: 0 <= i < |list| && Uses(u, list[i].conn)
      requires forall d :: Contains(list, d) <==> Contains(before, d)
      modifies this`list, this`isRefreshRequired
      ensures ListOk() && LengthOk() && ScreenOk() && (targetSize > 0 ==> |list| == |old(list)|)
      ensures HasTop() <==> NoneLeftBehind(Conns(before), u)
    {
      hide Ranks, Shows, Less, Sorted, TopK, TopExcept, SameData, SameColumns, NoneLeftBehind;
      if contains {
        Sort();
      } else {
        UnusedOrdered(w, world, mode, list, u, true);
      }
      SameListed(list, before);
      hide Contains, Distinct, Conns;
      InsertUsers(u);
    }

    /** Every user in the storage that comes before the last item enters the list, if it is not in it. */
    method InsertUsers(u: Users)
      requires ListOk() && LengthOk() && ScreenOk() && list != []
      modifies this`list, this`isRefreshRequired
      ensures ListOk() && LengthOk() && ScreenOk() && (targetSize > 0 ==> |list| == |old(list)|)
      ensures HasTop() <==> NoneLeftBehind(Conns(old(list)), u)
    {
      hide Ranks, Shows, Less, Sorted, TopExcept, Contains, Distinct, Known, Ordered, TopK, Conns, Grown, EnteringOf, Restricted, LastRank;
      ghost var rk, start, limit := Rk(), list, scrollOffset + targetSize;
      ghost var users := Stored(u, rk);
      var rest := world.conns.Keys;
      PoolStart(list, rk, users, limit);
      assert users * rest == users && users - rest == {};
      while rest != {}
        invariant ListOk() && LengthOk() && ScreenOk() && list != [] && rest <= world.conns.Keys
        invariant targetSize > 0 ==> |list| == |old(list)|
        invariant InPool(list, rk, start, users, rest, limit)
        decreases |rest|
      {
        var c :| c in rest;
        ghost var before := rest;
        rest := rest - {c};
        assert rest + {c} == before;
        if Uses(u, c) {
          InsertUser(c, start, users, rest);
        } else {
          assert users * before == users * rest && users - before == users - rest;
        }
      }
      PoolEnd(list, rk, start, users, limit);
    }

    method InsertUser(c: Connection, ghost start: Items, ghost users: set<Connection>, ghost rest: set<Connection>)
      requires ListOk() && LengthOk() && ScreenOk() && list != [] && c in world.conns && c in users && c !in rest
      requires InPool(list, Rk(), start, users, rest + {c}, scrollOffset + targetSize)
      modifies this`list, this`isRefreshRequired
      ensures ListOk() && LengthOk() && ScreenOk() && list != [] && (targetSize > 0 ==> |list| == |old(list)|)
      ensures InPool(list, Rk(), start, users, rest, scrollOffset + targetSize)
    {
      hide Ranks, Shows, Less, Sorted, Contains, Distinct, InPool;
      ghost var before, rk := list, Rk();
      Bounded(list, rk);
      RankDecides(world, mode, c, list[|list| - 1].conn);
      if Before(c, list[|list| - 1].conn) {
        var found := ContainsItem(c);
        if !found {
          NotedShows(screen, world, list, scrollOffset, cursorPos, isRefreshRequired);
          InsertItem(c);
        }
      }
      InPoolStep(before, list, rk, start, users, rest, c, scrollOffset + targetSize);
    }

    // -------------------------------------------------------------- redraw

    /** The first visible row that must be redrawn, which counts as redrawn from then on. */
    method GetNextUpdate() returns (update: Option<RowUpdate>)
      requires ScreenOk()
      modifies this`list, this`isRefreshRequired
      ensures update.None? ==> list == old(list) && !isRefreshRequired
      ensures update.None? ==> forall i :: scrollOffset <= i < |list| ==> !list[i].dirty
      ensures update.Some? ==>
        var k := scrollOffset + update.value.row;
        && k < |list| == |old(list)| && old(list)[k].dirty && isRefreshRequired
        && (forall i :: scrollOffset <= i < k ==> !old(list)[i].dirty)
        && update.value == RowUpdate(old(list)[k].conn, old(list)[k].flags, k - scrollOffset, k - scrollOffset == cursorPos)
        && list == old(list)[k := old(list)[k].(flags := NO_FLAGS, dirty := false)]
    {
      if isRefreshRequired {
        var currentRow := 0;
        var it := BeginPos();
        while it < |list|
          invariant BeginPos() <= it <= |list| && list == old(list) && isRefreshRequired
          invariant scrollOffset < |list| ==> it == scrollOffset + currentRow
          invariant forall i :: scrollOffset <= i < it ==> !list[i].dirty
        {
          if list[it].dirty {
            update := Some(RowUpdate(list[it].conn, list[it].flags, currentRow, currentRow == cursorPos));
            list := list[it := list[it].(flags := NO_FLAGS, dirty := false)];
            return;
          }
          currentRow := currentRow + 1;
          it := it + 1;
        }
        // nothing dirty was found
        isRefreshRequired := false;
      }
      return None;
    }

    /** The rows of a complete redraw: one for each visible item, the cursor's row highlighted. */
    ghost predicate FullyDrawn()
      reads this`world, this`list, this`scrollOffset, this`cursorPos, this`screen
    {
      forall r :: 0 <= r < Size() ==>
        r in screen && screen[r] == FullRow(world, list[scrollOffset + r].conn, r == cursorPos)
    }

    /**
      ScreenConnectionList::updateList: draw every update there is. The loop ends because each update cleans
      one of the finitely many dirty rows; what is then on the screen is a complete redraw.
    */
    method UpdateList()
      requires Valid()
      modifies this`list, this`isRefreshRequired, this`screen
      ensures Valid() && FullyDrawn() && !isRefreshRequired && SameConns(old(list), list)
      ensures old(HasTop()) ==> HasTop()
    {
      hide Ranks, RowOk, Less, Sorted, Distinct, Contains, TopK, Draw, FullRow;
      ghost var s := screen;
      var update := NextDrawn();
      while update.Some?
        invariant |list| == |old(list)| && SameConns(old(list), list)
        invariant ScreenOk() && (update.None? ==> !isRefreshRequired && forall i :: scrollOffset <= i < |list| ==> !list[i].dirty)
        decreases DirtyRows(list, scrollOffset) + if update.Some? then 1 else 0
      {
        update := NextDrawn();
      }
      SameConnsKeep(old(list), list, Rk());
      forall r | 0 <= r < Size()
        ensures r in screen && screen[r] == FullRow(world, list[scrollOffset + r].conn, r == cursorPos)
      {
        RowDrawn(screen, world, list[scrollOffset + r], r, r == cursorPos);
      }
    }

    /** One round of the drawing loop. */
    method DrawNext()
      requires Valid()
      modifies this`list, this`isRefreshRequired, this`screen
      ensures Valid() && (HasTop() <==> old(HasTop()))
    {
      hide Ranks, Shows, Less, Contains, Sorted, Distinct, TopK, Known, Draw;
      var update := NextDrawn();
      SameConnsKeep(old(list), list, Rk());
    }

    /** Takes the next update and draws it; the screen is a ghost. */
    method NextDrawn() returns (update: Option<RowUpdate>)
      requires ScreenOk()
      modifies this`list, this`isRefreshRequired, this`screen
      ensures ScreenOk() && SameConns(old(list), list) && |list| == |old(list)|
      ensures update.None? ==> list == old(list) && screen == old(screen) && !isRefreshRequired
      ensures update.None? ==> forall i :: scrollOffset <= i < |list| ==> !list[i].dirty
      ensures update.Some? ==> screen == Draw(old(screen), world, update.value)
      ensures update.Some? ==> DirtyRows(list, scrollOffset) < DirtyRows(old(list), scrollOffset)
    {
      hide RowOk, Draw;
      ghost var before, refresh := list, isRefreshRequired;
      update := GetNextUpdate();
      if update.Some? {
        ghost var k := scrollOffset + update.value.row;
        DrawnShows(screen, world, before, k, scrollOffset, cursorPos, true);
        CleanedRow(before, scrollOffset, k);
        screen := Draw(screen, world, update.value);
      }
    }
  }

  lemma RowDrawn(s: Screen, w: World, item: Item, row: nat, isCursor: bool)
    requires RowOk(s, w, item, row, isCursor) && !item.dirty
    ensures row in s && s[row] == FullRow(w, item.conn, isCursor)
  {
    CleanRow(s, w, item, row, isCursor);
  }

  // ---------------------------------------------------------------- every sequence of operations

  datatype Operation =
    | OpAdd(conn: Connection, data: ConnectionData)
    | OpUpdate(conn: Connection, data: ConnectionData, flags: int)
    | OpRemove(conn: Connection)
    | OpClear
    | OpResolveAddress(address: Address, info: HostInfo)
    | OpResolvePort(port: Port, service: string)
    | OpMoveCursor(amount: int)
    | OpScroll(amount: int)
    | OpSetTargetSize(size: nat)
    | OpSetSortMode(mode: SortMode)
    | OpInitDetail
    | OpResetDetail
    | OpInvalidateCursor
    | OpInvalidate
    | OpDrawNext
    | OpUpdateList

  method Perform(l: ConnectionList, op: Operation)
    requires l.Valid()
    modifies l
    ensures l.Valid()
  {
    hide Ranks, Shows, Ordered, TopK, Less, Patched, AddressUsers, PortUsers, NoUserPassed, NonePrecedes, Contains, SameConns;
    match op
    case OpAdd(c, d) => l.Add(c, d);
    case OpUpdate(c, d, flags) => l.Update(c, d, flags);
    case OpRemove(c) => l.Remove(c);
    case OpClear => l.Clear();
    case OpResolveAddress(a, info) => l.ResolveAddress(a, info);
    case OpResolvePort(p, service) => l.ResolvePort(p, service);
    case OpMoveCursor(n) => l.MoveCursor(n);
    case OpScroll(n) => l.DoScroll(n);
    case OpSetTargetSize(n) => l.SetTargetSize(n);
    case OpSetSortMode(m) => l.SetSortMode(m);
    case OpInitDetail => l.InitConnectionDetail();
    case OpResetDetail => l.ResetConnectionDetailRefresh();
    case OpInvalidateCursor => l.InvalidateCursor();
    case OpDrawNext => l.DrawNext();
    case OpInvalidate => l.InvalidateAllVisible();
    case OpUpdateList => l.UpdateList();
  }

  /** Whatever is done to a new list, drawing its updates then leaves a complete redraw on the screen. */
  method PerformAll(ops: seq<Operation>) returns (l: ConnectionList)
    ensures fresh(l) && l.Valid() && l.FullyDrawn()
  {
    l := new ConnectionList();
    for i := 0 to |ops|
      invariant fresh(l) && l.Valid()
    {
      Perform(l, ops[i]);
    }
    l.UpdateList();
  }

  // ---------------------------------------------------------------- what update does not keep

  function Received(n: Uint64): ConnectionData { ConnectionData(0, Traffic(n, 0, 0, 0, 0, 0)) }

  lemma FewerFirst(w: World, c: Connection, d: Connection)
    requires c in w.conns && d in w.conns && w.conns[c].traffic.rxPackets < w.conns[d].traffic.rxPackets
    ensures Less(w, SortMode(ByRxPackets, true), c, d)
  {
  }

  lemma ReceivedMore(w: World, c: Connection, d: Connection, n: Uint64)
    requires c in w.conns && d in w.conns && c != d && w.conns[d].traffic.rxPackets < n
    ensures var w' := Patched(w, c, Received(n), RX_PACKETS); d in w'.conns && Less(w', SortMode(ByRxPackets, true), d, c)
  {
    assert HasFlag(RX_PACKETS, RX_PACKETS);
    FewerFirst(Patched(w, c, Received(n), RX_PACKETS), d, c);
  }

  /** With room for one of two connections, the one that comes first is listed. */
  lemma FirstListed(list: Items, rk: RankMap, c: Connection, d: Connection)
    requires Ordered(list, rk) && TopK(list, rk) && |list| == 1 && rk.Keys == {c, d} && rk[c] < rk[d]
    ensures Contains(list, c) && !Contains(list, d)
  {
    if list[0].conn == c { assert Contains(list, c); }
  }

  method ListTwo(c: Connection, d: Connection) returns (l: ConnectionList)
    requires c != d
    ensures fresh(l) && l.Valid() && l.HasTop() && l.mode == SortMode(ByRxPackets, true)
    ensures l.world.conns == map[c := Received(1), d := Received(2)]
    ensures Contains(l.list, c) && !Contains(l.list, d)
  {
    hide Ranks, Shows, Less, Ordered, TopK, Contains;
    l := new ConnectionList();
    l.SetSortMode(SortMode(ByRxPackets, true));
    l.SetTargetSize(1);
    l.Add(c, Received(1));
    l.Add(d, Received(2));
    FewerFirst(l.world, c, d);
    RankDecides(l.world, l.mode, c, d);
    assert |l.world.conns.Keys| == 2;
    FirstListed(l.list, l.Rk(), c, d);
  }

  /** A listed connection that moves behind an unlisted one stays listed, because fill returns early on a full list. */
  method UpdateCanLoseTop(c: Connection, d: Connection) returns (l: ConnectionList)
    requires c != d
    ensures fresh(l) && l.Valid() && !l.HasTop()
  {
    hide Ranks, Shows, Less, Ordered, TopK, Patched, Contains;
    l := ListTwo(c, d);
    ReceivedMore(l.world, c, d, 3);
    ghost var list := l.list;
    l.Update(c, Received(3), RX_PACKETS);
    assert !NonePrecedes(l.world, l.mode, list, c);
  }

  // ---------------------------------------------------------------- what a resolved name does not keep

  /** A list of one that stays where it is, while something else would now come first. */
  lemma OneLeftBehind(rk: RankMap, e: Connection, f: Connection, users: set<Connection>, limit: nat)
    requires e in rk && f in rk && rk[f] < rk[e] && users <= {e} && limit > 0
    ensures !OthersComeLate(rk, {e}, users, limit)
  {
    assert NotAfter(rk, {e} + users, f) == {};
    assert f !in {e} + users;
  }

  lemma NamedLater(w: World, c: Connection, d: Connection)
    requires |HostOf(w, SrcAddress(c)).hostname| == 0 < |HostOf(w, SrcAddress(d)).hostname|
    ensures Less(w, SortMode(BySrcHostname, true), c, d)
  {
  }

  lemma ServedLater(w: World, c: Connection, d: Connection)
    requires |ServiceOf(w, SrcPort(c))| == 0 < |ServiceOf(w, SrcPort(d))|
    ensures Less(w, SortMode(BySrcService, true), c, d)
  {
  }

  method ListOneOf(c: Connection, d: Connection, key: SortKey) returns (l: ConnectionList, e: Connection, f: Connection)
    requires c != d
    ensures fresh(l) && l.Valid() && l.mode == SortMode(key, true) && l.targetSize == 1 && l.scrollOffset == 0
    ensures l.world == World(map[c := Received(0), d := Received(0)], map[], map[])
    ensures (e == c && f == d) || (e == d && f == c)
    ensures Conns(l.list) == {e}
  {
    hide Ranks, Shows, Less, Ordered, TopK, Contains;
    l := new ConnectionList();
    l.SetSortMode(SortMode(key, true));
    l.SetTargetSize(1);
    assert l.scrollOffset == 0;
    l.Add(c, Received(0));
    l.Add(d, Received(0));
    assert |l.world.conns.Keys| == 2;
    assert |l.list| == 1;
    e := l.list[0].conn;
    ListedStored(l.list, l.Rk(), e);
    f := if e == c then d else c;
  }

  lemma OnlyUser(w: World, rk: RankMap, e: Connection, f: Connection)
    requires w.conns.Keys == {e, f}
    ensures SrcAddress(e) !in {SrcAddress(f), DstAddress(f)} ==> Stored(AddressUsers(w, SrcAddress(e)), rk) <= {e}
    ensures SrcPort(e) !in {SrcPort(f), DstPort(f)} ==> Stored(PortUsers(w, SrcPort(e)), rk) <= {e}
  {
  }

  lemma ListedStored(list: Items, rk: RankMap, e: Connection)
    requires Ordered(list, rk) && |list| == 1 && e == list[0].conn
    ensures e in rk && Conns(list) == {e}
  {
  }

  /** The listed connection's host gets a name that sorts behind the other's; the other is never looked at. */
  method ResolveCanLoseTop(c: Connection, d: Connection, info: HostInfo) returns (l: ConnectionList)
    requires SrcAddress(c) !in {SrcAddress(d), DstAddress(d)} && SrcAddress(d) != DstAddress(c) && info.hostname != ""
    ensures fresh(l) && l.Valid() && !l.HasTop()
  {
    hide Ranks, Shows, Less, Ordered, TopK, Contains, Conns, OthersComeLate, AddressUsers, PortUsers, Stored, NoUserPassed;
    var e, f;
    l, e, f := ListOneOf(c, d, BySrcHostname);
    ghost var w := l.world;
    l.ResolveAddress(SrcAddress(e), info);
    NamedLater(l.world, f, e);
    RankDecides(l.world, l.mode, f, e);
    OnlyUser(w, l.Rk(), e, f);
    OneLeftBehind(l.Rk(), e, f, Stored(AddressUsers(w, SrcAddress(e)), l.Rk()), 1);
  }

  /** Likewise for a service name. */
  method ResolvePortCanLoseTop(c: Connection, d: Connection, service: string) returns (l: ConnectionList)
    requires SrcPort(c) !in {SrcPort(d), DstPort(d)} && SrcPort(d) != DstPort(c) && service != ""
    ensures fresh(l) && l.Valid() && !l.HasTop()
  {
    hide Ranks, Shows, Less, Ordered, TopK, Contains, Conns, OthersComeLate, AddressUsers, PortUsers, Stored, NoUserPassed;
    var e, f;
    l, e, f := ListOneOf(c, d, BySrcService);
    ghost var w := l.world;
    l.ResolvePort(SrcPort(e), service);
    ServedLater(l.world, f, e);
    RankDecides(l.world, l.mode, f, e);
    OnlyUser(w, l.Rk(), e, f);
    OneLeftBehind(l.Rk(), e, f, Stored(PortUsers(w, SrcPort(e)), l.Rk()), 1);
  }
}
