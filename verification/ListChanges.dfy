/**
  How the order and the rows of the connection list follow changes of the data behind it.
*/
module ListChanges {
  import opened Connections
  import opened Ordering
  import opened ListWindow

  /** Nothing that the list shows or sorts by has changed for c. */
  predicate SameData(w: World, w': World, c: Connection) {
    && DataOf(w', c) == DataOf(w, c)
    && HostOf(w', SrcAddress(c)) == HostOf(w, SrcAddress(c)) && HostOf(w', DstAddress(c)) == HostOf(w, DstAddress(c))
    && ServiceOf(w', SrcPort(c)) == ServiceOf(w, SrcPort(c)) && ServiceOf(w', DstPort(c)) == ServiceOf(w, DstPort(c))
  }

  lemma RankSame(w: World, w': World, mode: SortMode, a: Connection, b: Connection)
    requires a in w.conns && b in w.conns && a in w'.conns && b in w'.conns
    requires Less(w, mode, b, a) == Less(w', mode, b, a)
    ensures Ranks(w, mode)[a] <= Ranks(w, mode)[b] <==> Ranks(w', mode)[a] <= Ranks(w', mode)[b]
  {
    RankDecides(w, mode, b, a);
    RankDecides(w', mode, b, a);
  }

  lemma LessSame(w: World, w': World, mode: SortMode, a: Connection, b: Connection)
    requires SameData(w, w', a) && SameData(w, w', b)
    ensures Less(w, mode, a, b) == Less(w', mode, a, b)
  {
  }

  /** Two connections that did not change keep their order. */
  lemma OrderSame(w: World, w': World, mode: SortMode, a: Connection, b: Connection)
    requires a in w.conns && b in w.conns && a in w'.conns && b in w'.conns
    requires SameData(w, w', a) && SameData(w, w', b)
    ensures Ranks(w, mode)[a] <= Ranks(w, mode)[b] <==> Ranks(w', mode)[a] <= Ranks(w', mode)[b]
  {
    LessSame(w, w', mode, b, a);
    RankSame(w, w', mode, a, b);
  }

  /** The order of all listed connections that did not change. */
  predicate KeepsData(list: Items, w: World, w': World) {
    forall i :: 0 <= i < |list| ==> list[i].conn in w'.conns && SameData(w, w', list[i].conn)
  }

  lemma WorldOrdered(list: Items, w: World, w': World, mode: SortMode)
    requires Ordered(list, Ranks(w, mode)) && KeepsData(list, w, w')
    ensures Ordered(list, Ranks(w', mode))
  {
    forall i, j | 0 <= i < j < |list| ensures Ranks(w', mode)[list[i].conn] <= Ranks(w', mode)[list[j].conn] {
      OrderSame(w, w', mode, list[i].conn, list[j].conn);
    }
  }

  /** What did not come before the last listed connection still does not. */
  lemma WorldTop(list: Items, w: World, w': World, mode: SortMode)
    requires Ordered(list, Ranks(w, mode)) && KeepsData(list, w, w') && TopK(list, Ranks(w, mode)) && list != []
    ensures forall d :: d in w'.conns && d in w.conns && SameData(w, w', d) && !Contains(list, d) ==>
      Known(list, Ranks(w', mode)) && Ranks(w', mode)[d] >= LastRank(list, Ranks(w', mode))
  {
    forall d | d in w'.conns && d in w.conns && SameData(w, w', d) && !Contains(list, d)
      ensures Ranks(w', mode)[d] >= LastRank(list, Ranks(w', mode)) {
      OrderSame(w, w', mode, list[|list| - 1].conn, d);
    }
  }

  lemma ShownSame(w: World, w': World, c: Connection, col: Column)
    requires SameData(w, w', c)
    ensures Shown(w', c, col) == Shown(w, c, col)
  {
  }

  /** The columns show everything: rows that look alike are of connections with the same data, names and numbers. */
  lemma ShownDecides(w: World, w': World, c: Connection)
    requires c in w.conns && c in w'.conns
    ensures (forall col :: Shown(w', c, col) == Shown(w, c, col)) <==> SameData(w, w', c)
    ensures (forall col :: Shown(w', c, col) == Shown(w, c, col)) ==> w'.conns[c] == w.conns[c]
  {
    if forall col :: Shown(w', c, col) == Shown(w, c, col) {
      assert Shown(w', c, CState) == Shown(w, c, CState);
      assert Shown(w', c, CSrcAddress) == Shown(w, c, CSrcAddress) && Shown(w', c, CDstAddress) == Shown(w, c, CDstAddress);
      assert Shown(w', c, CSrcPort) == Shown(w, c, CSrcPort) && Shown(w', c, CDstPort) == Shown(w, c, CDstPort);
      assert Shown(w', c, CRxPackets) == Shown(w, c, CRxPackets) && Shown(w', c, CTxPackets) == Shown(w, c, CTxPackets);
      assert Shown(w', c, CRxBytes) == Shown(w, c, CRxBytes) && Shown(w', c, CTxBytes) == Shown(w, c, CTxBytes);
      assert Shown(w', c, CRxSpeed) == Shown(w, c, CRxSpeed) && Shown(w', c, CTxSpeed) == Shown(w, c, CTxSpeed);
    }
  }

  lemma WorldShows(s: Screen, w: World, w': World, list: Items, scroll: nat, cursor: nat, refresh: bool)
    requires Shows(s, w, list, scroll, cursor, refresh)
    requires forall i :: scroll <= i < |list| ==> SameData(w, w', list[i].conn)
    ensures Shows(s, w', list, scroll, cursor, refresh)
  {
    forall i | scroll <= i < |list| ensures RowOk(s, w', list[i], i - scroll, i - scroll == cursor) {
      RowSame(s, w, w', list[i], i - scroll, i - scroll == cursor);
    }
  }

  lemma RowSame(s: Screen, w: World, w': World, item: Item, row: nat, isCursor: bool)
    requires RowOk(s, w, item, row, isCursor) && SameData(w, w', item.conn)
    ensures RowOk(s, w', item, row, isCursor)
  {
    forall col ensures Marks(item.flags, col) || CellOk(s, row, col, Cell(Shown(w', item.conn, col), isCursor)) {
      ShownSame(w, w', item.conn, col);
      assert Marks(item.flags, col) || CellOk(s, row, col, Cell(Shown(w, item.conn, col), isCursor));
    }
  }

  /** Flagging what changed keeps a row orderly. */
  lemma RowFlagged(s: Screen, w: World, w': World, item: Item, flags: Flags, row: nat, isCursor: bool)
    requires RowOk(s, w, item, row, isCursor) && SameColumns(w, w', item.conn, flags)
    ensures RowOk(s, w', item.(flags := Or(item.flags, flags), dirty := true), row, isCursor)
  {
    forall col ensures Marks(Or(item.flags, flags), col) || CellOk(s, row, col, Cell(Shown(w', item.conn, col), isCursor)) {
      assert Marks(item.flags, col) || CellOk(s, row, col, Cell(Shown(w, item.conn, col), isCursor));
      assert Marks(flags, col) || Shown(w', item.conn, col) == Shown(w, item.conn, col);
    }
  }

  /** A list in order except at one place is in order when that place fits its neighbours. */
  lemma NeighboursSorted(list: Items, rk: RankMap, k: nat)
    requires Known(list, rk) && Distinct(list) && k < |list|
    requires forall i, j :: 0 <= i < j < |list| && i != k && j != k ==> rk[list[i].conn] <= rk[list[j].conn]
    requires k > 0 ==> rk[list[k - 1].conn] <= rk[list[k].conn]
    requires k + 1 < |list| ==> rk[list[k].conn] <= rk[list[k + 1].conn]
    ensures Ordered(list, rk)
  {
    forall i, j | 0 <= i < j < |list| ensures rk[list[i].conn] <= rk[list[j].conn] {
      if j == k && i < k - 1 { assert rk[list[i].conn] <= rk[list[k - 1].conn]; }
      if i == k && j > k + 1 { assert rk[list[k + 1].conn] <= rk[list[j].conn]; }
    }
  }

  /** When the cursor moves between flagged rows, no other row changes its colours. */
  lemma CursorShows(s: Screen, w: World, list: Items, scroll: nat, cursor: nat, cursor': nat, refresh: bool)
    requires Shows(s, w, list, scroll, cursor, refresh)
    requires scroll + cursor < |list| ==> list[scroll + cursor].flags.All? && list[scroll + cursor].dirty
    requires scroll + cursor' < |list| ==> list[scroll + cursor'].flags.All? && list[scroll + cursor'].dirty
    ensures Shows(s, w, list, scroll, cursor', refresh)
  {
    forall i | scroll <= i < |list| ensures RowOk(s, w, list[i], i - scroll, i - scroll == cursor') {
      if i - scroll != cursor && i - scroll != cursor' {
        assert RowOk(s, w, list[i], i - scroll, i - scroll == cursor);
      }
    }
  }

  /** TopK for all connections but c. */
  predicate TopBut(list: Items, rk: RankMap, c: Connection) {
    Known(list, rk) &&
    (list != [] ==> forall d :: d in rk && d != c && !Contains(list, d) ==> rk[d] >= LastRank(list, rk))
  }

  /** The storage gains c, and nothing else changes. */
  predicate GrowsBy(w: World, w': World, c: Connection) {
    && c !in w.conns && w'.conns.Keys == w.conns.Keys + {c}
    && forall d :: d in w.conns ==> SameData(w, w', d)
  }

  lemma AddedGrows(w: World, c: Connection, d: ConnectionData)
    requires c !in w.conns
    ensures GrowsBy(w, w.(conns := w.conns[c := d]), c)
  {
  }

  lemma WorldGrows(
    s: Screen, w: World, w': World, mode: SortMode, list: Items, c: Connection, scroll: nat, cursor: nat, refresh: bool)
    requires Ordered(list, Ranks(w, mode)) && Shows(s, w, list, scroll, cursor, refresh) && GrowsBy(w, w', c)
    ensures Ordered(list, Ranks(w', mode)) && !Contains(list, c) && Shows(s, w', list, scroll, cursor, refresh)
    ensures |w'.conns| == |w.conns| + 1
  {
    hide Ranks, Less, SameData;
    assert |w'.conns.Keys| == |w.conns.Keys| + 1;
    WorldOrdered(list, w, w', mode);
    WorldShows(s, w, w', list, scroll, cursor, refresh);
  }

  lemma WorldGrowsTop(w: World, w': World, mode: SortMode, list: Items, c: Connection)
    requires Ordered(list, Ranks(w, mode)) && TopK(list, Ranks(w, mode)) && GrowsBy(w, w', c)
    ensures TopBut(list, Ranks(w', mode), c)
  {
    hide Ranks, Less, SameData, Sorted, Distinct;
    if list != [] { WorldTop(list, w, w', mode); }
  }

  // ---------------------------------------------------------------- one connection leaves, or gets new values

  /** The storage loses c, and nothing else changes. */
  predicate ShrinksBy(w: World, w': World, c: Connection) {
    && c in w.conns && w'.conns.Keys == w.conns.Keys - {c}
    && forall d :: d in w'.conns ==> SameData(w, w', d)
  }

  lemma RemovedShrinks(w: World, c: Connection)
    requires c in w.conns
    ensures ShrinksBy(w, w.(conns := w.conns - {c}), c)
  {
  }

  /** Without the lost connection the list is still in order and keeps its top. */
  lemma WorldShrinks(w: World, w': World, mode: SortMode, list: Items, list': Items, c: Connection)
    requires ShrinksBy(w, w', c) && Ordered(list, Ranks(w, mode)) && Ordered(list', Ranks(w, mode))
    requires forall d :: Contains(list', d) <==> Contains(list, d) && d != c
    ensures Ordered(list', Ranks(w', mode))
    ensures TopK(list, Ranks(w, mode)) ==> TopK(list', Ranks(w', mode))
  {
    hide Ranks, Less, SameData;
    forall i | 0 <= i < |list'| ensures list'[i].conn in w'.conns && Contains(list, list'[i].conn) {
      assert Contains(list', list'[i].conn);
    }
    WorldOrdered(list', w, w', mode);
    if TopK(list, Ranks(w, mode)) && list' != [] {
      var e := list'[|list'| - 1].conn;
      var m :| 0 <= m < |list| && list[m].conn == e;
      assert Ranks(w, mode)[e] <= LastRank(list, Ranks(w, mode));
      forall d | d in w'.conns && !Contains(list', d) ensures Ranks(w', mode)[d] >= Ranks(w', mode)[e] {
        OrderSame(w, w', mode, e, d);
      }
    }
  }

  /** Only c has new values, in the given columns. */
  predicate Changes1(w: World, w': World, c: Connection, flags: Flags) {
    && c in w.conns && w'.conns.Keys == w.conns.Keys
    && SameColumns(w, w', c, flags)
    && forall d :: d in w.conns && d != c ==> SameData(w, w', d)
  }

  /** When only c changed, the reordered list keeps its top exactly if no unlisted connection now comes before c. */
  lemma MovedTop(list: Items, list': Items, w: World, w': World, mode: SortMode, c: Connection, flags: Flags)
    requires Changes1(w, w', c, flags)
    requires Ordered(list, Ranks(w, mode)) && TopK(list, Ranks(w, mode)) && Contains(list, c)
    requires Ordered(list', Ranks(w', mode)) && forall d :: Contains(list', d) <==> Contains(list, d)
    ensures TopK(list', Ranks(w', mode)) <==> NonePrecedes(w', mode, list, c)
  {
    var rk, rk' := Ranks(w, mode), Ranks(w', mode);
    hide Ranks, Less, SameData;
    forall d | d in w'.conns ensures !Less(w', mode, d, c) <==> rk'[d] >= rk'[c] { RankDecides(w', mode, d, c); }
    assert Contains(list', c);
    LastListed(list', rk', c);
    var e := list'[|list'| - 1].conn;
    assert Contains(list', e);
    if e != c {
      LastListed(list, rk, e);
      forall d | d in w'.conns && !Contains(list', d) ensures rk'[d] >= rk'[e] {
        OrderSame(w, w', mode, e, d);
      }
    }
  }

  /** No unlisted connection comes before c. */
  predicate NonePrecedes(w: World, mode: SortMode, list: Items, c: Connection) {
    forall d :: d in w.conns && !Contains(list, d) ==> !Less(w, mode, d, c)
  }

  /** A list with its top has no unlisted connection before a listed one. */
  lemma NoneBefore(list: Items, w: World, mode: SortMode, c: Connection)
    requires Ordered(list, Ranks(w, mode)) && TopK(list, Ranks(w, mode)) && Contains(list, c)
    ensures NonePrecedes(w, mode, list, c)
  {
    hide Less, Ranks;
    LastListed(list, Ranks(w, mode), c);
    forall d | d in w.conns && !Contains(list, d) ensures !Less(w, mode, d, c) { RankDecides(w, mode, d, c); }
  }

  /** A listed connection that does not move behind any unlisted one, or has none to move behind, costs nothing. */
  lemma NotLaterKeepsTop(list: Items, w: World, w': World, mode: SortMode, c: Connection, flags: Flags)
    requires Changes1(w, w', c, flags)
    requires Ordered(list, Ranks(w, mode)) && TopK(list, Ranks(w, mode)) && Contains(list, c)
    requires forall d :: d in w.conns && !Contains(list, d) && Less(w', mode, d, c) ==> Less(w, mode, d, c)
    ensures NonePrecedes(w', mode, list, c)
  {
    hide Less, Ranks;
    NoneBefore(list, w, mode, c);
  }

  lemma LastListed(list: Items, rk: RankMap, c: Connection)
    requires Ordered(list, rk) && Contains(list, c)
    ensures list != [] && rk[c] <= LastRank(list, rk)
  {
  }

  /** The columns that ConnectionData::Deserialize may set, by their flags. */
  function ColumnsOf(flags: int): set<Column> {
    (if HasFlag(flags, PROTO_STATE) then {CState} else {}) +
    (if HasFlag(flags, RX_PACKETS) then {CRxPackets} else {}) + (if HasFlag(flags, TX_PACKETS) then {CTxPackets} else {}) +
    (if HasFlag(flags, RX_BYTES) then {CRxBytes} else {}) + (if HasFlag(flags, TX_BYTES) then {CTxBytes} else {}) +
    (if HasFlag(flags, RX_SPEED) then {CRxSpeed} else {}) + (if HasFlag(flags, TX_SPEED) then {CTxSpeed} else {})
  }

  function Patched(w: World, c: Connection, u: ConnectionData, flags: int): World
    requires c in w.conns
  {
    w.(conns := w.conns[c := Patch(w.conns[c], u, flags)])
  }

  lemma PatchedColumn(w: World, c: Connection, u: ConnectionData, flags: int, col: Column)
    requires c in w.conns
    ensures Marks(Only(ColumnsOf(flags)), col) || Shown(Patched(w, c, u, flags), c, col) == Shown(w, c, col)
  {
    hide HasFlag;
  }

  lemma PatchChanges(w: World, c: Connection, u: ConnectionData, flags: int)
    requires c in w.conns
    ensures Changes1(w, Patched(w, c, u, flags), c, Only(ColumnsOf(flags)))
    ensures Patched(w, c, u, flags).conns.Keys == w.conns.Keys && |Patched(w, c, u, flags).conns| == |w.conns|
  {
    var w' := Patched(w, c, u, flags);
    forall col ensures Marks(Only(ColumnsOf(flags)), col) || Shown(w', c, col) == Shown(w, c, col) {
      PatchedColumn(w, c, u, flags, col);
    }
    assert |w'.conns.Keys| == |w.conns.Keys|;
    hide HasFlag, Patch, ColumnsOf, Shown;
  }

  lemma NothingPatched(w: World, c: Connection, u: ConnectionData, flags: int)
    requires c in w.conns && ColumnsOf(flags) == {}
    ensures Patched(w, c, u, flags) == w
  {
    hide HasFlag;
    assert CState !in ColumnsOf(flags) && CRxPackets !in ColumnsOf(flags) && CTxPackets !in ColumnsOf(flags);
    assert CRxBytes !in ColumnsOf(flags) && CTxBytes !in ColumnsOf(flags);
    assert CRxSpeed !in ColumnsOf(flags) && CTxSpeed !in ColumnsOf(flags);
    assert Patch(w.conns[c], u, flags) == w.conns[c];
  }

  /** Flagging the changed item, when it is visible, keeps the screen orderly. */
  lemma UpdatedShows(
    s: Screen, w: World, w': World, list: Items, k: nat, flags: Flags, scroll: nat, cursor: nat, refresh: bool)
    requires k < |list| && Changes1(w, w', list[k].conn, flags)
    requires Known(list, Ranks(w, SortMode(ByNone, false))) && Distinct(list) && Shows(s, w, list, scroll, cursor, refresh)
    ensures Shows(s, w', list[k := list[k].(flags := Or(list[k].flags, flags), dirty := true)], scroll, cursor, true)
    ensures k < scroll ==> Shows(s, w', list, scroll, cursor, refresh)
  {
    hide SameData, RowOk, Ranks, Less, Shown;
    var b := list[k := list[k].(flags := Or(list[k].flags, flags), dirty := true)];
    forall i | scroll <= i < |list|
      ensures RowOk(s, w', b[i], i - scroll, i - scroll == cursor) && (k < scroll ==> b[i] == list[i]) {
      if i == k {
        RowFlagged(s, w, w', list[k], flags, k - scroll, k - scroll == cursor);
      } else {
        RowSame(s, w, w', list[i], i - scroll, i - scroll == cursor);
      }
    }
  }

  /** An unlisted connection got new values: nothing that is shown changed, and only its own place is open. */
  lemma UnlistedChange(s: Screen, w: World, w': World, mode: SortMode, list: Items, c: Connection, flags: Flags,
                       scroll: nat, cursor: nat, refresh: bool)
    requires Changes1(w, w', c, flags) && !Contains(list, c)
    requires Ordered(list, Ranks(w, mode)) && Shows(s, w, list, scroll, cursor, refresh)
    ensures Ordered(list, Ranks(w', mode)) && Shows(s, w', list, scroll, cursor, refresh)
    ensures TopK(list, Ranks(w, mode)) ==> TopBut(list, Ranks(w', mode), c)
  {
    hide SameData, Ranks, Less, RowOk;
    forall i | 0 <= i < |list| ensures list[i].conn in w'.conns && SameData(w, w', list[i].conn) {
      assert list[i].conn != c;
    }
    WorldOrdered(list, w, w', mode);
    WorldShows(s, w, w', list, scroll, cursor, refresh);
    if TopK(list, Ranks(w, mode)) && list != [] { WorldTop(list, w, w', mode); }
  }

  /** A listed connection got new values: the list is in order if the neighbours say so. */
  lemma ListedChange(w: World, w': World, mode: SortMode, list: Items, k: nat, flags: Flags)
    requires k < |list| && Ordered(list, Ranks(w, mode)) && Changes1(w, w', list[k].conn, flags)
    requires k > 0 ==> Ranks(w', mode)[list[k - 1].conn] <= Ranks(w', mode)[list[k].conn]
    requires k + 1 < |list| ==> Ranks(w', mode)[list[k].conn] <= Ranks(w', mode)[list[k + 1].conn]
    ensures Ordered(list, Ranks(w', mode))
  {
    hide SameData, Ranks, Less;
    forall i, j | 0 <= i < j < |list| && i != k && j != k
      ensures Ranks(w', mode)[list[i].conn] <= Ranks(w', mode)[list[j].conn] {
      OrderSame(w, w', mode, list[i].conn, list[j].conn);
    }
    NeighboursSorted(list, Ranks(w', mode), k);
  }

  // ---------------------------------------------------------------- the resolver learns about an address or a port

  /** The connections whose source or destination was resolved, and the columns that show it. */
  datatype Users = Users(src: set<Connection>, dst: set<Connection>, srcColumn: Column, dstColumn: Column)

  function UsedColumns(u: Users, c: Connection): set<Column> {
    (if c in u.src then {u.srcColumn} else {}) + (if c in u.dst then {u.dstColumn} else {})
  }

  predicate Uses(u: Users, c: Connection) { c in u.src || c in u.dst }

  /** Only the users have new values, in their columns; the order follows only if `affectsOrder`. */
  ghost predicate Resolves(w: World, w': World, mode: SortMode, u: Users, affectsOrder: bool) {
    && w'.conns == w.conns
    && (forall c :: c in w.conns && !Uses(u, c) ==> SameData(w, w', c))
    && (forall c :: c in w.conns ==> SameColumns(w, w', c, Only(UsedColumns(u, c))))
    && (!affectsOrder ==> forall a, b :: a in w.conns && b in w.conns ==> Less(w, mode, a, b) == Less(w', mode, a, b))
  }

  function FlagUser(item: Item, u: Users): Item {
    if Uses(u, item.conn) then item.(flags := Or(item.flags, Only(UsedColumns(u, item.conn))), dirty := true) else item
  }

  function FlagUsers(list: Items, from: nat, u: Users): Items {
    seq(|list|, i requires 0 <= i < |list| => if i >= from then FlagUser(list[i], u) else list[i])
  }

  lemma FlagUsersShows(
    s: Screen, w: World, w': World, mode: SortMode, list: Items, u: Users, affectsOrder: bool, from: nat, scroll: nat,
    cursor: nat, refresh: bool)
    requires Resolves(w, w', mode, u, affectsOrder) && Ordered(list, Ranks(w, mode))
    requires Shows(s, w, list, scroll, cursor, refresh) && (from == scroll || |list| <= scroll)
    ensures Shows(s, w', FlagUsers(list, from, u), scroll, cursor,
                  refresh || exists i :: scroll <= i < |list| && Uses(u, list[i].conn))
  {
    hide SameData, RowOk, Ranks, Less, Shown, Sorted, Distinct, Or, UsedColumns;
    var b := FlagUsers(list, from, u);
    forall i | scroll <= i < |b| ensures RowOk(s, w', b[i], i - scroll, i - scroll == cursor) {
      if Uses(u, list[i].conn) {
        RowFlagged(s, w, w', list[i], Only(UsedColumns(u, list[i].conn)), i - scroll, i - scroll == cursor);
      } else {
        RowSame(s, w, w', list[i], i - scroll, i - scroll == cursor);
      }
    }
  }

  /** With no listed user, or no effect on the order, the list is still in order. */
  lemma UnusedOrdered(w: World, w': World, mode: SortMode, list: Items, u: Users, affectsOrder: bool)
    requires Resolves(w, w', mode, u, affectsOrder) && Ordered(list, Ranks(w, mode))
    requires affectsOrder ==> forall i :: 0 <= i < |list| ==> !Uses(u, list[i].conn)
    ensures Ordered(list, Ranks(w', mode))
    ensures !affectsOrder && TopK(list, Ranks(w, mode)) ==> TopK(list, Ranks(w', mode))
  {
    hide SameData, Ranks, Less, Shown, SameColumns;
    forall i, j | 0 <= i < j < |list| ensures Ranks(w', mode)[list[i].conn] <= Ranks(w', mode)[list[j].conn] {
      if affectsOrder {
        OrderSame(w, w', mode, list[i].conn, list[j].conn);
      } else {
        RankSame(w, w', mode, list[i].conn, list[j].conn);
      }
    }
    if !affectsOrder && TopK(list, Ranks(w, mode)) && list != [] {
      forall d | d in w'.conns && !Contains(list, d) ensures Ranks(w', mode)[d] >= LastRank(list, Ranks(w', mode)) {
        RankSame(w, w', mode, list[|list| - 1].conn, d);
      }
    }
  }

  /** TopK for all connections but those still to be looked at. */
  predicate TopExcept(list: Items, rk: RankMap, rest: set<Connection>) {
    Known(list, rk) &&
    (list != [] ==> forall d :: d in rk && d !in rest && !Contains(list, d) ==> rk[d] >= LastRank(list, rk))
  }

  // ---------------------------------------------------------------- what a resolved name leaves of the top

  function Stored(u: Users, rk: RankMap): set<Connection> { (u.src + u.dst) * rk.Keys }

  /** The users outside the list that now come before a listed connection. */
  function Newcomers(rk: RankMap, listed: set<Connection>, users: set<Connection>): set<Connection>
    requires listed <= rk.Keys && users <= rk.Keys
  {
    set x | x in users && x !in listed && exists y :: y in listed && rk[x] < rk[y]
  }

  /** The members of the pool that do not come after d. */
  function NotAfter(rk: RankMap, pool: set<Connection>, d: Connection): set<Connection>
    requires pool <= rk.Keys && d in rk
  {
    set x | x in pool && rk[x] <= rk[d]
  }

  /** How many connections are listed once the users had their chance to enter. */
  function ResolvedLength(rk: RankMap, listed: set<Connection>, users: set<Connection>, limit: nat): nat
    requires listed <= rk.Keys && users <= rk.Keys
  {
    var n := |listed| + |Newcomers(rk, listed, users)|;
    if n < limit then n else limit
  }

  /**
    Only listed connections and users are looked at. Whatever else is stored has to come after, or level with, as
    many of them as will be listed.
  */
  predicate OthersComeLate(rk: RankMap, listed: set<Connection>, users: set<Connection>, limit: nat)
    requires listed <= rk.Keys && users <= rk.Keys
  {
    forall d :: d in rk && d !in listed + users ==>
      |NotAfter(rk, listed + users, d)| >= ResolvedLength(rk, listed, users, limit)
  }

  function Restricted(rk: RankMap, pool: set<Connection>): RankMap
    requires pool <= rk.Keys
  {
    map x | x in pool :: rk[x]
  }

  lemma ListedConns(list: Items, c: Connection)
    ensures Contains(list, c) <==> c in Conns(list)
  {
  }

  /** A list that is the top of a pool is the top of everything exactly if nothing outside fits in. */
  lemma PoolDecidesTop(list: Items, rk: RankMap, pool: set<Connection>)
    requires pool <= rk.Keys && Ordered(list, rk) && Conns(list) <= pool && TopExcept(list, Restricted(rk, pool), {})
    ensures TopK(list, rk) <==> forall d :: d in rk && d !in pool ==> |NotAfter(rk, pool, d)| >= |list|
  {
    CountConns(list);
    forall d ensures Contains(list, d) <==> d in Conns(list) { ListedConns(list, d); }
    if list != [] {
      if TopK(list, rk) {
        forall d | d in rk && d !in pool ensures |NotAfter(rk, pool, d)| >= |list| {
          SmallerSet(Conns(list), NotAfter(rk, pool, d));
        }
      }
      forall d | d in rk && d !in pool && rk[d] < LastRank(list, rk) ensures |NotAfter(rk, pool, d)| < |list| {
        forall x | x in NotAfter(rk, pool, d) ensures x in Conns(list) {
          assert Restricted(rk, pool)[x] == rk[x];
        }
        assert list[|list| - 1].conn in Conns(list) && list[|list| - 1].conn !in NotAfter(rk, pool, d);
        SmallerSet(NotAfter(rk, pool, d), Conns(list));
      }
    }
  }

  /** What has entered the list so far, and how long that made it. */
  predicate Grown(list: Items, rk: RankMap, listed: set<Connection>, last: int, entering: set<Connection>, limit: nat) {
    && Ordered(list, rk) && list != [] && |list| <= limit && |list| <= |listed| + |entering|
    && (|list| < limit ==> Conns(list) == listed + entering && LastRank(list, rk) == last)
  }

  function EnteringOf(rk: RankMap, start: Items, users: set<Connection>): set<Connection>
    requires Known(start, rk) && start != [] && users <= rk.Keys
  {
    set x | x in users && x !in Conns(start) && rk[x] < LastRank(start, rk)
  }

  /** While the list is not full, entering it drops nothing and leaves the last item last. */
  lemma EnteredWhole(old_: Items, list: Items, rk: RankMap, c: Connection, limit: nat)
    requires Entered(old_, list, rk, c, limit) && |list| < limit
    ensures Conns(list) == Conns(old_) + {c} && LastRank(list, rk) == LastRank(old_, rk)
  {
    hide Sorted, Distinct;
    forall d ensures Contains(list, d) <==> d in Conns(list) { ListedConns(list, d); }
    forall d ensures Contains(old_, d) <==> d in Conns(old_) { ListedConns(old_, d); }
    var e := old_[|old_| - 1].conn;
    assert e in Conns(old_) && Contains(list, e);
    hide Contains, Conns;
    LastListed(list, rk, e);
  }

  lemma GrownByOne(
    old_: Items, list: Items, rk: RankMap, listed: set<Connection>, last: int, entering: set<Connection>, limit: nat, c: Connection)
    requires Grown(old_, rk, listed, last, entering, limit) && Entered(old_, list, rk, c, limit)
    requires c !in entering
    ensures Grown(list, rk, listed, last, entering + {c}, limit)
  {
    hide Ordered, Contains, Conns, LastRank;
    if |list| < limit {
      EnteredWhole(old_, list, rk, c, limit);
      assert listed + entering + {c} == listed + (entering + {c});
    }
  }

  /** One more user looked at: it enters before the last item, unless it is listed, or it stays out. */
  ghost predicate LookedAt(old_: Items, list: Items, rk: RankMap, c: Connection, limit: nat) {
    && Known(old_, rk) && old_ != [] && c in rk
    && if Contains(old_, c) || rk[c] >= LastRank(old_, rk) then list == old_ else Entered(old_, list, rk, c, limit)
  }

  lemma GrowthStep(old_: Items, list: Items, rk: RankMap, start: Items, visited: set<Connection>, c: Connection, limit: nat)
    requires Known(start, rk) && start != [] && visited <= rk.Keys && c !in visited && LookedAt(old_, list, rk, c, limit)
    requires Grown(old_, rk, Conns(start), LastRank(start, rk), EnteringOf(rk, start, visited), limit)
    ensures Grown(list, rk, Conns(start), LastRank(start, rk), EnteringOf(rk, start, visited + {c}), limit)
  {
    hide Ordered, Contains, Conns, LastRank;
    var before, after := EnteringOf(rk, start, visited), EnteringOf(rk, start, visited + {c});
    ListedConns(old_, c);
    if c !in Conns(start) && rk[c] < LastRank(start, rk) {
      assert after == before + {c};
      if list != old_ || |old_| < limit {
        GrownByOne(old_, list, rk, Conns(start), LastRank(start, rk), before, limit, c);
      }
    } else {
      assert after == before;
      if list != old_ {
        GrownFull(old_, list, rk, Conns(start), LastRank(start, rk), before, limit, c);
      }
    }
  }

  /** A full list stays as long as it is. */
  lemma GrownFull(
    old_: Items, list: Items, rk: RankMap, listed: set<Connection>, last: int, entering: set<Connection>, limit: nat, c: Connection)
    requires Grown(old_, rk, listed, last, entering, limit) && Entered(old_, list, rk, c, limit) && |old_| == limit
    ensures Grown(list, rk, listed, last, entering, limit)
  {
    hide Ordered, Contains, Conns, LastRank;
  }

  /** What was looked at and stayed out, or was pushed out, does not come before the last item. */
  lemma PoolStep(old_: Items, list: Items, rk: RankMap, pool: set<Connection>, rest: set<Connection>, c: Connection, limit: nat)
    requires pool <= rk.Keys && c in pool && Conns(old_) <= pool && LookedAt(old_, list, rk, c, limit)
    requires TopExcept(old_, Restricted(rk, pool), rest + {c})
    ensures Conns(list) <= pool && TopExcept(list, Restricted(rk, pool), rest)
  {
    hide Ordered;
    forall d ensures Contains(list, d) <==> d in Conns(list) { ListedConns(list, d); }
    forall d ensures Contains(old_, d) <==> d in Conns(old_) { ListedConns(old_, d); }
    hide Contains;
    forall i | 0 <= i < |list| ensures list[i].conn in Conns(list) { }
    hide Conns;
  }

  /** At the end, those that entered are the newcomers. */
  lemma GrownLength(list: Items, rk: RankMap, start: Items, users: set<Connection>, limit: nat)
    requires Ordered(start, rk) && start != [] && users <= rk.Keys
    requires Conns(start) <= rk.Keys
    requires Grown(list, rk, Conns(start), LastRank(start, rk), EnteringOf(rk, start, users), limit)
    ensures |list| == ResolvedLength(rk, Conns(start), users, limit)
  {
    var listed := Conns(start);
    forall x | x in users && x !in listed ensures rk[x] < LastRank(start, rk) <==> exists y :: y in listed && rk[x] < rk[y] {
      assert start[|start| - 1].conn in listed;
    }
    assert EnteringOf(rk, start, users) == Newcomers(rk, listed, users);
    CountConns(list);
    hide EnteringOf;
    if |list| < limit {
      assert |listed + Newcomers(rk, listed, users)| == |listed| + |Newcomers(rk, listed, users)|;
    }
  }

  /** Midway through the users: those not in `rest` were looked at. */
  predicate InPool(list: Items, rk: RankMap, start: Items, users: set<Connection>, rest: set<Connection>, limit: nat) {
    && Known(start, rk) && start != [] && users <= rk.Keys && Conns(start) <= rk.Keys
    && Conns(list) <= Conns(start) + users
    && TopExcept(list, Restricted(rk, Conns(start) + users), users * rest)
    && Grown(list, rk, Conns(start), LastRank(start, rk), EnteringOf(rk, start, users - rest), limit)
  }

  lemma PoolStart(list: Items, rk: RankMap, users: set<Connection>, limit: nat)
    requires Ordered(list, rk) && list != [] && |list| <= limit && users <= rk.Keys
    ensures InPool(list, rk, list, users, rk.Keys, limit)
  {
    CountConns(list);
    forall d ensures Contains(list, d) <==> d in Conns(list) { ListedConns(list, d); }
    assert users - rk.Keys == {} && users * rk.Keys == users;
    assert EnteringOf(rk, list, {}) == {};
    assert Conns(list) + {} == Conns(list);
  }

  lemma InPoolStep(
    old_: Items, list: Items, rk: RankMap, start: Items, users: set<Connection>, rest: set<Connection>, c: Connection, limit: nat)
    requires InPool(old_, rk, start, users, rest + {c}, limit) && c in users && c !in rest && LookedAt(old_, list, rk, c, limit)
    ensures InPool(list, rk, start, users, rest, limit)
  {
    hide Ordered, Contains, Conns, LastRank, Grown, TopExcept, Restricted, EnteringOf, LookedAt;
    assert users * (rest + {c}) == users * rest + {c} && users - rest == (users - (rest + {c})) + {c};
    PoolStep(old_, list, rk, Conns(start) + users, users * rest, c, limit);
    GrowthStep(old_, list, rk, start, users - (rest + {c}), c, limit);
  }

  /** When all users were looked at, the list is the top exactly if nothing else fits in. */
  lemma PoolEnd(list: Items, rk: RankMap, start: Items, users: set<Connection>, limit: nat)
    requires InPool(list, rk, start, users, {}, limit) && Ordered(start, rk)
    ensures TopK(list, rk) <==> OthersComeLate(rk, Conns(start), users, limit)
  {
    hide Contains, Conns, LastRank, EnteringOf, TopExcept, Restricted, TopK, NotAfter;
    assert users * {} == {} && users - {} == users;
    PoolDecidesTop(list, rk, Conns(start) + users);
    GrownLength(list, rk, start, users, limit);
  }

  lemma SameListed(a: Items, b: Items)
    requires forall d :: Contains(a, d) <==> Contains(b, d)
    ensures Conns(a) == Conns(b)
  {
    forall d ensures d in Conns(a) <==> d in Conns(b) {
      ListedConns(a, d);
      ListedConns(b, d);
    }
  }

  /** When the order is not affected, neither is the top. */
  lemma OrderKept(w: World, w': World, mode: SortMode, list: Items, u: Users)
    requires Resolves(w, w', mode, u, false) && Ordered(list, Ranks(w, mode))
    ensures Known(list, Ranks(w', mode)) && (TopK(list, Ranks(w', mode)) <==> TopK(list, Ranks(w, mode)))
  {
    hide SameData, Ranks, Less, Shown, SameColumns, Sorted, Distinct;
    if list != [] {
      forall d | d in w.conns
        ensures Ranks(w', mode)[d] >= LastRank(list, Ranks(w', mode)) <==> Ranks(w, mode)[d] >= LastRank(list, Ranks(w, mode)) {
        RankSame(w, w', mode, list[|list| - 1].conn, d);
      }
    }
  }

  /** No unlisted connection that was not resolved comes before a listed one that was. */
  predicate NoUserPassed(w: World, mode: SortMode, list: Items, u: Users) {
    forall d, i :: d in w.conns && !Uses(u, d) && !Contains(list, d) && 0 <= i < |list| && Uses(u, list[i].conn) ==>
      !Less(w, mode, d, list[i].conn)
  }

  /** In particular nothing is lost while no unlisted connection passed a listed user. */
  lemma UnpassedIsLate(w: World, w': World, mode: SortMode, list: Items, u: Users, limit: nat)
    requires Resolves(w, w', mode, u, true) && Ordered(list, Ranks(w, mode)) && TopK(list, Ranks(w, mode))
    requires NoUserPassed(w', mode, list, u)
    ensures var rk := Ranks(w', mode); Conns(list) <= rk.Keys && OthersComeLate(rk, Conns(list), Stored(u, rk), limit)
  {
    hide SameData, Ranks, Less, Shown, SameColumns, Sorted, Distinct;
    var rk, listed := Ranks(w', mode), Conns(list);
    var users := Stored(u, rk);
    forall d | d in rk && d !in listed + users
      ensures |NotAfter(rk, listed + users, d)| >= |listed| + |Newcomers(rk, listed, users)|
    {
      forall i | 0 <= i < |list| ensures rk[list[i].conn] <= rk[d] { Unpassed(w, w', mode, list, u, i, d); }
      assert listed + Newcomers(rk, listed, users) <= NotAfter(rk, listed + users, d);
      assert |listed + Newcomers(rk, listed, users)| == |listed| + |Newcomers(rk, listed, users)|;
      SmallerSet(listed + Newcomers(rk, listed, users), NotAfter(rk, listed + users, d));
    }
  }

  lemma Unpassed(w: World, w': World, mode: SortMode, list: Items, u: Users, i: nat, d: Connection)
    requires Resolves(w, w', mode, u, true) && Ordered(list, Ranks(w, mode)) && TopK(list, Ranks(w, mode))
    requires NoUserPassed(w', mode, list, u) && i < |list| && d in w.conns && d !in Conns(list) && !Uses(u, d)
    ensures Ranks(w', mode)[list[i].conn] <= Ranks(w', mode)[d]
  {
    hide SameData, Ranks, Less, Shown, SameColumns, Sorted, Distinct;
    var c := list[i].conn;
    ListedConns(list, d);
    RankDecides(w', mode, d, c);
    if !Uses(u, c) {
      assert Contains(list, c);
      LastListed(list, Ranks(w, mode), c);
      OrderSame(w, w', mode, c, d);
    }
  }

  predicate SortsByHost(key: SortKey) {
    key.BySrcHostname? || key.ByDstHostname? || key.BySrcCountry? || key.ByDstCountry? || key.BySrcAsn? || key.ByDstAsn?
  }

  predicate SortsByService(key: SortKey) { key.BySrcService? || key.ByDstService? }

  lemma HostsMatterNot(w: World, hosts: map<Address, HostInfo>, key: SortKey, a: Connection, b: Connection)
    requires !SortsByHost(key)
    ensures Ascending(w, key, a, b) == Ascending(w.(hosts := hosts), key, a, b)
  {
  }

  lemma ServicesMatterNot(w: World, services: map<Port, string>, key: SortKey, a: Connection, b: Connection)
    requires !SortsByService(key)
    ensures Ascending(w, key, a, b) == Ascending(w.(services := services), key, a, b)
  {
  }

  function AddressUsers(w: World, a: Address): Users {
    Users((set c | c in w.conns && SrcAddress(c) == a), (set c | c in w.conns && DstAddress(c) == a), CSrcAddress, CDstAddress)
  }

  function PortUsers(w: World, p: Port): Users {
    Users((set c | c in w.conns && SrcPort(c) == p), (set c | c in w.conns && DstPort(c) == p), CSrcPort, CDstPort)
  }

  lemma HostColumns(w: World, a: Address, info: HostInfo, c: Connection)
    ensures var w' := w.(hosts := w.hosts[a := info]);
      var flags := Only(UsedColumns(AddressUsers(w, a), c));
      c in w.conns ==> SameColumns(w, w', c, flags) && (!Uses(AddressUsers(w, a), c) ==> SameData(w, w', c))
  {
  }

  lemma AddressResolves(w: World, mode: SortMode, a: Address, info: HostInfo)
    ensures Resolves(w, w.(hosts := w.hosts[a := info]), mode, AddressUsers(w, a), SortsByHost(mode.key))
  {
    var w' := w.(hosts := w.hosts[a := info]);
    forall c | c in w.conns
      ensures SameColumns(w, w', c, Only(UsedColumns(AddressUsers(w, a), c)))
      ensures !Uses(AddressUsers(w, a), c) ==> SameData(w, w', c)
    {
      HostColumns(w, a, info, c);
    }
    if !SortsByHost(mode.key) {
      forall c, d ensures Less(w, mode, c, d) == Less(w', mode, c, d) {
        HostsMatterNot(w, w'.hosts, mode.key, c, d);
        HostsMatterNot(w, w'.hosts, mode.key, d, c);
        hide Ascending;
      }
    }
    hide Less, SameData, SameColumns, AddressUsers, UsedColumns, Uses;
  }

  lemma ServiceColumns(w: World, p: Port, service: string, c: Connection)
    ensures var w' := w.(services := w.services[p := service]);
      var flags := Only(UsedColumns(PortUsers(w, p), c));
      c in w.conns ==> SameColumns(w, w', c, flags) && (!Uses(PortUsers(w, p), c) ==> SameData(w, w', c))
  {
  }

  lemma PortResolves(w: World, mode: SortMode, p: Port, service: string)
    ensures Resolves(w, w.(services := w.services[p := service]), mode, PortUsers(w, p), SortsByService(mode.key))
  {
    var w' := w.(services := w.services[p := service]);
    forall c | c in w.conns
      ensures SameColumns(w, w', c, Only(UsedColumns(PortUsers(w, p), c)))
      ensures !Uses(PortUsers(w, p), c) ==> SameData(w, w', c)
    {
      ServiceColumns(w, p, service, c);
    }
    if !SortsByService(mode.key) {
      forall c, d ensures Less(w, mode, c, d) == Less(w', mode, c, d) {
        ServicesMatterNot(w, w'.services, mode.key, c, d);
        ServicesMatterNot(w, w'.services, mode.key, d, c);
        hide Ascending;
      }
    }
    hide Less, SameData, SameColumns, PortUsers, UsedColumns, Uses;
  }
}
