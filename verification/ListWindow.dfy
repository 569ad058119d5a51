/**
  The contents of the connection list as values: items with their dirty flags, the order they must keep, the
  screen a user interface draws from the updates it is given, and what each edit of the list preserves
  (Source/ConnectionList.hpp, Source/ConnectionList.cpp).
*/
module ListWindow {
  import opened Connections
  import opened Ordering

  /** The columns of EConnectionUpdateFlags. */
  datatype Column =
    | CProto | CState | CSrcAddress | CDstAddress | CSrcPort | CDstPort
    | CRxPackets | CTxPackets | CRxBytes | CTxBytes | CRxSpeed | CTxSpeed

  /** A word of update flags; All stands for -1. */
  datatype Flags = All | Only(columns: set<Column>)

  predicate Marks(f: Flags, col: Column) { f.All? || col in f.columns }

  function Or(f: Flags, g: Flags): Flags {
    if f.All? || g.All? then All else Only(f.columns + g.columns)
  }

  const NO_FLAGS := Only({})

  datatype Item = Item(conn: Connection, flags: Flags, dirty: bool)

  function NewItem(c: Connection): Item { Item(c, All, true) }

  type Items = seq<Item>
  type RankMap = map<Connection, int>

  // ---------------------------------------------------------------- contents

  predicate Contains(list: Items, c: Connection) { exists i :: 0 <= i < |list| && list[i].conn == c }

  predicate Known(list: Items, rk: RankMap) { forall i :: 0 <= i < |list| ==> list[i].conn in rk }

  predicate Distinct(list: Items) { forall i, j :: 0 <= i < j < |list| ==> list[i].conn != list[j].conn }

  predicate Sorted(list: Items, rk: RankMap)
    requires Known(list, rk)
  {
    forall i, j :: 0 <= i < j < |list| ==> rk[list[i].conn] <= rk[list[j].conn]
  }

  predicate Ordered(list: Items, rk: RankMap) { Known(list, rk) && Distinct(list) && Sorted(list, rk) }

  function LastRank(list: Items, rk: RankMap): int
    requires list != [] && Known(list, rk)
  {
    rk[list[|list| - 1].conn]
  }

  /** No connection outside the list comes before its last item. */
  predicate TopK(list: Items, rk: RankMap)
    requires Known(list, rk)
  {
    list != [] ==> forall c :: c in rk && !Contains(list, c) ==> rk[c] >= LastRank(list, rk)
  }

  function Conns(list: Items): set<Connection> { set i | 0 <= i < |list| :: list[i].conn }

  lemma {:induction false} CountConns(list: Items)
    requires Distinct(list)
    ensures |Conns(list)| == |list|
    decreases |list|
  {
    if list == [] {
    } else {
      var rest := list[..|list| - 1];
      CountConns(rest);
      assert Conns(list) == Conns(rest) + {list[|list| - 1].conn};
    }
  }

  /** A list of distinct known connections is no longer than there are connections, and holds all if as long. */
  lemma Bounded(list: Items, rk: RankMap)
    requires Known(list, rk) && Distinct(list)
    ensures |list| <= |rk|
    ensures |list| == |rk| <==> forall c :: c in rk ==> Contains(list, c)
  {
    CountConns(list);
    assert Conns(list) <= rk.Keys;
    SmallerSet(Conns(list), rk.Keys);
    if |list| == |rk| {
      forall c | c in rk ensures Contains(list, c) { assert c in Conns(list); }
    }
    if forall c :: c in rk ==> Contains(list, c) {
      forall c | c in rk ensures c in Conns(list) {
        var i :| 0 <= i < |list| && list[i].conn == c;
      }
      assert Conns(list) == rk.Keys;
    }
  }

  // ---------------------------------------------------------------- edits

  function InsertAt(list: Items, idx: nat, item: Item): Items
    requires idx <= |list|
  {
    list[..idx] + [item] + list[idx..]
  }

  /** The position std::upper_bound returns: all before it are not after c, all from it on are. */
  predicate IsUpperBound(list: Items, rk: RankMap, idx: nat, c: Connection)
    requires Known(list, rk) && c in rk
  {
    && idx <= |list|
    && (forall i :: 0 <= i < idx ==> rk[list[i].conn] <= rk[c])
    && (forall i :: idx <= i < |list| ==> rk[c] < rk[list[i].conn])
  }

  lemma InsertOrdered(list: Items, rk: RankMap, idx: nat, item: Item)
    requires Ordered(list, rk) && item.conn in rk && IsUpperBound(list, rk, idx, item.conn) && !Contains(list, item.conn)
    ensures Ordered(InsertAt(list, idx, item), rk)
  {
    var b := InsertAt(list, idx, item);
    forall i | 0 <= i < |b| ensures b[i] == if i < idx then list[i] else if i == idx then item else list[i - 1] {
    }
  }

  lemma InsertContents(list: Items, idx: nat, item: Item, c: Connection)
    requires idx <= |list|
    ensures Contains(InsertAt(list, idx, item), c) <==> c == item.conn || Contains(list, c)
  {
    var b := InsertAt(list, idx, item);
    if c == item.conn { assert b[idx].conn == c; }
    if Contains(list, c) {
      var i :| 0 <= i < |list| && list[i].conn == c;
      assert b[if i < idx then i else i + 1].conn == c;
    }
  }

  /** What is dropped with the end of an ordered list does not come before what is left. */
  lemma DroppedRank(list: Items, rk: RankMap, n: nat, c: Connection)
    requires Ordered(list, rk) && 0 < n <= |list| && Contains(list, c) && !Contains(list[..n], c)
    ensures c in rk && n < |list| && rk[c] >= LastRank(list[..n], rk)
  {
  }

  /** Dropping items at the end keeps the order and the top. */
  lemma PrefixTop(list: Items, rk: RankMap, n: nat)
    requires Ordered(list, rk) && n <= |list|
    ensures Ordered(list[..n], rk)
    ensures forall c :: Contains(list[..n], c) ==> Contains(list, c)
    ensures TopK(list, rk) ==> TopK(list[..n], rk)
  {
    var p := list[..n];
    forall c | Contains(p, c) ensures Contains(list, c) {
      var i :| 0 <= i < n && p[i].conn == c;
      assert list[i].conn == c;
    }
    if TopK(list, rk) && p != [] {
      forall c | c in rk && !Contains(p, c) ensures rk[c] >= LastRank(p, rk) {
        assert LastRank(p, rk) <= LastRank(list, rk);
        if Contains(list, c) { DroppedRank(list, rk, n, c); }
      }
    }
  }

  /** A new list after an insertion that may have pushed the last item out. */
  ghost predicate Admits(old_: Items, list: Items, rk: RankMap, c: Connection, limit: nat)
    requires Known(old_, rk) && Known(list, rk) && old_ != [] && list != []
  {
    && |list| == (if |old_| < limit then |old_| + 1 else |old_|)
    && (forall d :: Contains(list, d) ==> d == c || Contains(old_, d))
    && (forall d :: (d == c || Contains(old_, d)) && !Contains(list, d) ==> |list| == limit && d in rk && rk[d] >= LastRank(list, rk))
    && LastRank(list, rk) <= LastRank(old_, rk)
  }

  lemma InsertBack(list: Items, idx: nat, item: Item)
    requires idx < |list|
    ensures |InsertAt(list, idx, item)| == |list| + 1
    ensures InsertAt(list, idx, item)[|list|] == list[|list| - 1]
  {
  }

  /** Inserting before the last item and dropping the last item of a list that was full. */
  lemma InsertAdmits(old_: Items, rk: RankMap, idx: nat, item: Item, limit: nat)
    requires Ordered(old_, rk) && item.conn in rk && IsUpperBound(old_, rk, idx, item.conn) && !Contains(old_, item.conn)
    requires old_ != [] && |old_| <= limit && rk[item.conn] < LastRank(old_, rk)
    ensures var list := InsertAt(old_, idx, item)[..if |old_| < limit then |old_| + 1 else |old_|];
      Entered(old_, list, rk, item.conn, limit)
  {
    InsertBack(old_, idx, item);
    InsertOrdered(old_, rk, idx, item);
    var b := InsertAt(old_, idx, item);
    var n := if |old_| < limit then |old_| + 1 else |old_|;
    PrefixTop(b, rk, n);
    forall d ensures Contains(b, d) <==> d == item.conn || Contains(old_, d) {
      InsertContents(old_, idx, item, d);
    }
    forall d | Contains(b, d) && !Contains(b[..n], d) ensures d in rk && rk[d] >= LastRank(b[..n], rk) {
      DroppedRank(b, rk, n, d);
    }
    assert n == |b| ==> b[..n] == b;
    hide InsertAt;
    hide Contains;
  }

  /** A listed order that a connection not listed may enter before the last item. */
  predicate Enters(list: Items, rk: RankMap, c: Connection, limit: nat) {
    Ordered(list, rk) && list != [] && |list| <= limit && c in rk && !Contains(list, c) && rk[c] < LastRank(list, rk)
  }

  ghost predicate Entered(old_: Items, list: Items, rk: RankMap, c: Connection, limit: nat) {
    Ordered(old_, rk) && old_ != [] && Ordered(list, rk) && list != [] && |old_| <= limit && Admits(old_, list, rk, c, limit)
  }

  /** What stays outside an entered list does not come before its last item. */
  lemma EnteredTop(old_: Items, list: Items, rk: RankMap, c: Connection, limit: nat)
    requires Entered(old_, list, rk, c, limit)
    requires forall d :: d in rk && d != c && !Contains(old_, d) ==> rk[d] >= LastRank(old_, rk)
    ensures TopK(list, rk)
  {
  }

  lemma PushOrdered(list: Items, rk: RankMap, item: Item)
    requires Ordered(list, rk) && item.conn in rk && !Contains(list, item.conn)
    requires list != [] ==> rk[item.conn] >= LastRank(list, rk)
    ensures Ordered(list + [item], rk)
    ensures forall c :: Contains(list + [item], c) <==> c == item.conn || Contains(list, c)
  {
    var b := list + [item];
    forall i, j | 0 <= i < j < |b| ensures b[i].conn != b[j].conn && rk[b[i].conn] <= rk[b[j].conn] {
      assert list[i] == b[i];
      if j == |list| && i < |list| - 1 { assert rk[list[i].conn] <= rk[list[|list| - 1].conn]; }
    }
    forall c ensures Contains(b, c) <==> c == item.conn || Contains(list, c) {
      if c == item.conn { assert b[|list|].conn == c; }
      if Contains(list, c) {
        var i :| 0 <= i < |list| && list[i].conn == c;
        assert b[i].conn == c;
      }
    }
  }

  function EraseAt(list: Items, idx: nat): Items
    requires idx < |list|
  {
    list[..idx] + list[idx + 1..]
  }

  lemma EraseOrdered(list: Items, rk: RankMap, idx: nat)
    requires Ordered(list, rk) && idx < |list|
    ensures Ordered(EraseAt(list, idx), rk)
    ensures forall c :: Contains(EraseAt(list, idx), c) <==> Contains(list, c) && c != list[idx].conn
  {
    var b := EraseAt(list, idx);
    forall i | 0 <= i < |b| ensures b[i] == list[if i < idx then i else i + 1] {
    }
    forall c ensures Contains(b, c) <==> Contains(list, c) && c != list[idx].conn {
      if Contains(list, c) && c != list[idx].conn {
        var i :| 0 <= i < |list| && list[i].conn == c;
        assert b[if i < idx then i else i - 1].conn == c;
      }
    }
  }

  // ---------------------------------------------------------------- screen

  /** What a cell's text is a function of. */
  datatype Value =
    | Kind(kind: ConnectionType) | State(protocol: Protocol, state: int) | Number(value: int)
    | Host(text: string, info: HostInfo) | Service(number: int, name: string)

  /** A cell shows a value, highlighted when it was drawn as part of the cursor row. */
  datatype Cell = Cell(value: Value, highlighted: bool)

  type Row = map<Column, Cell>
  type Screen = map<nat, Row>

  function Shown(w: World, c: Connection, col: Column): Value {
    match col
    case CProto => Kind(c.kind)
    case CState => State(ProtocolOf(c.kind), DataOf(w, c).state)
    case CSrcAddress => Host(c.src, HostOf(w, SrcAddress(c)))
    case CDstAddress => Host(c.dst, HostOf(w, DstAddress(c)))
    case CSrcPort => Service(c.srcPort, ServiceOf(w, SrcPort(c)))
    case CDstPort => Service(c.dstPort, ServiceOf(w, DstPort(c)))
    case CRxPackets => Number(DataOf(w, c).traffic.rxPackets)
    case CTxPackets => Number(DataOf(w, c).traffic.txPackets)
    case CRxBytes => Number(DataOf(w, c).traffic.rxBytes)
    case CTxBytes => Number(DataOf(w, c).traffic.txBytes)
    case CRxSpeed => Number(DataOf(w, c).traffic.rxSpeed)
    case CTxSpeed => Number(DataOf(w, c).traffic.txSpeed)
  }

  function FullRow(w: World, c: Connection, isCursor: bool): Row {
    map col: Column | true :: Cell(Shown(w, c, col), isCursor)
  }

  /** What getNextUpdate returns. */
  datatype RowUpdate = RowUpdate(conn: Connection, flags: Flags, row: nat, isCursor: bool)

  /** Drawing an update repaints the flagged cells of its row and nothing else. */
  function Draw(s: Screen, w: World, u: RowUpdate): Screen {
    var painted := map col: Column | Marks(u.flags, col) :: Cell(Shown(w, u.conn, col), u.isCursor);
    s[u.row := if u.row in s then s[u.row] + painted else painted]
  }

  predicate CellOk(s: Screen, row: nat, col: Column, cell: Cell) {
    row in s && col in s[row] && s[row][col] == cell
  }

  /** Every cell of the row that is not flagged already shows what a full redraw would. */
  predicate RowOk(s: Screen, w: World, item: Item, row: nat, isCursor: bool) {
    && (!item.dirty ==> item.flags == NO_FLAGS)
    && forall col :: Marks(item.flags, col) || CellOk(s, row, col, Cell(Shown(w, item.conn, col), isCursor))
  }

  /** The screen can be brought up to date from the flags of the visible rows. */
  predicate Shows(s: Screen, w: World, list: Items, scroll: nat, cursor: nat, refresh: bool) {
    forall i :: scroll <= i < |list| ==>
      RowOk(s, w, list[i], i - scroll, i - scroll == cursor) && (list[i].dirty ==> refresh)
  }

  predicate SameColumns(w: World, w': World, c: Connection, except: Flags) {
    forall col :: Marks(except, col) || Shown(w', c, col) == Shown(w, c, col)
  }

  /** Repainting the flagged cells of an orderly row makes it the full row. */
  lemma DrawnRow(s: Screen, w: World, item: Item, row: nat, isCursor: bool)
    requires RowOk(s, w, item, row, isCursor)
    ensures var d := Draw(s, w, RowUpdate(item.conn, item.flags, row, isCursor));
      RowOk(d, w, item.(flags := NO_FLAGS, dirty := false), row, isCursor)
  {
  }

  /** Drawing leaves the other rows alone. */
  lemma OtherRow(s: Screen, w: World, u: RowUpdate, item: Item, row: nat, isCursor: bool)
    requires RowOk(s, w, item, row, isCursor) && row != u.row
    ensures RowOk(Draw(s, w, u), w, item, row, isCursor)
  {
    assert forall col :: CellOk(s, row, col, Cell(Shown(w, item.conn, col), isCursor)) ==>
      CellOk(Draw(s, w, u), row, col, Cell(Shown(w, item.conn, col), isCursor));
  }

  /** Once a returned update is drawn, the screen goes with the list in which its row is clean. */
  lemma DrawnShows(s: Screen, w: World, list: Items, k: nat, scroll: nat, cursor: nat, refresh: bool)
    requires Shows(s, w, list, scroll, cursor, refresh) && scroll <= k < |list|
    ensures var u := RowUpdate(list[k].conn, list[k].flags, k - scroll, k - scroll == cursor);
      Shows(Draw(s, w, u), w, list[k := list[k].(flags := NO_FLAGS, dirty := false)], scroll, cursor, refresh)
  {
    var u := RowUpdate(list[k].conn, list[k].flags, k - scroll, k - scroll == cursor);
    var b := list[k := list[k].(flags := NO_FLAGS, dirty := false)];
    DrawnRow(s, w, list[k], k - scroll, k - scroll == cursor);
    hide RowOk, Draw;
    forall i | scroll <= i < |b| ensures RowOk(Draw(s, w, u), w, b[i], i - scroll, i - scroll == cursor) {
      if i != k { OtherRow(s, w, u, list[i], i - scroll, i - scroll == cursor); }
    }
  }

  /** An orderly row without flags is the full row. */
  lemma CleanRow(s: Screen, w: World, item: Item, row: nat, isCursor: bool)
    requires RowOk(s, w, item, row, isCursor) && item.flags == NO_FLAGS
    ensures row in s && s[row] == FullRow(w, item.conn, isCursor)
  {
    assert forall col: Column :: CellOk(s, row, col, Cell(Shown(w, item.conn, col), isCursor));
    assert CellOk(s, row, CProto, Cell(Shown(w, item.conn, CProto), isCursor));
  }

  // ---------------------------------------------------------------- dirty rows

  function DirtyRows(list: Items, from: nat): nat
    decreases |list| - from
  {
    if from >= |list| then 0 else (if list[from].dirty then 1 else 0) + DirtyRows(list, from + 1)
  }

  lemma {:induction false} CleanedRow(list: Items, from: nat, i: nat)
    requires from <= i < |list| && list[i].dirty
    ensures DirtyRows(list[i := list[i].(flags := NO_FLAGS, dirty := false)], from) == DirtyRows(list, from) - 1
    decreases i - from
  {
    var m := list[i := list[i].(flags := NO_FLAGS, dirty := false)];
    if from == i {
      SameRows(list, m, from + 1);
    } else {
      CleanedRow(list, from + 1, i);
    }
  }

  lemma {:induction false} SameRows(a: Items, b: Items, from: nat)
    requires |a| == |b| && forall i :: from <= i < |a| ==> a[i] == b[i]
    ensures DirtyRows(a, from) == DirtyRows(b, from)
    decreases |a| - from
  {
    if from >= |a| {
    } else {
      SameRows(a, b, from + 1);
    }
  }

  // ---------------------------------------------------------------- filling

  /** Filling has visited some connections: each is listed, or the list is full and it comes no earlier than the last. */
  ghost predicate Filling(list: Items, rk: RankMap, visited: set<Connection>, limit: nat) {
    && Ordered(list, rk) && list != [] && |list| <= limit
    && forall d :: d in visited && d in rk && !Contains(list, d) ==> |list| == limit && rk[d] >= LastRank(list, rk)
  }

  lemma FillInsert(list: Items, list': Items, rk: RankMap, visited: set<Connection>, c: Connection, limit: nat)
    requires Filling(list, rk, visited, limit) && Entered(list, list', rk, c, limit)
    ensures Filling(list', rk, visited + {c}, limit)
  {
  }

  lemma FillPush(list: Items, rk: RankMap, visited: set<Connection>, c: Connection, limit: nat)
    requires Filling(list, rk, visited, limit) && c in rk && !Contains(list, c)
    requires rk[c] >= LastRank(list, rk) && |list| < limit
    ensures Filling(list + [NewItem(c)], rk, visited + {c}, limit)
  {
    PushOrdered(list, rk, NewItem(c));
  }

  lemma FillSkip(list: Items, rk: RankMap, visited: set<Connection>, c: Connection, limit: nat)
    requires Filling(list, rk, visited, limit)
    requires c in rk && (Contains(list, c) || (rk[c] >= LastRank(list, rk) && |list| == limit))
    ensures Filling(list, rk, visited + {c}, limit)
  {
  }

  lemma Filled(list: Items, rk: RankMap, limit: nat)
    requires Filling(list, rk, rk.Keys, limit)
    ensures TopK(list, rk) && |list| == if |rk| < limit then |rk| else limit
  {
    Bounded(list, rk);
  }
}
