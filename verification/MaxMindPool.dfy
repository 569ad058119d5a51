/**
  The pool that the entry list is allocated from (Library/MaxMindDB/Source/data-pool.c): blocks of doubling
  size, whose elements are linked up at the end. An element is named by its block and its position there.
*/
module MaxMindPool {
  import opened Numbers
  import opened Options
  import opened MaxMindDecoder

  const NUM_BLOCKS := 32
  const SIZE_MAX := 0xFFFF_FFFF_FFFF_FFFF

  /** sizeof(MMDB_entry_data_list_s) on a 64-bit platform. */
  const ELEMENT_SIZE := 64

  datatype Address = Address(block: nat, position: nat)

  datatype Cell = Cell(entry: Entry, next: Option<Address>)

  const ZERO_ENTRY := Entry(0, 0, 0, 0, NoContent)
  const ZERO_CELL := Cell(ZERO_ENTRY, None)

  /** can_multiply: m * n does not exceed max; never for m = 0. */
  predicate CanMultiply(max: nat, m: nat, n: nat) { m != 0 && n <= max / m }

  lemma CanMultiplyMeans(max: nat, m: nat, n: nat)
    ensures CanMultiply(max, m, n) <==> m > 0 && m * n <= max
  {
    if m > 0 {
      var q, r := max / m, max % m;
      assert max == m * q + r;
      if n <= q { MulOrder(m, n, q); } else { MulOrder(m, q + 1, n); assert m * (q + 1) == m * q + m; }
    }
  }

  lemma MulOrder(m: nat, a: nat, b: nat)
    requires a <= b
    ensures m * a <= m * b
  {
  }

  lemma {:induction false} SumPrefix(sizes: seq<nat>, i: nat)
    requires i < |sizes|
    ensures Sum(sizes[..i]) + sizes[i] <= Sum(sizes)
    decreases |sizes|
  {
    if i == |sizes| - 1 {
    } else {
      assert sizes[..|sizes| - 1][..i] == sizes[..i];
      SumPrefix(sizes[..|sizes| - 1], i);
    }
  }

  lemma {:induction false} SumOrder(sizes: seq<nat>, i: nat, j: nat)
    requires i < j <= |sizes|
    ensures Sum(sizes[..i]) + sizes[i] <= Sum(sizes[..j])
  {
    assert sizes[..j][..i] == sizes[..i];
    SumPrefix(sizes[..j], i);
  }

  /** An element's place in the order of allocation. */
  function Rank(sizes: seq<nat>, a: Address): nat
    requires a.block <= |sizes|
  {
    Sum(sizes[..a.block]) + a.position
  }

  /** Elements of earlier blocks come first, within a block the earlier positions. */
  lemma RankOrder(sizes: seq<nat>, a: Address, b: Address)
    requires a.block < |sizes| && b.block < |sizes| && a.position < sizes[a.block] && b.position < sizes[b.block]
    ensures Rank(sizes, a) < Rank(sizes, b) <==> a.block < b.block || (a.block == b.block && a.position < b.position)
    ensures Rank(sizes, a) == Rank(sizes, b) <==> a == b
  {
    if a.block < b.block { SumOrder(sizes, a.block, b.block); }
    if b.block < a.block { SumOrder(sizes, b.block, a.block); }
  }

  /** How much of each block is in use: all of it, but for the last. */
  function Filled(sizes: seq<nat>, used: nat, block: nat): nat
    requires block < |sizes|
  {
    if block == |sizes| - 1 then used else sizes[block]
  }

  /** An address that has been handed out. */
  predicate InUse(sizes: seq<nat>, used: nat, a: Address) { a.block < |sizes| && a.position < Filled(sizes, used, a.block) }

  /** The element after this one: its neighbour, or the first of the next block. */
  function Successor(sizes: seq<nat>, used: nat, a: Address): Option<Address>
    requires a.block < |sizes|
  {
    if a.position + 1 < Filled(sizes, used, a.block) then Some(Address(a.block, a.position + 1))
    else if a.block + 1 < |sizes| then Some(Address(a.block + 1, 0))
    else None
  }

  predicate SizesOk(sizes: seq<nat>, used: nat) {
    && 0 < |sizes| <= NUM_BLOCKS && used <= sizes[|sizes| - 1] && (|sizes| > 1 ==> used > 0)
    && (forall i :: 0 <= i < |sizes| ==> sizes[i] > 0)
  }

  function Count(sizes: seq<nat>, used: nat): nat
    requires |sizes| > 0
  {
    Sum(sizes[..|sizes| - 1]) + used
  }

  lemma RankInUse(sizes: seq<nat>, used: nat, a: Address)
    requires SizesOk(sizes, used) && InUse(sizes, used, a)
    ensures Rank(sizes, a) < Count(sizes, used)
  {
    if a.block < |sizes| - 1 { SumOrder(sizes, a.block, |sizes| - 1); }
  }

  /** Along the links the rank goes up by one, to the last element. */
  lemma SuccessorRank(sizes: seq<nat>, used: nat, a: Address)
    requires SizesOk(sizes, used) && InUse(sizes, used, a)
    ensures match Successor(sizes, used, a)
      case Some(b) => InUse(sizes, used, b) && Rank(sizes, b) == Rank(sizes, a) + 1
      case None => Rank(sizes, a) + 1 == Count(sizes, used)
  {
    if a.block + 1 < |sizes| {
      assert sizes[..a.block + 1][..a.block] == sizes[..a.block];
    }
  }

  lemma FirstInUse(sizes: seq<nat>, used: nat)
    requires SizesOk(sizes, used) && Count(sizes, used) > 0
    ensures InUse(sizes, used, Address(0, 0))
  {
  }

  /** Every address in use stays in use, at its rank. */
  ghost predicate Keeps(sizes: seq<nat>, used: nat, sizes': seq<nat>, used': nat) {
    forall b: Address :: InUse(sizes, used, b) ==> InUse(sizes', used', b) && Rank(sizes', b) == Rank(sizes, b)
  }

  type Cells = seq<seq<Cell>>

  /** An element in use holds its entry; another is still zero; neither is linked. */
  predicate CellOk(cell: Cell, sizes: seq<nat>, used: nat, contents: seq<Entry>, a: Address)
    requires a.block < |sizes|
  {
    if a.position < Filled(sizes, used, a.block)
    then Rank(sizes, a) < |contents| && cell == Cell(contents[Rank(sizes, a)], None)
    else cell == ZERO_CELL
  }

  predicate CellsOk(cells: Cells, sizes: seq<nat>, used: nat, contents: seq<Entry>) {
    && SizesOk(sizes, used) && |cells| == |sizes| && |contents| == Count(sizes, used)
    && (forall i :: 0 <= i < |cells| ==> |cells[i]| == sizes[i])
    && (forall i, j :: 0 <= i < |cells| && 0 <= j < |cells[i]| ==>
        CellOk(cells[i][j], sizes, used, contents, Address(i, j)))
  }

  lemma NextTaken(cells: Cells, sizes: seq<nat>, used: nat, contents: seq<Entry>)
    requires CellsOk(cells, sizes, used, contents) && used < sizes[|sizes| - 1]
    ensures CellsOk(cells, sizes, used + 1, contents + [ZERO_ENTRY]) && Keeps(sizes, used, sizes, used + 1)
    ensures InUse(sizes, used + 1, Address(|sizes| - 1, used)) && Rank(sizes, Address(|sizes| - 1, used)) == |contents|
  {
    forall i, j | 0 <= i < |cells| && 0 <= j < |cells[i]|
      ensures CellOk(cells[i][j], sizes, used + 1, contents + [ZERO_ENTRY], Address(i, j))
    {
      assert CellOk(cells[i][j], sizes, used, contents, Address(i, j));
    }
  }

  /** A new block at the end changes no rank. */
  lemma GrowRanks(sizes: seq<nat>, newSize: nat)
    ensures forall a: Address :: a.block <= |sizes| ==> Sum((sizes + [newSize])[..a.block]) == Sum(sizes[..a.block])
    ensures Sum(sizes[..|sizes|]) == Sum(sizes) && Count(sizes + [newSize], 1) == Sum(sizes) + 1
  {
    forall a: Address | a.block <= |sizes| ensures Sum((sizes + [newSize])[..a.block]) == Sum(sizes[..a.block]) {
      assert (sizes + [newSize])[..a.block] == sizes[..a.block];
    }
    assert sizes[..|sizes|] == sizes;
    assert (sizes + [newSize])[..|sizes|] == sizes;
  }

  lemma BlockAdded(cells: Cells, sizes: seq<nat>, contents: seq<Entry>, newSize: nat, block: seq<Cell>)
    requires 0 < |sizes| < NUM_BLOCKS && CellsOk(cells, sizes, sizes[|sizes| - 1], contents) && newSize > 0
    requires |block| == newSize && forall j :: 0 <= j < newSize ==> block[j] == ZERO_CELL
    ensures CellsOk(cells + [block], sizes + [newSize], 1, contents + [ZERO_ENTRY])
    ensures Keeps(sizes, sizes[|sizes| - 1], sizes + [newSize], 1)
    ensures InUse(sizes + [newSize], 1, Address(|sizes|, 0)) && Rank(sizes + [newSize], Address(|sizes|, 0)) == |contents|
  {
    GrowRanks(sizes, newSize);
    assert Count(sizes, sizes[|sizes| - 1]) == Sum(sizes);
    var cells', sizes', contents' := cells + [block], sizes + [newSize], contents + [ZERO_ENTRY];
    forall i, j | 0 <= i < |cells'| && 0 <= j < |cells'[i]|
      ensures CellOk(cells'[i][j], sizes', 1, contents', Address(i, j))
    {
      assert Sum(sizes'[..Address(i, j).block]) == Sum(sizes[..i]);
      if i < |sizes| {
        assert CellOk(cells[i][j], sizes, sizes[|sizes| - 1], contents, Address(i, j));
      }
    }
  }

  lemma EntrySet(cells: Cells, sizes: seq<nat>, used: nat, contents: seq<Entry>, a: Address, e: Entry)
    requires CellsOk(cells, sizes, used, contents) && InUse(sizes, used, a)
    ensures Rank(sizes, a) < |contents| && cells[a.block][a.position] == Cell(contents[Rank(sizes, a)], None)
    ensures CellsOk(cells[a.block := cells[a.block][a.position := Cell(e, None)]], sizes, used, contents[Rank(sizes, a) := e])
  {
    RankInUse(sizes, used, a);
    var cells', contents' := cells[a.block := cells[a.block][a.position := Cell(e, None)]], contents[Rank(sizes, a) := e];
    assert CellOk(cells[a.block][a.position], sizes, used, contents, a);
    forall i, j | 0 <= i < |cells'| && 0 <= j < |cells'[i]|
      ensures CellOk(cells'[i][j], sizes, used, contents', Address(i, j))
    {
      assert CellOk(cells[i][j], sizes, used, contents, Address(i, j));
      if j < Filled(sizes, used, i) {
        RankInUse(sizes, used, Address(i, j));
        RankOrder(sizes, Address(i, j), a);
      }
    }
  }

  predicate CanGrow(size: nat) { CanMultiply(SIZE_MAX, size, 2) && CanMultiply(SIZE_MAX, 2 * size, ELEMENT_SIZE) }

  class DataPool {
    var size: nat
    var used: nat
    var sizes: seq<nat>
    var blocks: seq<array<Cell>>
    /** The entries of the allocated elements, in the order of allocation. */
    ghost var contents: seq<Entry>

    ghost function Repr(): set<object>
      reads this
    {
      set i | 0 <= i < |blocks| :: blocks[i] as object
    }

    /** What the blocks hold. */
    ghost function Snapshot(): Cells
      reads this, Repr()
    {
      seq(|blocks|, i requires 0 <= i < |blocks| reads this, Repr() => blocks[i][..])
    }

    ghost predicate Valid()
      reads this, Repr()
    {
      && (forall i, j :: 0 <= i < j < |blocks| ==> blocks[i] != blocks[j])
      && CellsOk(Snapshot(), sizes, used, contents) && size == sizes[|sizes| - 1]
    }

    ghost predicate Holds(a: Address, k: nat)
      reads this
    {
      InUse(sizes, used, a) && Rank(sizes, a) == k
    }

    constructor (initial: nat)
      requires initial > 0
      ensures Valid() && contents == [] && fresh(Repr()) && sizes == [initial]
    {
      size, used, sizes := initial, 0, [initial];
      var block := new Cell[initial](_ => ZERO_CELL);
      blocks := [block];
      contents := [];
      new;
      assert sizes[..0] == [];
      assert Snapshot() == [block[..]];
    }

    /** Takes the next element; `granted` tells whether calloc has memory for a new block, if one is needed. */
    method Alloc(granted: bool) returns (a: Option<Address>)
      requires Valid()
      modifies this
      ensures Valid() && old(blocks) <= blocks && fresh(Repr() - old(Repr()))
      ensures a.Some? ==> contents == old(contents) + [ZERO_ENTRY] && Holds(a.value, |old(contents)|)
      ensures Keeps(old(sizes), old(used), sizes, used)
      ensures a.None? ==> contents == old(contents)
      ensures a.None? <==> old(used == size && (|blocks| == NUM_BLOCKS || !CanGrow(size) || !granted))
    {
      if used < size {
        a := TakeNext();
      } else if |blocks| == NUM_BLOCKS || !CanGrow(size) || !granted {
        a := None;
      } else {
        a := AddBlock(size * 2);
      }
    }

    method TakeNext() returns (a: Option<Address>)
      requires Valid() && used < size
      modifies this`used, this`contents
      ensures Valid() && Keeps(sizes, old(used), sizes, used)
      ensures a.Some? && contents == old(contents) + [ZERO_ENTRY] && Holds(a.value, |old(contents)|)
    {
      assert |blocks| == |Snapshot()| == |sizes| > 0;
      NextTaken(Snapshot(), sizes, used, contents);
      hide CellsOk, Keeps, Rank, InUse;
      ghost var cells := Snapshot();
      a := Some(Address(|blocks| - 1, used));
      used := used + 1;
      contents := contents + [ZERO_ENTRY];
      assert Snapshot() == cells;
    }

    /** Takes the first element of a new block. */
    method AddBlock(newSize: nat) returns (a: Option<Address>)
      requires Valid() && used == size && newSize > 0 && |blocks| < NUM_BLOCKS
      modifies this
      ensures Valid() && Keeps(old(sizes), old(used), sizes, used) && old(blocks) <= blocks
      ensures a.Some? && contents == old(contents) + [ZERO_ENTRY] && Holds(a.value, |old(contents)|)
      ensures fresh(Repr() - old(Repr()))
    {
      hide Keeps, Rank, InUse, Count, Filled;
      ghost var cells := Snapshot();
      assert |blocks| == |cells| == |sizes| > 0;
      hide CellsOk, SizesOk;
      var block := new Cell[newSize](_ => ZERO_CELL);
      assert forall i :: 0 <= i < |blocks| ==> blocks[i] != block;
      BlockAdded(cells, sizes, contents, newSize, block[..]);
      a := Some(Address(|blocks|, 0));
      blocks := blocks + [block];
      sizes := sizes + [newSize];
      size, used := newSize, 1;
      contents := contents + [ZERO_ENTRY];
      assert Snapshot() == cells + [block[..]];
    }

    /** Writes an entry into an element in use. */
    method SetEntry(a: Address, e: Entry)
      requires Valid() && InUse(sizes, used, a)
      modifies this`contents, Repr()
      ensures Valid() && Rank(sizes, a) < |old(contents)| && contents == old(contents)[Rank(sizes, a) := e]
    {
      ghost var cells := Snapshot();
      EntrySet(cells, sizes, used, contents, a, e);
      hide CellsOk, Rank;
      var block := blocks[a.block];
      block[a.position] := Cell(e, block[a.position].next);
      contents := contents[Rank(sizes, a) := e];
      assert Snapshot() == cells[a.block := cells[a.block][a.position := Cell(e, None)]];
    }

    function EntryAt(a: Address): (e: Entry)
      requires Valid() && InUse(sizes, used, a)
      reads this, Repr()
      ensures Rank(sizes, a) < |contents| && e == contents[Rank(sizes, a)]
    {
      EntrySet(Snapshot(), sizes, used, contents, a, ZERO_ENTRY);
      blocks[a.block][a.position].entry
    }

    /** data_pool_to_list: links the elements up in the order of allocation. */
    method ToList() returns (head: Option<Address>)
      requires Valid()
      modifies Repr()
      ensures head == if contents == [] then None else Some(Address(0, 0))
      ensures contents != [] ==> Linked(Snapshot(), sizes, used, contents)
    {
      hide Linked, LinkedCell;
      if |blocks| == 1 && used == 0 {
        assert sizes[..0] == [];
        return None;
      }
      ghost var before := Snapshot();
      for i := 0 to |blocks|
        invariant |Snapshot()| == |before| == |sizes| && before == old(Snapshot())
        invariant forall b :: 0 <= b < i ==> Snapshot()[b] == LinkedRow(before[b], sizes, used, b)
        invariant forall b :: i <= b < |blocks| ==> Snapshot()[b] == before[b]
      {
        LinkBlock(i);
        assert Snapshot()[i] == LinkedRow(before[i], sizes, used, i);
      }
      RowsLinked(before, Snapshot(), sizes, used, contents);
      return Some(Address(0, 0));
    }

    method LinkBlock(i: nat)
      requires i < |blocks| == |sizes| && blocks[i].Length == sizes[i] && SizesOk(sizes, used)
      requires forall k, l :: 0 <= k < l < |blocks| ==> blocks[k] != blocks[l]
      requires Filled(sizes, used, i) > 0
      modifies blocks[i]
      ensures forall k :: 0 <= k < blocks[i].Length ==>
        blocks[i][k] == LinkedCell(old(blocks[i][k]), sizes, used, Address(i, k))
    {
      var block := blocks[i];
      var filled := Filled(sizes, used, i);
      assert filled <= block.Length;
      hide SizesOk;
      for j := 0 to filled - 1
        invariant forall k :: 0 <= k < block.Length ==>
          block[k] == if k < j then old(block[k]).(next := Some(Address(i, k + 1))) else old(block[k])
      {
        block[j] := block[j].(next := Some(Address(i, j + 1)));
      }
      if i < |blocks| - 1 {
        block[filled - 1] := block[filled - 1].(next := Some(Address(i + 1, 0)));
      }
    }
  }

  /** A cell that points to its successor, if it is in use and has one. */
  function LinkedCell(cell: Cell, sizes: seq<nat>, used: nat, a: Address): Cell
    requires a.block < |sizes|
  {
    if a.position < Filled(sizes, used, a.block) && Successor(sizes, used, a).Some?
    then cell.(next := Successor(sizes, used, a)) else cell
  }

  function LinkedRow(row: seq<Cell>, sizes: seq<nat>, used: nat, i: nat): seq<Cell>
    requires i < |sizes|
  {
    seq(|row|, j requires 0 <= j < |row| => LinkedCell(row[j], sizes, used, Address(i, j)))
  }

  /** Every element in use holds its entry and points to the element allocated after it. */
  predicate Linked(cells: Cells, sizes: seq<nat>, used: nat, contents: seq<Entry>) {
    && SizesOk(sizes, used) && |cells| == |sizes| && |contents| == Count(sizes, used)
    && (forall i :: 0 <= i < |cells| ==> |cells[i]| == sizes[i])
    && (forall i, j :: 0 <= i < |cells| && 0 <= j < Filled(sizes, used, i) ==>
        CellLinked(cells[i][j], sizes, used, contents, Address(i, j)))
  }

  predicate CellLinked(cell: Cell, sizes: seq<nat>, used: nat, contents: seq<Entry>, a: Address)
    requires a.block < |sizes|
  {
    Rank(sizes, a) < |contents| && cell == Cell(contents[Rank(sizes, a)], Successor(sizes, used, a))
  }

  lemma RowsLinked(before: Cells, cells: Cells, sizes: seq<nat>, used: nat, contents: seq<Entry>)
    requires CellsOk(before, sizes, used, contents) && |cells| == |before|
    requires forall b :: 0 <= b < |cells| ==> cells[b] == LinkedRow(before[b], sizes, used, b)
    ensures Linked(cells, sizes, used, contents)
  {
    forall i, j | 0 <= i < |cells| && 0 <= j < Filled(sizes, used, i)
      ensures CellLinked(cells[i][j], sizes, used, contents, Address(i, j))
    {
      assert CellOk(before[i][j], sizes, used, contents, Address(i, j));
    }
  }

  /** The entries met by following `next` from an element, up to `steps` of them. */
  function ReadList(cells: Cells, a: Option<Address>, steps: nat): seq<Entry>
    decreases steps
  {
    if a.None? || steps == 0 || a.value.block >= |cells| || a.value.position >= |cells[a.value.block]| then []
    else
      var cell := cells[a.value.block][a.value.position];
      [cell.entry] + ReadList(cells, cell.next, steps - 1)
  }

  /** The list from an element on is what was allocated from that element on. */
  lemma {:induction false} ListRest(cells: Cells, sizes: seq<nat>, used: nat, contents: seq<Entry>, a: Address, steps: nat)
    requires Linked(cells, sizes, used, contents) && InUse(sizes, used, a) && Rank(sizes, a) < |contents|
    requires steps >= |contents| - Rank(sizes, a)
    ensures ReadList(cells, Some(a), steps) == contents[Rank(sizes, a)..]
    decreases |contents| - Rank(sizes, a)
  {
    assert a.block < |sizes|;
    hide Linked, ReadList, InUse, Rank, Successor;
    ReadFirst(cells, sizes, used, contents, a, steps);
    TailAt(contents, Rank(sizes, a));
    match Successor(sizes, used, a)
    case None => NothingToRead(cells, steps - 1);
    case Some(b) => ListRest(cells, sizes, used, contents, b, steps - 1);
  }

  lemma TailAt(s: seq<Entry>, r: nat)
    requires r < |s|
    ensures s[r..] == [s[r]] + s[r + 1..] && (r + 1 == |s| ==> s[r..] == [s[r]] + [])
  {
  }

  lemma NothingToRead(cells: Cells, steps: nat)
    ensures ReadList(cells, None, steps) == []
  {
  }

  lemma ReadFirst(cells: Cells, sizes: seq<nat>, used: nat, contents: seq<Entry>, a: Address, steps: nat)
    requires Linked(cells, sizes, used, contents) && InUse(sizes, used, a) && Rank(sizes, a) < |contents| && steps > 0
    ensures ReadList(cells, Some(a), steps) == [contents[Rank(sizes, a)]] + ReadList(cells, Successor(sizes, used, a), steps - 1)
    ensures match Successor(sizes, used, a)
      case Some(b) => InUse(sizes, used, b) && Rank(sizes, b) == Rank(sizes, a) + 1 < |contents|
      case None => Rank(sizes, a) + 1 == |contents|
  {
    SuccessorRank(sizes, used, a);
    if Successor(sizes, used, a).Some? { RankInUse(sizes, used, Successor(sizes, used, a).value); }
    assert CellLinked(cells[a.block][a.position], sizes, used, contents, a);
  }

  /** The list order is the order of allocation, across all blocks. */
  lemma ListIsContents(cells: Cells, sizes: seq<nat>, used: nat, contents: seq<Entry>)
    requires Linked(cells, sizes, used, contents) && contents != []
    ensures ReadList(cells, Some(Address(0, 0)), |contents|) == contents
  {
    FirstInUse(sizes, used);
    ListRest(cells, sizes, used, contents, Address(0, 0), |contents|);
  }
}
