/**
  The complete entry list of a value (get_entry_data_list in Library/MaxMindDB/Source/maxminddb.c): on a
  written tree it is the pre-order flattening of the tree, as long as the tree is not nested too deeply.
*/
module MaxMindEntryList {
  import opened Options
  import opened MaxMindFormat
  import opened MaxMindDecoder
  import opened MaxMindLookup
  import opened MaxMindPool

  const MAXIMUM_DEPTH := 512

  /** MMDB_POOL_INIT_SIZE */
  const INITIAL_SIZE := 64

  /** The entries describe the values one by one. */
  predicate Lists(entries: seq<Entry>, bodies: seq<Body>) {
    |entries| == |bodies| && forall i :: 0 <= i < |entries| ==> Describes(entries[i], bodies[i])
  }

  lemma ListsMore(a: seq<Entry>, b: seq<Entry>, x: seq<Body>, y: seq<Body>)
    requires Lists(a, x) && Lists(b, y)
    ensures Lists(a + b, x + y)
  {
  }

  /** Only entry k of the earlier ones may differ, and entries were added. */
  predicate Grew(old_: seq<Entry>, now: seq<Entry>, k: nat) {
    |old_| <= |now| && forall i :: 0 <= i < |old_| && i != k ==> now[i] == old_[i]
  }

  /** What was collected into entry k and the entries added describes the values, and ends at `next`. */
  predicate Collected(old_: seq<Entry>, now: seq<Entry>, k: nat, bodies: seq<Body>, next: nat) {
    k < |old_| <= |now| && Lists([now[k]] + now[|old_|..], bodies) && now[k].next == next
  }

  /** What collecting into entry k promises about a node that stands at an offset. */
  predicate NodeCollected(
    mem: Section, offset: nat, n: Option<Node>, depth: nat, status: Status, old_: seq<Entry>, now: seq<Entry>, k: nat) {
    n.Some? && Written(mem, offset, n.value) && status != OutOfMemory ==>
      && (status == Success <==> depth + Levels(n.value) <= MAXIMUM_DEPTH)
      && (status == Success ==> Collected(old_, now, k, FlattenNode(n.value), offset + |Encode(n.value)|))
  }

  predicate BodyCollected(
    mem: Section, e: Entry, b: Option<Body>, depth: nat, status: Status, old_: seq<Entry>, now: seq<Entry>, k: nat) {
    b.Some? && Holds(mem, e, b.value) && status != OutOfMemory ==>
      && (status == Success <==> depth + LevelsOf(b.value) <= MAXIMUM_DEPTH)
      && (status == Success ==>
          Collected(old_, now, k, Flatten(b.value), if IsContainer(b.value) then e.offset + |EncodeBody(b.value)| else e.next))
  }

  predicate PartsCollected(
    levels: nat, depth: nat, status: Status, old_: seq<Entry>, now: seq<Entry>, bodies: seq<Body>) {
    status != OutOfMemory ==>
      && (status == Success <==> depth + levels <= MAXIMUM_DEPTH)
      && (status == Success ==> |old_| <= |now| && Lists(now[|old_|..], bodies))
  }

  // ---------------------------------------------------------------- trees

  /** What stands at an offset where a node is written. */
  lemma NodeRead(mem: Section, offset: nat, n: Node)
    requires Written(mem, offset, n)
    ensures DecodeOne(mem, offset).Ok?
    ensures var e := DecodeOne(mem, offset).entry;
      if n.via.Some?
      then && e.kind == POINTER_KIND && e.next == offset + |Encode(n)|
           && Written(mem, e.content.offset, Node(None, n.body))
           && Levels(n) == LevelsOf(n.body) + if IsContainer(n.body) then 1 else 0
      else && e.kind != POINTER_KIND && Holds(mem, e, n.body) && Levels(n) == LevelsOf(n.body)
           && offset + |Encode(n)| == if IsContainer(n.body) then e.offset + |EncodeBody(n.body)| else e.next
  {
    if n.via.Some? {
      DecodedPointer(mem, offset, n.via.value);
    } else {
      DecodedHead(mem, offset, n);
      NotAPointer(n.body);
    }
  }

  lemma NotAPointer(b: Body)
    requires WellFormedBody(b)
    ensures KindOf(b) != POINTER_KIND && (KindOf(b) == ARRAY <==> b.Array?) && (KindOf(b) == MAP <==> b.Map?)
    ensures !IsContainer(b) ==> Flatten(b) == [b] && LevelsOf(b) == 1
  {
  }

  // ---------------------------------------------------------------- collecting

  /** get_entry_data_list: decodes the value at an offset into an element, and its parts into new ones. */
  method Collect(mem: Section, offset: nat, at: Address, pool: DataPool, depth: nat, ghost n: Option<Node>)
    returns (status: Status)
    requires pool.Valid() && InUse(pool.sizes, pool.used, at)
    modifies pool, pool.Repr()
    ensures pool.Valid() && fresh(pool.Repr() - old(pool.Repr())) && Keeps(old(pool.sizes), old(pool.used), pool.sizes, pool.used)
    ensures Grew(old(pool.contents), pool.contents, Rank(old(pool.sizes), at))
    ensures NodeCollected(mem, offset, n, depth, status, old(pool.contents), pool.contents, Rank(old(pool.sizes), at))
    decreases MAXIMUM_DEPTH - depth, 3
  {
    hide Written, Encode, Levels, EncodeBody, CellsOk, Rank, InUse, Collected, LevelsOf, Flatten, Holds;
    ghost var isTree := n.Some? && Written(mem, offset, n.value);
    if depth >= MAXIMUM_DEPTH {
      if isTree { OneLevel(n.value); }
      return CorruptData;
    }
    if isTree { NodeRead(mem, offset, n.value); }
    match DecodeOne(mem, offset)
    case InvalidData => return CorruptData;
    case Ok(e) =>
      if e.kind == POINTER_KIND {
        status := CollectTarget(mem, e, at, pool, depth, if isTree then Some(n.value.body) else None);
      } else {
        status := CollectInline(mem, e, at, pool, depth, if isTree then Some(n.value.body) else None);
      }
  }

  lemma OneLevel(n: Node)
    ensures Levels(n) >= 1
  {
  }

  /** The value behind a pointer; what follows the pointer follows the value. */
  method CollectTarget(mem: Section, e: Entry, at: Address, pool: DataPool, depth: nat, ghost b: Option<Body>)
    returns (status: Status)
    requires pool.Valid() && InUse(pool.sizes, pool.used, at) && depth < MAXIMUM_DEPTH && e.content.Target?
    requires b.Some? ==> Written(mem, e.content.offset, Node(None, b.value))
    modifies pool, pool.Repr()
    ensures pool.Valid() && fresh(pool.Repr() - old(pool.Repr())) && Keeps(old(pool.sizes), old(pool.used), pool.sizes, pool.used)
    ensures Grew(old(pool.contents), pool.contents, Rank(old(pool.sizes), at))
    ensures b.Some? && status != OutOfMemory ==>
      && (status == Success <==> depth + (if IsContainer(b.value) then 1 else 0) + LevelsOf(b.value) <= MAXIMUM_DEPTH)
      && (status == Success ==>
          Collected(old(pool.contents), pool.contents, Rank(old(pool.sizes), at), Flatten(b.value), e.next))
    decreases MAXIMUM_DEPTH - depth, 2
  {
    hide Written, Encode, EncodeBody, CellsOk, Rank, InUse, LevelsOf, Flatten, Holds;
    pool.SetEntry(at, e);
    if b.Some? { TargetRead(mem, e.content.offset, b.value); }
    match DecodeOne(mem, e.content.offset)
    case InvalidData => return CorruptData;
    case Ok(t) =>
      pool.SetEntry(at, t);
      // a pointer may not lead to another one
      if t.kind == POINTER_KIND { return CorruptData; }
      status := Success;
      if t.kind == ARRAY || t.kind == MAP {
        status := Collect(mem, e.content.offset, at, pool, depth + 1, if b.Some? then Some(Node(None, b.value)) else None);
        if status != Success { return; }
      }
      pool.SetEntry(at, pool.EntryAt(at).(next := e.next));
  }

  lemma TargetRead(mem: Section, offset: nat, b: Body)
    requires Written(mem, offset, Node(None, b))
    ensures DecodeOne(mem, offset).Ok?
    ensures var t := DecodeOne(mem, offset).entry;
      && t.kind != POINTER_KIND && Describes(t, b) && (t.kind == ARRAY || t.kind == MAP <==> IsContainer(b))
      && (!IsContainer(b) ==> Flatten(b) == [b] && LevelsOf(b) == 1)
      && Levels(Node(None, b)) == LevelsOf(b) && FlattenNode(Node(None, b)) == Flatten(b)
  {
    NodeRead(mem, offset, Node(None, b));
    NotAPointer(b);
  }

  /** A value decoded in place, with its parts. */
  method CollectInline(mem: Section, e: Entry, at: Address, pool: DataPool, depth: nat, ghost b: Option<Body>)
    returns (status: Status)
    requires pool.Valid() && InUse(pool.sizes, pool.used, at) && depth < MAXIMUM_DEPTH
    requires b.Some? ==> Holds(mem, e, b.value)
    modifies pool, pool.Repr()
    ensures pool.Valid() && fresh(pool.Repr() - old(pool.Repr())) && Keeps(old(pool.sizes), old(pool.used), pool.sizes, pool.used)
    ensures Grew(old(pool.contents), pool.contents, Rank(old(pool.sizes), at))
    ensures BodyCollected(mem, e, b, depth, status, old(pool.contents), pool.contents, Rank(old(pool.sizes), at))
    decreases MAXIMUM_DEPTH - depth, 2
  {
    hide EncodeBody, CellsOk, Rank, InUse, ElementsAt, PairsAt, ElementsSize, PairsSize, WellFormedBody, WrittenBody;
    hide LevelsOfAll, LevelsOfPairs, FlattenAll, FlattenPairs;
    pool.SetEntry(at, e);
    ghost var isContainer := b.Some? && IsContainer(b.value);
    if b.Some? { NotAPointer(b.value); }
    if isContainer { ContainerParts(mem, e, b.value); }
    var end := e.next;
    status := Success;
    if e.kind == ARRAY {
      status, end := CollectElements(mem, e, pool, depth + 1, if isContainer then Some(b.value.elements) else None);
    } else if e.kind == MAP {
      status, end := CollectPairs(mem, e, pool, depth + 1, if isContainer then Some(b.value.pairs) else None);
    }
    if status != Success { return; }
    pool.SetEntry(at, e.(next := end));
  }

  method CollectElements(mem: Section, e: Entry, pool: DataPool, depth: nat, ghost elements: Option<seq<Node>>)
    returns (status: Status, end: nat)
    requires pool.Valid() && depth <= MAXIMUM_DEPTH
    requires elements.Some? ==> ElementsAt(mem, e.next, elements.value) && e.size == |elements.value|
    modifies pool, pool.Repr()
    ensures pool.Valid() && fresh(pool.Repr() - old(pool.Repr())) && Keeps(old(pool.sizes), old(pool.used), pool.sizes, pool.used)
    ensures old(pool.contents) <= pool.contents
    ensures elements.Some? ==>
      PartsCollected(LevelsOfAll(elements.value), depth, status, old(pool.contents), pool.contents, FlattenAll(elements.value))
    ensures elements.Some? && status == Success ==> end == e.next + ElementsSize(elements.value)
    decreases MAXIMUM_DEPTH - depth, 5
  {
    hide ElementsAt, Written, Encode, ElementsSize, CellsOk, Rank, InUse, Levels, FlattenNode;
    status, end := Success, e.next;
    ghost var rest, done: seq<Body> := elements, [];
    var size := e.size;
    NothingLeft();
    while size > 0
      invariant pool.Valid() && fresh(pool.Repr() - old(pool.Repr()))
      invariant Keeps(old(pool.sizes), old(pool.used), pool.sizes, pool.used)
      invariant old(pool.contents) <= pool.contents && status == Success && rest.Some? == elements.Some?
      invariant rest.Some? ==> ElementsAt(mem, end, rest.value) && size == |rest.value|
      invariant rest.Some? ==> end + ElementsSize(rest.value) == e.next + ElementsSize(elements.value)
      invariant rest.Some? ==> done + FlattenAll(rest.value) == FlattenAll(elements.value)
      invariant rest.Some? ==> Lists(pool.contents[|old(pool.contents)|..], done)
      invariant rest.Some? ==>
        (depth + LevelsOfAll(rest.value) <= MAXIMUM_DEPTH <==> depth + LevelsOfAll(elements.value) <= MAXIMUM_DEPTH)
    {
      ghost var before := pool.contents;
      ghost var node := None;
      if rest.Some? {
        FirstElement(mem, end, rest.value);
        node, rest := Some(rest.value[0]), Some(rest.value[1..]);
      }
      size := size - 1;
      status, end := CollectNext(mem, end, pool, depth, node);
      if status != Success { return; }
      if rest.Some? {
        AddedLists(old(pool.contents), before, pool.contents, done, FlattenNode(node.value));
        done := done + FlattenNode(node.value);
      }
    }
  }

  /** Entries added after others. */
  lemma AddedLists(old_: seq<Entry>, before: seq<Entry>, now: seq<Entry>, done: seq<Body>, more: seq<Body>)
    requires old_ <= before <= now && Lists(before[|old_|..], done) && Lists(now[|before|..], more)
    ensures Lists(now[|old_|..], done + more)
  {
    assert now[|old_|..] == before[|old_|..] + now[|before|..];
    ListsMore(before[|old_|..], now[|before|..], done, more);
  }

  method CollectPairs(mem: Section, e: Entry, pool: DataPool, depth: nat, ghost pairs: Option<seq<Pair>>)
    returns (status: Status, end: nat)
    requires pool.Valid() && depth <= MAXIMUM_DEPTH
    requires pairs.Some? ==> PairsAt(mem, e.next, pairs.value) && e.size == |pairs.value|
    modifies pool, pool.Repr()
    ensures pool.Valid() && fresh(pool.Repr() - old(pool.Repr())) && Keeps(old(pool.sizes), old(pool.used), pool.sizes, pool.used)
    ensures old(pool.contents) <= pool.contents
    ensures pairs.Some? ==>
      PartsCollected(LevelsOfPairs(pairs.value), depth, status, old(pool.contents), pool.contents, FlattenPairs(pairs.value))
    ensures pairs.Some? && status == Success ==> end == e.next + PairsSize(pairs.value)
    decreases MAXIMUM_DEPTH - depth, 6
  {
    hide PairsAt, Written, Encode, PairsSize, CellsOk, Rank, InUse, Levels, FlattenNode;
    status, end := Success, e.next;
    ghost var rest, done: seq<Body> := pairs, [];
    var size := e.size;
    NothingLeft();
    while size > 0
      invariant pool.Valid() && fresh(pool.Repr() - old(pool.Repr()))
      invariant Keeps(old(pool.sizes), old(pool.used), pool.sizes, pool.used)
      invariant old(pool.contents) <= pool.contents && status == Success && rest.Some? == pairs.Some?
      invariant rest.Some? ==> PairsAt(mem, end, rest.value) && size == |rest.value|
      invariant rest.Some? ==> end + PairsSize(rest.value) == e.next + PairsSize(pairs.value)
      invariant rest.Some? ==> done + FlattenPairs(rest.value) == FlattenPairs(pairs.value)
      invariant rest.Some? ==> Lists(pool.contents[|old(pool.contents)|..], done)
      invariant rest.Some? ==>
        (depth + LevelsOfPairs(rest.value) <= MAXIMUM_DEPTH <==> depth + LevelsOfPairs(pairs.value) <= MAXIMUM_DEPTH)
    {
      ghost var before := pool.contents;
      ghost var pair := None;
      if rest.Some? {
        FirstPair(mem, end, rest.value);
        pair, rest := Some(rest.value[0]), Some(rest.value[1..]);
      }
      size := size - 1;
      status, end := CollectPair(mem, end, pool, depth, pair);
      if status != Success { return; }
      if rest.Some? {
        AddedLists(old(pool.contents), before, pool.contents, done, FlattenPair(pair.value));
        done := done + FlattenPair(pair.value);
      }
    }
  }

  /** A key and its value. */
  method CollectPair(mem: Section, offset: nat, pool: DataPool, depth: nat, ghost pair: Option<Pair>)
    returns (status: Status, end: nat)
    requires pool.Valid() && depth <= MAXIMUM_DEPTH
    requires pair.Some? ==>
      Written(mem, offset, pair.value.key) && Written(mem, offset + |Encode(pair.value.key)|, pair.value.value)
    modifies pool, pool.Repr()
    ensures pool.Valid() && fresh(pool.Repr() - old(pool.Repr())) && Keeps(old(pool.sizes), old(pool.used), pool.sizes, pool.used)
    ensures old(pool.contents) <= pool.contents
    ensures pair.Some? ==>
      PartsCollected(LevelsOfPair(pair.value), depth, status, old(pool.contents), pool.contents, FlattenPair(pair.value))
    ensures pair.Some? && status == Success ==> end == offset + |Encode(pair.value.key)| + |Encode(pair.value.value)|
    decreases MAXIMUM_DEPTH - depth, 5
  {
    hide Written, Encode, CellsOk, Rank, InUse, Levels, FlattenNode;
    status, end := CollectNext(mem, offset, pool, depth, if pair.Some? then Some(pair.value.key) else None);
    if status != Success { return; }
    ghost var before := pool.contents;
    status, end := CollectNext(mem, end, pool, depth, if pair.Some? then Some(pair.value.value) else None);
    if status == Success && pair.Some? {
      AddedLists(old(pool.contents), before, pool.contents, FlattenNode(pair.value.key), FlattenNode(pair.value.value));
    }
  }

  /** Takes an element from the pool and collects the value at an offset into it. */
  method CollectNext(mem: Section, offset: nat, pool: DataPool, depth: nat, ghost n: Option<Node>)
    returns (status: Status, end: nat)
    requires pool.Valid() && depth <= MAXIMUM_DEPTH
    modifies pool, pool.Repr()
    ensures pool.Valid() && fresh(pool.Repr() - old(pool.Repr())) && Keeps(old(pool.sizes), old(pool.used), pool.sizes, pool.used)
    ensures old(pool.contents) <= pool.contents
    ensures n.Some? && Written(mem, offset, n.value) ==>
      && PartsCollected(Levels(n.value), depth, status, old(pool.contents), pool.contents, FlattenNode(n.value))
      && (status == Success ==> end == offset + |Encode(n.value)|)
    decreases MAXIMUM_DEPTH - depth, 4
  {
    hide Written, Encode, CellsOk, InUse, Levels, FlattenNode, Rank;
    end := offset;
    ghost var before := pool.contents;
    var granted: bool := *;   // whether calloc finds memory, if a new block is needed
    var a := pool.Alloc(granted);
    if a.None? { return OutOfMemory, end; }
    ghost var k := |before|;
    status := Collect(mem, offset, a.value, pool, depth, n);
    if status != Success { return; }
    end := pool.EntryAt(a.value).next;
    assert pool.contents[k..] == [pool.contents[k]] + pool.contents[k + 1..];
  }

  /**
    MMDB_get_entry_data_list: when memory does not run out, it succeeds on a written tree exactly if the tree
    needs at most 512 levels, and the list that starts at `head` is then its pre-order flattening.
  */
  method GetEntryDataList(mem: Section, offset: nat, ghost n: Option<Node>)
    returns (status: Status, head: Option<Address>, pool: DataPool)
    ensures n.Some? && Written(mem, offset, n.value) && status != OutOfMemory ==>
      && (status == Success <==> Levels(n.value) <= MAXIMUM_DEPTH)
      && (status == Success ==>
          Lists(ReadList(pool.Snapshot(), head, |pool.contents|), FlattenNode(n.value)))
  {
    hide Written, Encode, CellsOk, InUse, Levels, FlattenNode, Linked, Rank, Count;
    pool := new DataPool(INITIAL_SIZE);
    var granted: bool := *;
    var first := pool.Alloc(granted);
    if first.None? { return OutOfMemory, None, pool; }
    status := Collect(mem, offset, first.value, pool, 0, n);
    assert pool.contents == [pool.contents[0]] + pool.contents[1..];
    head := pool.ToList();
    ListIsContents(pool.Snapshot(), pool.sizes, pool.used, pool.contents);
  }
}
