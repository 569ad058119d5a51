/**
  The memory pool of the JSON library (Library/RapidJSON/Include/rapidjson/allocators.h): blocks are cut from the
  head of a list of chunks and never freed one by one. `blocks` is a ghost: every block handed out since the last
  Clear, with its size as rounded up.
*/
module PoolAllocator {
  import opened Numbers

  const SIZE_T := 0x1_0000_0000_0000_0000
  const HEADER := 24

  /** RAPIDJSON_ALIGN on a machine with 64-bit size_t. */
  function Align(size: nat): (r: nat)
    requires size < SIZE_T
    ensures r % 8 == 0
  {
    (size + 7) % SIZE_T / 8 * 8
  }

  /** The smallest multiple of 8 that is large enough. */
  function RoundUp(size: nat): (r: nat)
    ensures r % 8 == 0 && size <= r < size + 8
  {
    (size + 7) / 8 * 8
  }

  lemma AlignRounds(size: nat)
    requires size + 7 < SIZE_T
    ensures Align(size) == RoundUp(size) && RoundUp(RoundUp(size)) == RoundUp(size)
  {
  }

  /** The test that Malloc makes on the head chunk, in size_t arithmetic. */
  predicate HasRoom(used: nat, capacity: nat, size: nat)
    requires size < SIZE_T
  {
    (used + Align(size)) % SIZE_T <= capacity
  }

  predicate Wraps(used: nat, size: nat)
    requires size < SIZE_T
  {
    size + 7 >= SIZE_T || used + Align(size) >= SIZE_T
  }

  /** The test is right exactly as long as neither the rounding nor the sum wraps around. */
  lemma RoomIsReal(used: nat, capacity: nat, size: nat)
    requires used <= capacity < SIZE_T && 0 < size < SIZE_T
    ensures (HasRoom(used, capacity, size) <==> used + RoundUp(size) <= capacity) <==> !Wraps(used, size)
    ensures !Wraps(used, size) ==> Align(size) == RoundUp(size)
  {
  }

  class ChunkHeader {
    const capacity: nat
    var size: nat
    const next: ChunkHeader?
    const payload: array<int>

    constructor (capacity: nat, next: ChunkHeader?)
      ensures this.capacity == capacity && size == 0 && this.next == next
      ensures fresh(payload) && payload.Length == capacity
    {
      this.capacity, this.next, size := capacity, next, 0;
      payload := new int[capacity];
    }
  }

  datatype Pointer = Null | At(chunk: ChunkHeader, offset: nat)

  /** A block of the i-th chunk, counting from the oldest. */
  datatype Block = Block(index: nat, offset: nat, size: nat)

  predicate Apart(a: Block, b: Block) {
    a.index != b.index || a.offset + a.size <= b.offset || b.offset + b.size <= a.offset
  }

  /** Aligned, and within the used part of its chunk. */
  predicate Inside(b: Block, used: seq<nat>) {
    b.index < |used| && b.size > 0 && b.offset % 8 == 0 && b.size % 8 == 0 && b.offset + b.size <= used[b.index]
  }

  predicate BlocksOk(blocks: seq<Block>, used: seq<nat>) {
    && (forall i :: 0 <= i < |blocks| ==> Inside(blocks[i], used))
    && (forall i, j :: 0 <= i < j < |blocks| ==> Apart(blocks[i], blocks[j]))
  }

  lemma ChunkAdded(blocks: seq<Block>, used: seq<nat>)
    requires BlocksOk(blocks, used)
    ensures BlocksOk(blocks, used + [0])
  {
  }

  /** A block cut from the free end of the newest chunk. */
  lemma BlockCut(blocks: seq<Block>, used: seq<nat>, size: nat)
    requires BlocksOk(blocks, used) && used != [] && size > 0 && size % 8 == 0 && used[|used| - 1] % 8 == 0
    ensures var n := |used| - 1;
      BlocksOk(blocks + [Block(n, used[n], size)], used[n := used[n] + size])
  {
  }

  /** The last block of the newest chunk, grown in place. */
  lemma BlockGrown(blocks: seq<Block>, used: seq<nat>, k: nat, increment: nat)
    requires BlocksOk(blocks, used) && used != [] && k < |blocks| && increment % 8 == 0
    requires blocks[k].index == |used| - 1 && blocks[k].offset + blocks[k].size == used[|used| - 1]
    ensures var n := |used| - 1;
      BlocksOk(blocks[k := blocks[k].(size := blocks[k].size + increment)], used[n := used[n] + increment])
  {
  }

  lemma {:induction false} SumWithin(xs: seq<nat>, ys: seq<nat>)
    requires |xs| == |ys| && forall i :: 0 <= i < |xs| ==> xs[i] <= ys[i]
    ensures Sum(xs) <= Sum(ys)
    decreases |xs|
  {
    if xs == [] {
    } else {
      SumWithin(xs[..|xs| - 1], ys[..|ys| - 1]);
    }
  }

  function Top(chain: seq<ChunkHeader>): ChunkHeader? {
    if chain == [] then null else chain[|chain| - 1]
  }

  /** Each chunk points to the one before it. */
  predicate Linked(chain: seq<ChunkHeader>) {
    chain == [] || (Top(chain).next == Top(chain[..|chain| - 1]) && Linked(chain[..|chain| - 1]))
  }

  predicate Separate(chain: seq<ChunkHeader>) {
    forall i, j :: 0 <= i < j < |chain| ==> chain[i] != chain[j] && chain[i].payload != chain[j].payload
  }

  lemma LinkedMore(chain: seq<ChunkHeader>, c: ChunkHeader)
    requires Linked(chain) && c.next == Top(chain)
    ensures Linked(chain + [c])
  {
    assert (chain + [c])[..|chain|] == chain;
  }

  lemma SeparateMore(chain: seq<ChunkHeader>, c: ChunkHeader)
    requires Separate(chain) && forall i :: 0 <= i < |chain| ==> chain[i] != c && chain[i].payload != c.payload
    ensures Separate(chain + [c])
  {
  }

  predicate ChunkOk(c: ChunkHeader, n: nat) {
    n <= c.capacity < SIZE_T && c.capacity == c.payload.Length && n % 8 == 0
  }

  /** `b` is `a` with `src` written at `start`. */
  predicate Spliced(a: seq<int>, b: seq<int>, start: nat, src: seq<int>) {
    && |a| == |b| && start + |src| <= |a| && b[start..start + |src|] == src
    && forall i :: 0 <= i < |a| && !(start <= i < start + |src|) ==> b[i] == a[i]
  }

  lemma SliceKept(a: seq<int>, b: seq<int>, start: nat, src: seq<int>, at: nat, size: nat)
    requires Spliced(a, b, start, src) && at + size <= |a| && (at + size <= start || start + |src| <= at)
    ensures b[at..at + size] == a[at..at + size]
  {
  }

  class MemoryPoolAllocator {
    var chunkHead: ChunkHeader?
    const chunkCapacity: nat
    const userBuffer: ChunkHeader?
    /** The chunks, oldest first, and how much of each is used. */
    ghost var chain: seq<ChunkHeader>
    ghost var used: seq<nat>
    ghost var blocks: seq<Block>

    ghost predicate ChainOk()
      reads this`chunkHead, this`chain, this`used, chain
    {
      && |used| == |chain|
      && Linked(chain) && Separate(chain) && chunkHead == Top(chain)
      && (userBuffer != null ==> chain != [] && chain[0] == userBuffer)
      && (forall i :: 0 <= i < |chain| ==> chain[i].size == used[i] && ChunkOk(chain[i], used[i]))
      && chunkCapacity < SIZE_T
    }

    ghost predicate Valid()
      reads this`chunkHead, this`chain, this`used, this`blocks, chain
    {
      ChainOk() && BlocksOk(blocks, used)
    }

    constructor (chunkCapacity: nat)
      requires chunkCapacity < SIZE_T
      ensures Valid() && chain == [] && blocks == [] && this.chunkCapacity == chunkCapacity && userBuffer == null
    {
      this.chunkCapacity, chunkHead, userBuffer := chunkCapacity, null, null;
      chain, used, blocks := [], [], [];
    }

    /** Over a buffer of the user's, which becomes the first chunk. */
    constructor WithBuffer(size: nat, chunkCapacity: nat)
      requires chunkCapacity < SIZE_T && HEADER < size < SIZE_T
      ensures Valid() && fresh(chain) && |chain| == 1 && chain[0].capacity == size - HEADER && blocks == []
      ensures this.chunkCapacity == chunkCapacity && userBuffer == chain[0]
    {
      this.chunkCapacity := chunkCapacity;
      var c := new ChunkHeader(size - HEADER, null);
      chunkHead, userBuffer := c, c;
      chain, used, blocks := [c], [0], [];
    }

    /** What a call that may add a chunk must not wrap around on. */
    predicate Sane(size: nat)
      reads this`chunkHead, chunkHead
    {
      && size < SIZE_T && (chunkHead != null ==> !Wraps(chunkHead.size, size))
      && !Wraps(0, size) && HEADER + Align(size) < SIZE_T && HEADER + chunkCapacity < SIZE_T
    }

    /** The chunks so far are still there, in front of any new ones. */
    twostate predicate Extends()
      reads this
    {
      && |old(chain)| <= |chain| && chain[..|old(chain)|] == old(chain)
      && forall i :: |old(chain)| <= i < |chain| ==> fresh(chain[i]) && fresh(chain[i].payload)
    }

    /** What a block holds. */
    ghost function Contents(b: Block): seq<int>
      reads this`chain, set c | c in chain :: c.payload
    {
      if b.index < |chain| && b.offset + b.size <= chain[b.index].payload.Length
      then chain[b.index].payload[b.offset..b.offset + b.size]
      else []
    }

    lemma Prefix(a: seq<int>, at: nat, size: nat, o: nat)
      requires o <= size && at + size <= |a|
      ensures a[at..at + size][..o] == a[at..at + o]
    {
    }

    /** The block begins with the first `o` bytes of `contents`. */
    ghost predicate Starts(b: Block, contents: seq<int>, o: nat)
      reads this`chain, set c | c in chain :: c.payload
    {
      o <= |contents| && o <= |Contents(b)| && Contents(b)[..o] == contents[..o]
    }

    /** Every block handed out before still holds what it held. */
    twostate predicate Kept()
      reads this, set c | c in chain :: c.payload
    {
      forall j :: 0 <= j < |old(blocks)| ==> Contents(old(blocks)[j]) == old(Contents(blocks[j]))
    }

    /** The head chunk has this many bytes left. */
    predicate HasLeft(n: nat)
      reads this`chunkHead, chunkHead
    {
      chunkHead != null && chunkHead.size + n <= chunkHead.capacity
    }

    /** `grants` is what the base allocator says. */
    method AddChunk(capacity: nat, grants: bool) returns (added: bool)
      requires Valid() && HEADER + capacity < SIZE_T
      modifies this`chunkHead, this`chain, this`used
      ensures Valid() && Extends() && chain[..|old(chain)|] == old(chain)
      ensures used == if added then old(used) + [0] else old(used)
      ensures chunkHead == old(chunkHead) || fresh(chunkHead)
      ensures added == grants
      ensures added ==> chunkHead != null && chunkHead.capacity == capacity && chunkHead.size == 0
    {
      hide BlocksOk, Linked, Separate;
      if !grants { return false; }
      var chunk := new ChunkHeader(capacity, chunkHead);
      ChunkAdded(blocks, used);
      LinkedMore(chain, chunk);
      SeparateMore(chain, chunk);
      chunkHead := chunk;
      chain, used := chain + [chunk], used + [0];
      return true;
    }

    lemma Bounds(k: nat)
      requires Valid() && k < |blocks|
      ensures blocks[k].index < |chain| && blocks[k].offset + blocks[k].size <= chain[blocks[k].index].payload.Length
    {
      assert Inside(blocks[k], used);
    }

    lemma AllDistant(l: nat)
      requires Valid() && l < |blocks|
      ensures forall j :: 0 <= j < l ==> ApartInMemory(blocks[j], blocks[l])
    {
      forall j | 0 <= j < l ensures ApartInMemory(blocks[j], blocks[l]) { Distant(j, l); }
    }

    method Malloc(size: nat, grants: bool) returns (p: Pointer)
      requires Valid() && Sane(size)
      modifies this`chunkHead, this`chain, this`used, this`blocks, chunkHead
      ensures Valid() && Extends() && Kept()
      ensures p.Null? <==> size == 0 || (!old(HasLeft(RoundUp(size))) && !grants)
      ensures p.Null? ==> blocks == old(blocks) && chain == old(chain)
      ensures p.At? && old(HasLeft(RoundUp(size))) ==> chain == old(chain) && p.offset == old(chunkHead.size)
      ensures p.At? && !old(HasLeft(RoundUp(size))) ==> |chain| == |old(chain)| + 1 && p.offset == 0
      ensures p.At? && !old(HasLeft(RoundUp(size))) ==> p.chunk.capacity == Max(chunkCapacity, RoundUp(size))
      ensures p.At? ==> chain != [] && p.chunk == chain[|chain| - 1]
      ensures p.At? ==> blocks == old(blocks) + [Block(|chain| - 1, p.offset, RoundUp(size))]
    {
      hide BlocksOk, Linked, Separate;
      if size == 0 { return Null; }
      forall j | 0 <= j < |blocks| ensures blocks[j].index < |chain| { Bounds(j); }
      var rounded := Align(size);
      RoomIsReal(0, SIZE_T - 1, size);
      if chunkHead == null || (chunkHead.size + rounded) % SIZE_T > chunkHead.capacity {
        var added := AddChunk(if chunkCapacity > rounded then chunkCapacity else rounded, grants);
        if !added { return Null; }
      }
      p := At(chunkHead, chunkHead.size);
      Cut(rounded);
    }

    /** The head chunk gives away its next bytes. */
    method Cut(rounded: nat)
      requires Valid() && chunkHead != null && rounded > 0 && rounded % 8 == 0
      requires chunkHead.size + rounded <= chunkHead.capacity
      modifies this`used, this`blocks, chunkHead
      ensures Valid() && |used| == |old(used)| && chunkHead.size == old(chunkHead.size) + rounded
      ensures blocks == old(blocks) + [Block(|chain| - 1, old(chunkHead.size), rounded)]
    {
      hide BlocksOk, Linked;
      ghost var n := |used| - 1;
      BlockCut(blocks, used, rounded);
      blocks := blocks + [Block(n, used[n], rounded)];
      used := used[n := used[n] + rounded];
      chunkHead.size := chunkHead.size + rounded;
    }

    /** The block that `p` was handed out for is the k-th and at least as large as the caller says. */
    ghost predicate Holds(p: Pointer, originalSize: nat, k: nat)
      reads this`chain, this`blocks
    {
      && p.At? && k < |blocks| && blocks[k].index < |chain| && p.chunk == chain[blocks[k].index]
      && p.offset == blocks[k].offset && RoundUp(originalSize) <= blocks[k].size
    }

    /** memcpy between blocks that do not overlap. */
    static method Copy(from: array<int>, at: nat, to: array<int>, start: nat, length: nat)
      requires at + length <= from.Length && start + length <= to.Length
      requires from != to || at + length <= start || start + length <= at
      modifies to
      ensures Spliced(old(to[..]), to[..], start, old(from[at..at + length]))
    {
      ghost var src, dst := from[at..at + length], to[..];
      for i := 0 to length
        invariant to[start..start + i] == src[..i]
        invariant forall j :: 0 <= j < to.Length && !(start <= j < start + i) ==> to[j] == dst[j]
        invariant from != to ==> from[at..at + length] == src
      {
        assert from[at + i] == src[i] by { assert from == to ==> dst[at + i] == src[i]; assert from[at..at + length][i] == from[at + i]; }
        to[start + i] := from[at + i];
        assert to[start..start + i + 1] == to[start..start + i] + [to[start + i]];
      }
    }

    ghost predicate ApartInMemory(a: Block, b: Block)
      reads this`chain
    {
      && a.index < |chain| && b.index < |chain|
      && (chain[a.index].payload != chain[b.index].payload || a.offset + a.size <= b.offset || b.offset + b.size <= a.offset)
    }

    /** No two blocks share a byte. */
    lemma Distant(j: nat, k: nat)
      requires Valid() && j < k < |blocks|
      ensures ApartInMemory(blocks[j], blocks[k])
    {
      assert Apart(blocks[j], blocks[k]) && Inside(blocks[j], used) && Inside(blocks[k], used);
    }

    /** Realloc's way of growing in place: the last block of the head chunk, if the chunk has room. */
    method Grow(ghost k: nat, increment: nat)
      requires Valid() && chunkHead != null && k < |blocks| && increment % 8 == 0
      requires blocks[k].index == |chain| - 1 && blocks[k].offset + blocks[k].size == chunkHead.size
      requires chunkHead.size + increment <= chunkHead.capacity
      modifies this`used, this`blocks, chunkHead
      ensures Valid() && blocks == old(blocks)[k := old(blocks)[k].(size := old(blocks)[k].size + increment)]
    {
      hide BlocksOk, Linked;
      ghost var n := |used| - 1;
      BlockGrown(blocks, used, k, increment);
      blocks := blocks[k := blocks[k].(size := blocks[k].size + increment)];
      used := used[n := used[n] + increment];
      chunkHead.size := chunkHead.size + increment;
    }

    /** The blocks before the newest hold `was`. */
    ghost predicate Hold(was: seq<seq<int>>)
      reads this`chain, this`blocks, set c | c in chain :: c.payload
    {
      |was| <= |blocks| && forall j :: 0 <= j < |was| ==> Contents(blocks[j]) == was[j]
    }

    /** Copies into the newest block; no other block is touched. */
    method Fill(p: Pointer, q: Pointer, o: nat, ghost k: nat, ghost was: seq<seq<int>>)
      requires Valid() && |blocks| == |was| + 1 && k < |was| && Holds(p, o, k) && Holds(q, o, |was|) && Hold(was)
      modifies q.chunk.payload
      ensures Starts(blocks[|was|], was[k], o) && Hold(was)
    {
      hide BlocksOk, ChainOk, Inside, Apart, Spliced, Starts, RoundUp;
      ghost var l := |was|;
      Bounds(k);
      Bounds(l);
      AllDistant(l);
      Enough(o, k);
      Enough(o, l);
      HeldPrefix(was, k, o);
      ghost var before, src := q.chunk.payload[..], was[k][..o];
      Copy(p.chunk.payload, p.offset, q.chunk.payload, q.offset, o);
      ghost var after := q.chunk.payload[..];
      forall j | 0 <= j < l ensures Contents(blocks[j]) == was[j] {
        var b := blocks[j];
        if chain[b.index].payload == q.chunk.payload && b.offset + b.size <= |before| {
          SliceKept(before, after, q.offset, src, b.offset, b.size);
        }
      }
      PastedStart(l, before, was[k], o);
    }

    lemma HeldPrefix(was: seq<seq<int>>, k: nat, o: nat)
      requires Hold(was) && k < |was| && blocks[k].index < |chain| && o <= blocks[k].size
      requires blocks[k].offset + blocks[k].size <= chain[blocks[k].index].payload.Length
      ensures o <= |was[k]| && was[k][..o] == chain[blocks[k].index].payload[blocks[k].offset..blocks[k].offset + o]
    {
      Prefix(chain[blocks[k].index].payload[..], blocks[k].offset, blocks[k].size, o);
    }

    lemma Enough(o: nat, k: nat)
      requires k < |blocks| && RoundUp(o) <= blocks[k].size
      ensures o <= blocks[k].size
    {
    }

    lemma PastedStart(l: nat, before: seq<int>, contents: seq<int>, o: nat)
      requires l < |blocks| && blocks[l].index < |chain| && o <= |contents| && o <= blocks[l].size
      requires blocks[l].offset + blocks[l].size <= chain[blocks[l].index].payload.Length
      requires Spliced(before, chain[blocks[l].index].payload[..], blocks[l].offset, contents[..o])
      ensures Starts(blocks[l], contents, o)
    {
      Prefix(chain[blocks[l].index].payload[..], blocks[l].offset, blocks[l].size, o);
    }

    /** A new block with what the k-th holds. */
    method Move(p: Pointer, o: nat, n: nat, grants: bool, ghost k: nat) returns (q: Pointer)
      requires Valid() && Sane(n) && 0 <= o < n && RoundUp(n) == n && Holds(p, o, k)
      modifies this`chunkHead, this`chain, this`used, this`blocks, chunkHead, set c | c in chain :: c.payload
      ensures Valid() && Extends() && (q.Null? ==> blocks == old(blocks) && chain == old(chain))
      ensures q.Null? <==> !old(HasLeft(n)) && !grants
      ensures q.At? ==> q.chunk == Top(chain) && blocks == old(blocks) + [Block(|chain| - 1, q.offset, n)]
      ensures q.At? ==> Starts(blocks[|blocks| - 1], old(Contents(blocks[k])), o)
      ensures Kept()
    {
      hide BlocksOk, ChainOk, Inside, Apart, Contents, Starts;
      ghost var was := ContentsOf(|blocks|);
      q := Malloc(n, grants);
      if q.At? {
        Bounds(|was|);
        Fill(p, q, o, k, was);
      }
    }

    ghost function ContentsOf(n: nat): (was: seq<seq<int>>)
      requires n <= |blocks|
      reads this`chain, this`blocks, set c | c in chain :: c.payload
      ensures |was| == n && forall j :: 0 <= j < n ==> was[j] == Contents(blocks[j])
    {
      if n == 0 then [] else ContentsOf(n - 1) + [Contents(blocks[n - 1])]
    }

    /** A block that ends where the free part of the head chunk begins is the last one, and as large as claimed. */
    lemma LastBlock(p: Pointer, o: nat, k: nat)
      requires Valid() && Holds(p, o, k) && p.chunk == chunkHead && p.offset + o == chunkHead.size
      ensures blocks[k].index == |chain| - 1 && blocks[k].size == o
    {
      assert Inside(blocks[k], used);
    }

    /** The block at p ends where the free part of the head chunk begins, and that has room for what it lacks. */
    predicate CanGrow(p: Pointer, o: nat, n: nat)
      reads this`chunkHead, chunkHead
    {
      p.At? && p.chunk == chunkHead && p.offset + o == chunkHead.size && o <= n && HasLeft(n - o)
    }

    /** The enlarging half of Realloc, on rounded sizes. */
    method Enlarge(p: Pointer, o: nat, n: nat, grants: bool, ghost k: nat) returns (q: Pointer)
      requires Valid() && Sane(n) && o < n && RoundUp(n) == n && RoundUp(o) == o && Holds(p, o, k)
      modifies this`chunkHead, this`chain, this`used, this`blocks, chunkHead, set c | c in chain :: c.payload
      ensures Valid() && Extends() && Kept() && (q.Null? ==> blocks == old(blocks) && chain == old(chain))
      ensures old(CanGrow(p, o, n)) ==> q == p && blocks == old(blocks)[k := old(blocks)[k].(size := n)]
      ensures !old(CanGrow(p, o, n)) ==> (q.Null? <==> !old(HasLeft(n)) && !grants)
      ensures !old(CanGrow(p, o, n)) && q.At? ==>
        && q.chunk == Top(chain) && blocks == old(blocks) + [Block(|chain| - 1, q.offset, n)]
        && Starts(blocks[|blocks| - 1], old(Contents(blocks[k])), o)
    {
      hide BlocksOk, Inside, Apart, Contents, Starts, Linked, Separate, RoundUp;
      if p.chunk == chunkHead && p.offset == chunkHead.size - o {
        LastBlock(p, o, k);
        var increment := n - o;
        RoomIsReal(chunkHead.size, chunkHead.capacity, n);
        if (chunkHead.size + increment) % SIZE_T <= chunkHead.capacity {
          Grow(k, increment);
          return p;
        }
      }
      q := Move(p, o, n, grants, k);
    }

    lemma SaneRounded(size: nat)
      requires Sane(size)
      ensures size + 7 < SIZE_T && Align(size) < SIZE_T && Sane(Align(size))
    {
    }

    twostate lemma Unchanged()
      requires chain == old(chain) && blocks == old(blocks)
      requires forall c :: c in chain ==> unchanged(c.payload)
      ensures Kept() && Extends()
    {
    }

    /**
      A block never shrinks; it grows in place if it is the last of the head chunk and there is room, and is
      copied to a new block otherwise. `k` is the number of the block that the caller has.
    */
    method Realloc(p: Pointer, originalSize: nat, newSize: nat, grants: bool, ghost k: nat) returns (q: Pointer)
      requires Valid() && Sane(newSize) && originalSize + 7 < SIZE_T && (p.At? ==> Holds(p, originalSize, k))
      modifies this`chunkHead, this`chain, this`used, this`blocks, chunkHead, set c | c in chain :: c.payload
      ensures Valid() && Extends() && Kept()
      ensures var o, n := RoundUp(originalSize), RoundUp(newSize);
        var cuts := p.Null? || (o < n && !old(CanGrow(p, o, n)));
        q.Null? <==> newSize == 0 || (cuts && !old(HasLeft(n)) && !grants)
      ensures q.Null? ==> blocks == old(blocks) && chain == old(chain)
      ensures p.Null? && q.At? ==> q.chunk == Top(chain) && blocks == old(blocks) + [Block(|chain| - 1, q.offset, RoundUp(newSize))]
      ensures p.At? && q.At? && RoundUp(newSize) <= RoundUp(originalSize) ==> q == p && blocks == old(blocks)
      ensures p.At? && q.At? && RoundUp(newSize) > RoundUp(originalSize) ==>
        if old(CanGrow(p, RoundUp(originalSize), RoundUp(newSize))) then
          q == p && blocks == old(blocks)[k := old(blocks)[k].(size := RoundUp(newSize))]
        else
          && q.chunk == Top(chain) && blocks == old(blocks) + [Block(|chain| - 1, q.offset, RoundUp(newSize))]
          && Starts(blocks[|blocks| - 1], old(Contents(blocks[k])), RoundUp(originalSize))
    {
      hide BlocksOk, ChainOk, Inside, Apart, Contents, Starts, Align, RoundUp, Kept, Extends;
      assert newSize + 7 < SIZE_T;
      Unchanged();
      if p.Null? {
        q := Malloc(newSize, grants);
        return q;
      }
      if newSize == 0 { return Null; }
      var o, n := Align(originalSize), Align(newSize);
      AlignRounds(originalSize);
      AlignRounds(newSize);
      if o >= n { return p; }
      SaneRounded(newSize);
      assert Holds(p, o, k);
      q := Enlarge(p, o, n, grants, k);
    }

    /** Gives all chunks back, except the user's buffer, which is emptied. */
    method Clear()
      requires Valid()
      modifies this`chunkHead, this`chain, this`used, this`blocks, chain
      ensures Valid() && blocks == []
      ensures chain == if userBuffer == null then [] else [userBuffer]
      ensures userBuffer != null ==> userBuffer.size == 0
    {
      hide Separate, Linked;
      blocks := [];
      while chunkHead != null && chunkHead != userBuffer
        invariant Valid() && blocks == [] && |chain| <= |old(chain)| && chain == old(chain)[..|chain|]
        decreases |chain|
      {
        var next := chunkHead.next;
        Shorter(chain);
        assert chain == old(chain)[..|chain|];
        chunkHead := next;
        chain, used := chain[..|chain| - 1], used[..|used| - 1];
      }
      if chunkHead != null && chunkHead == userBuffer {
        Lowest(chain, userBuffer);
        chunkHead.size := 0;
        used := [0];
      }
    }

    method Capacity() returns (capacity: nat)
      requires Valid()
      ensures capacity == Sum(Capacities(chain))
    {
      hide Separate;
      capacity := 0;
      var c := chunkHead;
      ghost var rest := chain;
      while c != null
        invariant rest <= chain && c == Top(rest) && Linked(rest)
        invariant capacity + Sum(Capacities(rest)) == Sum(Capacities(chain))
        decreases |rest|
      {
        CapacitiesLast(rest);
        capacity := capacity + c.capacity;
        c := c.next;
        rest := rest[..|rest| - 1];
      }
    }

    method Size() returns (size: nat)
      requires Valid()
      ensures size == Sum(used) && size <= Sum(Capacities(chain))
    {
      hide Separate;
      size := 0;
      var c := chunkHead;
      ghost var rest := chain;
      assert used[..|chain|] == used;
      while c != null
        invariant rest <= chain && c == Top(rest) && Linked(rest)
        invariant size + Sum(used[..|rest|]) == Sum(used)
        decreases |rest|
      {
        assert used[..|rest|][..|rest| - 1] == used[..|rest| - 1];
        size := size + c.size;
        c := c.next;
        rest := rest[..|rest| - 1];
      }
      SumWithin(used, Capacities(chain));
    }
  }

  function Capacities(chain: seq<ChunkHeader>): seq<nat> { seq(|chain|, i requires 0 <= i < |chain| => chain[i].capacity) }

  lemma CapacitiesLast(chain: seq<ChunkHeader>)
    requires chain != []
    ensures Sum(Capacities(chain)) == Sum(Capacities(chain[..|chain| - 1])) + chain[|chain| - 1].capacity
  {
    assert Capacities(chain)[..|chain| - 1] == Capacities(chain[..|chain| - 1]);
  }

  lemma Shorter(chain: seq<ChunkHeader>)
    requires chain != [] && Separate(chain) && Linked(chain)
    ensures Separate(chain[..|chain| - 1]) && Linked(chain[..|chain| - 1]) && Top(chain).next == Top(chain[..|chain| - 1])
  {
  }

  /** The oldest chunk is the head only when it is alone. */
  lemma Lowest(chain: seq<ChunkHeader>, c: ChunkHeader)
    requires chain != [] && Separate(chain) && chain[0] == c && Top(chain) == c
    ensures |chain| == 1
  {
  }
}
