/**
  Finding a value by its path in the data section (Library/MaxMindDB/Source/maxminddb.c): skipping over
  values and looking up array indices and map keys, on any bytes. The ghost parameters name the tree that
  stands at an offset, if one does; the methods themselves never look at it.
*/
module MaxMindLookup {
  import opened Options
  import opened MaxMindFormat
  import opened MaxMindDecoder

  datatype Status = Success | CorruptData | InvalidLookupPath | PathDoesNotMatch | OutOfMemory

  /** The entry stands for the value: it describes it and, for arrays and maps, sits on its header. */
  predicate Holds(mem: Section, e: Entry, b: Body) {
    && WellFormedBody(b) && Describes(e, b)
    && (IsContainer(b) ==> WrittenBody(mem, e.offset, b) && e.next == e.offset + |HeaderOf(b)|)
  }

  // ---------------------------------------------------------------- trees, part by part

  /** The rest of an array's elements from the i-th on. */
  lemma NextElement(mem: Section, offset: nat, e: seq<Node>, i: nat)
    requires i < |e| && (forall k :: 0 <= k < |e| ==> WellFormed(e[k]) && Placed(mem, e[k]))
    requires At(mem, offset, EncodeAll(e[i..]))
    ensures Written(mem, offset, e[i]) && EncodeAll(e[i..]) == Encode(e[i]) + EncodeAll(e[i + 1..])
    ensures At(mem, offset + |Encode(e[i])|, EncodeAll(e[i + 1..]))
  {
    assert e[i..][1..] == e[i + 1..];
    AtParts(mem, offset, Encode(e[i]), EncodeAll(e[i + 1..]));
  }

  predicate PairsPlaced(mem: Section, p: seq<Pair>) {
    WellFormedPairs(p) && forall k :: 0 <= k < |p| ==> Placed(mem, p[k].key) && Placed(mem, p[k].value)
  }

  lemma NextPair(mem: Section, offset: nat, p: seq<Pair>, i: nat)
    requires i < |p| && PairsPlaced(mem, p) && At(mem, offset, EncodePairs(p[i..]))
    ensures Written(mem, offset, p[i].key) && Written(mem, offset + |Encode(p[i].key)|, p[i].value)
    ensures EncodePairs(p[i..]) == Encode(p[i].key) + Encode(p[i].value) + EncodePairs(p[i + 1..])
    ensures At(mem, offset + |Encode(p[i].key)| + |Encode(p[i].value)|, EncodePairs(p[i + 1..]))
  {
    assert p[i..][1..] == p[i + 1..] && p[i..][0] == p[i];
    AtParts(mem, offset, EncodePair(p[i]), EncodePairs(p[i + 1..]));
    AtParts(mem, offset, Encode(p[i].key), Encode(p[i].value));
  }

  /** Decoding one node without following its pointer. */
  lemma DecodedHead(mem: Section, offset: nat, n: Node)
    requires Written(mem, offset, n)
    ensures DecodeOne(mem, offset).Ok?
    ensures var e := DecodeOne(mem, offset).entry;
      if n.via.Some? then e.kind == POINTER_KIND && e.next == offset + |Encode(n)|
      else Holds(mem, e, n.body) && e.offset == offset && (!IsContainer(n.body) ==> e.next == offset + |Encode(n)|)
  {
    if n.via.Some? {
      DecodedPointer(mem, offset, n.via.value);
    } else {
      DecodedBody(mem, offset, n.body);
    }
  }

  lemma ContainerParts(mem: Section, e: Entry, b: Body)
    requires Holds(mem, e, b) && IsContainer(b)
    ensures if b.Array?
      then && e.kind == ARRAY && e.size == |b.elements| && ElementsAt(mem, e.next, b.elements)
           && e.offset + |EncodeBody(b)| == e.next + ElementsSize(b.elements)
      else && e.kind == MAP && e.size == |b.pairs| && PairsAt(mem, e.next, b.pairs)
           && e.offset + |EncodeBody(b)| == e.next + PairsSize(b.pairs)
  {
    AtParts(mem, e.offset, HeaderOf(b), Contents(b));
  }

  // ---------------------------------------------------------------- skipping

  /** A value or a key that is decoded and skipped; what it promises for a tree that stands there. */
  predicate Skipped(mem: Section, offset: nat, n: Option<Node>, ok: bool, next: nat) {
    n.Some? && Written(mem, offset, n.value) ==> ok && next == offset + |Encode(n.value)|
  }

  predicate SkippedBody(mem: Section, e0: Entry, b: Option<Body>, ok: bool, next: nat) {
    b.Some? && Holds(mem, e0, b.value) ==>
      ok && next == if IsContainer(b.value) then e0.offset + |EncodeBody(b.value)| else e0.next
  }

  lemma SimpleKind(b: Body)
    requires WellFormedBody(b) && !IsContainer(b)
    ensures KindOf(b) != MAP && KindOf(b) != ARRAY
  {
  }

  /**
    skip_map_or_array. Whatever the bytes and the claimed sizes, it ends after no more decodes than there are
    bytes to come; on a written value it stops exactly where the value's bytes end.
  */
  method SkipMapOrArray(mem: Section, e0: Entry, ghost b: Option<Body>) returns (ok: bool, e: Entry, ghost decodes: nat)
    requires e0.next <= |mem|
    ensures e0.next <= e.next <= |mem| && decodes <= e.next - e0.next + if ok then 0 else 1
    ensures e0.kind != MAP && e0.kind != ARRAY ==> ok && e == e0
    ensures SkippedBody(mem, e0, b, ok, e.next)
    decreases |mem| - e0.next, 2
  {
    hide WrittenBody, WellFormedBody, EncodeAll, EncodePairs, HeaderOf, At, PlacedBody, PairsAt, ElementsAt, PairsSize, ElementsSize;
    ghost var isTree := b.Some? && IsContainer(b.value) && Holds(mem, e0, b.value);
    if isTree { ContainerParts(mem, e0, b.value); }
    if b.Some? && Holds(mem, e0, b.value) && !isTree { SimpleKind(b.value); }
    if e0.kind == MAP {
      ok, e, decodes := SkipPairs(mem, e0, if isTree then Some(b.value.pairs) else None);
    } else if e0.kind == ARRAY {
      ok, e, decodes := SkipElements(mem, e0, if isTree then Some(b.value.elements) else None);
    } else {
      ok, e, decodes := true, e0, 0;
    }
  }

  predicate PairsAt(mem: Section, offset: nat, p: seq<Pair>) { PairsPlaced(mem, p) && At(mem, offset, EncodePairs(p)) }

  predicate ElementsAt(mem: Section, offset: nat, s: seq<Node>) {
    && (forall k :: 0 <= k < |s| ==> WellFormed(s[k]) && Placed(mem, s[k]))
    && At(mem, offset, EncodeAll(s))
  }

  /** How many bytes the elements, or the pairs, take. */
  function ElementsSize(s: seq<Node>): nat {
    if forall k :: 0 <= k < |s| ==> WellFormed(s[k]) then |EncodeAll(s)| else 0
  }

  function PairsSize(p: seq<Pair>): nat { if WellFormedPairs(p) then |EncodePairs(p)| else 0 }

  lemma NothingLeft()
    ensures ElementsSize([]) == 0 && PairsSize([]) == 0
  {
  }

  lemma FirstElement(mem: Section, offset: nat, s: seq<Node>)
    requires ElementsAt(mem, offset, s) && s != []
    ensures Written(mem, offset, s[0]) && ElementsAt(mem, offset + |Encode(s[0])|, s[1..])
    ensures ElementsSize(s) == |Encode(s[0])| + ElementsSize(s[1..])
  {
    assert s[0..] == s;
    NextElement(mem, offset, s, 0);
  }

  lemma FirstPair(mem: Section, offset: nat, p: seq<Pair>)
    requires PairsAt(mem, offset, p) && p != []
    ensures Written(mem, offset, p[0].key) && Written(mem, offset + |Encode(p[0].key)|, p[0].value)
    ensures PairsAt(mem, offset + |Encode(p[0].key)| + |Encode(p[0].value)|, p[1..])
    ensures PairsSize(p) == |Encode(p[0].key)| + |Encode(p[0].value)| + PairsSize(p[1..])
    ensures p[0].key.body.Text?
  {
    assert p[0..] == p;
    NextPair(mem, offset, p, 0);
  }

  method SkipPairs(mem: Section, e0: Entry, ghost pairs: Option<seq<Pair>>) returns (ok: bool, e: Entry, ghost decodes: nat)
    requires e0.next <= |mem|
    requires pairs.Some? ==> PairsAt(mem, e0.next, pairs.value) && e0.size == |pairs.value|
    ensures e0.next <= e.next <= |mem| && decodes <= e.next - e0.next + if ok then 0 else 1
    ensures pairs.Some? ==> ok && e.next == e0.next + PairsSize(pairs.value)
    decreases |mem| - e0.next, 1
  {
    hide PairsAt, Written, Encode, Placed, WellFormed, PairsSize;
    NothingLeft();
    ok, e, decodes := true, e0, 0;
    ghost var rest := pairs;
    var size := e0.size;
    while size > 0
      invariant ok && e0.next <= e.next <= |mem| && decodes <= e.next - e0.next && rest.Some? == pairs.Some?
      invariant rest.Some? ==> PairsAt(mem, e.next, rest.value) && size == |rest.value|
      invariant rest.Some? ==> e.next + PairsSize(rest.value) == e0.next + PairsSize(pairs.value)
    {
      ghost var value := None;
      if rest.Some? {
        FirstPair(mem, e.next, rest.value);
        KeyEnds(mem, e.next, rest.value[0].key);
        value, rest := Some(rest.value[0].value), Some(rest.value[1..]);
      }
      size := size - 1;
      decodes := decodes + 1;
      match DecodeOne(mem, e.next)   // key
      case InvalidData => return false, e, decodes;
      case Ok(key) => e := key;
      ghost var count;
      ok, e, count := DecodeAndSkip(mem, e.next, value);
      decodes := decodes + count;
      if !ok { return; }
    }
  }

  method SkipElements(mem: Section, e0: Entry, ghost elements: Option<seq<Node>>)
    returns (ok: bool, e: Entry, ghost decodes: nat)
    requires e0.next <= |mem|
    requires elements.Some? ==> ElementsAt(mem, e0.next, elements.value) && e0.size == |elements.value|
    ensures e0.next <= e.next <= |mem| && decodes <= e.next - e0.next + if ok then 0 else 1
    ensures elements.Some? ==> ok && e.next == e0.next + ElementsSize(elements.value)
    decreases |mem| - e0.next, 1
  {
    hide ElementsAt, Written, Encode, Placed, WellFormed, ElementsSize;
    NothingLeft();
    ok, e, decodes := true, e0, 0;
    ghost var rest := elements;
    var size := e0.size;
    while size > 0
      invariant ok && e0.next <= e.next <= |mem| && decodes <= e.next - e0.next && rest.Some? == elements.Some?
      invariant rest.Some? ==> ElementsAt(mem, e.next, rest.value) && size == |rest.value|
      invariant rest.Some? ==> e.next + ElementsSize(rest.value) == e0.next + ElementsSize(elements.value)
    {
      ghost var value := None;
      if rest.Some? {
        FirstElement(mem, e.next, rest.value);
        value, rest := Some(rest.value[0]), Some(rest.value[1..]);
      }
      size := size - 1;
      ghost var count;
      ok, e, count := DecodeAndSkip(mem, e.next, value);
      decodes := decodes + count;
      if !ok { return; }
    }
  }

  /** A key is decoded without being skipped: it ends where its bytes end, behind a pointer or not. */
  lemma KeyEnds(mem: Section, offset: nat, n: Node)
    requires Written(mem, offset, n) && n.body.Text?
    ensures DecodeOne(mem, offset).Ok? && DecodeOne(mem, offset).entry.next == offset + |Encode(n)|
  {
    DecodedHead(mem, offset, n);
  }

  /** Decoding a value without following a pointer, and skipping over it. */
  method DecodeAndSkip(mem: Section, offset: nat, ghost n: Option<Node>) returns (ok: bool, e: Entry, ghost decodes: nat)
    requires offset <= |mem|
    ensures offset <= e.next <= |mem| && decodes <= e.next - offset + if ok then 0 else 1
    ensures ok ==> offset < e.next
    ensures Skipped(mem, offset, n, ok, e.next)
    decreases |mem| - offset, 0
  {
    hide Placed, WellFormedBody, At, EncodeBody, Describes, WrittenBody;
    ghost var isTree := n.Some? && Written(mem, offset, n.value);
    if isTree { DecodedHead(mem, offset, n.value); }
    match DecodeOne(mem, offset)
    case InvalidData => return false, Entry(0, offset, offset, 0, NoContent), 1;
    case Ok(value) =>
      ghost var count;
      ok, e, count := SkipMapOrArray(mem, value, if isTree && n.value.via.None? then Some(n.value.body) else None);
      decodes := count + 1;
  }

  // ---------------------------------------------------------------- paths

  /** What a lookup returns when the tree says `found`. */
  predicate Answers(mem: Section, status: Status, e: Entry, found: Found) {
    match found
    case Value(b) => status == Success && Holds(mem, e, b)
    case BadPath => status == InvalidLookupPath
    case NoMatch => status == PathDoesNotMatch
  }

  /** decode_one_follow on a node, with what it leaves for the next step of a path. */
  lemma Followed(mem: Section, offset: nat, n: Node)
    requires Written(mem, offset, n)
    ensures DecodeFollow(mem, offset).Ok? && Holds(mem, DecodeFollow(mem, offset).entry, n.body)
    ensures !IsContainer(n.body) ==> DecodeFollow(mem, offset).entry.next == offset + |Encode(n)|
  {
    DecodedNode(mem, offset, n);
  }

  method LookupInArray(mem: Section, elem: Bytes, e0: Entry, parse: Bytes -> Index, ghost elements: Option<seq<Node>>)
    returns (status: Status, e: Entry)
    requires e0.next <= |mem|
    requires elements.Some? ==> ElementsAt(mem, e0.next, elements.value) && e0.size == |elements.value|
    ensures status == Success ==> e.next <= |mem|
    ensures elements.Some? ==> Answers(mem, status, e, Step(Array(elements.value), elem, parse))
  {
    hide ElementsAt, Written, Encode, Placed, WellFormed, Holds;
    e := e0;
    match parse(elem)
    case Negative => return InvalidLookupPath, e;
    case NotAnIndex => return PathDoesNotMatch, e;
    case AtIndex(index) =>
      if index >= e0.size { return PathDoesNotMatch, e; }
      ghost var rest := elements;
      for i := 0 to index
        invariant e.next <= |mem| && rest.Some? == elements.Some?
        invariant rest.Some? ==> rest.value == elements.value[i..] && ElementsAt(mem, e.next, rest.value)
      {
        ghost var value := None;
        if rest.Some? {
          FirstElement(mem, e.next, rest.value);
          value, rest := Some(rest.value[0]), Some(rest.value[1..]);
        }
        // a pointer is skipped, not followed
        var ok;
        ghost var decodes;
        ok, e, decodes := DecodeAndSkip(mem, e.next, value);
        if !ok { return CorruptData, e; }
      }
      if rest.Some? {
        FirstElement(mem, e.next, rest.value);
        Followed(mem, e.next, rest.value[0]);
        assert rest.value[0] == elements.value[index];
      }
      match DecodeFollow(mem, e.next)
      case InvalidData => return CorruptData, e;
      case Ok(value) => return Success, value;
  }

  /** The first of the pairs that stand at an offset, as the reader sees it. */
  lemma FirstPairRead(mem: Section, offset: nat, p: seq<Pair>, elem: Bytes)
    requires PairsAt(mem, offset, p) && p != []
    ensures DecodeFollow(mem, offset).Ok? && DecodeFollow(mem, offset).entry.kind == UTF8_STRING
    ensures var key := DecodeFollow(mem, offset).entry;
      && Written(mem, key.next, p[0].value) && PairsAt(mem, key.next + |Encode(p[0].value)|, p[1..])
      && DecodeFollow(mem, key.next).Ok?
      && MapStep(p, elem) == (if key.content == Raw(elem) then Value(p[0].value.body) else MapStep(p[1..], elem))
      && Holds(mem, DecodeFollow(mem, key.next).entry, p[0].value.body)
  {
    hide PairsAt, Written, Encode, Placed, WellFormed, Holds, DecodeFollow;
    FirstPair(mem, offset, p);
    Followed(mem, offset, p[0].key);
    KeyHeld(mem, DecodeFollow(mem, offset).entry, p[0].key);
    Followed(mem, DecodeFollow(mem, offset).entry.next, p[0].value);
  }

  method LookupInMap(mem: Section, elem: Bytes, e0: Entry, ghost pairs: Option<seq<Pair>>) returns (status: Status, e: Entry)
    requires e0.next <= |mem|
    requires pairs.Some? ==> PairsAt(mem, e0.next, pairs.value) && e0.size == |pairs.value|
    ensures status == Success ==> e.next <= |mem|
    ensures pairs.Some? ==> Answers(mem, status, e, MapStep(pairs.value, elem))
  {
    hide PairsAt, Written, Encode, Placed, WellFormed, Holds, DecodeFollow, MapStep;
    EmptyMapStep(elem);
    var size: nat, offset: nat := e0.size, e0.next;
    ghost var rest := pairs;
    while size > 0
      invariant offset <= |mem| && rest.Some? == pairs.Some?
      invariant rest.Some? ==> PairsAt(mem, offset, rest.value) && size == |rest.value|
      invariant rest.Some? ==> MapStep(rest.value, elem) == MapStep(pairs.value, elem)
    {
      size := size - 1;
      ghost var value := None;
      if rest.Some? {
        FirstPairRead(mem, offset, rest.value, elem);
        value := Some(rest.value[0].value);
      }
      match DecodeFollow(mem, offset)
      case InvalidData => return CorruptData, e0;
      case Ok(key) =>
        if key.kind != UTF8_STRING { return CorruptData, e0; }
        if key.content == Raw(elem) {
          match DecodeFollow(mem, key.next)
          case InvalidData => return CorruptData, e0;
          case Ok(v) => return Success, v;
        } else {
          // a pointer is skipped, not followed
          var ok, v;
          ghost var decodes;
          ok, v, decodes := DecodeAndSkip(mem, key.next, value);
          if !ok { return CorruptData, e0; }
          offset := v.next;
          if rest.Some? { rest := Some(rest.value[1..]); }
        }
    }
    return PathDoesNotMatch, e0;
  }

  function MapStep(p: seq<Pair>, elem: Bytes): Found {
    match FirstWithKey(p, elem)
    case Some(v) => Value(v)
    case None => NoMatch
  }

  lemma EmptyMapStep(elem: Bytes)
    ensures MapStep([], elem) == NoMatch
  {
  }

  lemma KeyHeld(mem: Section, e: Entry, n: Node)
    requires Holds(mem, e, n.body) && n.body.Text?
    ensures e.kind == UTF8_STRING && e.content == Raw(n.body.text)
  {
  }

  /**
    MMDB_aget_value: on the bytes of any written tree it finds exactly what the path finds in the tree, first
    matching key first, whether keys and values stand inline or behind a pointer.
  */
  method GetValue(mem: Section, offset: nat, path: seq<Bytes>, parse: Bytes -> Index, ghost n: Option<Node>)
    returns (status: Status, e: Entry)
    ensures n.Some? && Written(mem, offset, n.value) ==> Answers(mem, status, e, Walk(n.value.body, path, parse))
  {
    hide ElementsAt, PairsAt, Written, WellFormedBody, WrittenBody, Holds, Step;
    ghost var isTree := n.Some? && Written(mem, offset, n.value);
    if isTree { Followed(mem, offset, n.value); }
    match DecodeFollow(mem, offset)
    case InvalidData => return CorruptData, Entry(0, 0, 0, 0, NoContent);
    case Ok(top) =>
      e := top;
      ghost var b := if isTree then n.value.body else Boolean(true);
      for i := 0 to |path|
        invariant e.next <= |mem|
        invariant isTree ==> Holds(mem, e, b) && Walk(b, path[i..], parse) == Walk(n.value.body, path, parse)
      {
        assert path[i..][1..] == path[i + 1..];
        ghost var found := Step(b, path[i], parse);
        if isTree { StepHeld(mem, e, b, path[i], parse); }
        if e.kind == ARRAY {
          status, e := LookupInArray(mem, path[i], e, parse, if isTree then Some(b.elements) else None);
        } else if e.kind == MAP {
          status, e := LookupInMap(mem, path[i], e, if isTree then Some(b.pairs) else None);
        } else {
          return PathDoesNotMatch, e;
        }
        if status != Success { return; }
        if isTree { b := found.body; }
      }
      return Success, e;
  }

  /** What the kind of a held entry says about a step from its value. */
  lemma StepHeld(mem: Section, e: Entry, b: Body, elem: Bytes, parse: Bytes -> Index)
    requires Holds(mem, e, b)
    ensures e.kind == ARRAY <==> b.Array?
    ensures e.kind == MAP <==> b.Map?
    ensures b.Array? ==> ElementsAt(mem, e.next, b.elements) && e.size == |b.elements| && b == Array(b.elements)
    ensures b.Map? ==> PairsAt(mem, e.next, b.pairs) && e.size == |b.pairs| && Step(b, elem, parse) == MapStep(b.pairs, elem)
    ensures !b.Array? && !b.Map? ==> Step(b, elem, parse) == NoMatch
  {
    if IsContainer(b) { ContainerParts(mem, e, b); } else { SimpleKind(b); }
  }
}
