/**
  The lock-free free list of the vendored ConcurrentQueue: any number of threads calling
  add and try_get under sequential consistency, one step per atomic access
  (Library/ConcurrentQueue/Include/concurrentqueue/concurrentqueue.h).
*/
module FreeList {
  import opened Options

  /** A word of 32 bits: the SHOULD_BE_ON_FREELIST bit above a reference count. */
  type Word = x: int | 0 <= x < 0x1_0000_0000

  const FLAG := 0x8000_0000

  type Node = nat
  type Ptr = Option<Node>

  function Plus(w: Word, delta: int): Word { (w + delta) % 0x1_0000_0000 }

  /** `w & REFS_MASK` */
  function Count(w: Word): int { w % FLAG }

  /** What a thread does after add_knowing_refcount_is_zero: return from add, or go on in try_get. */
  datatype Then = ReturnFromAdd | GoOn(head: Ptr)

  /** Where a thread stands: the atomic access it performs next, with the locals that are still needed. */
  datatype Pc =
    | Idle
    | FlagNode(node: Node)
    | LoadHead(node: Node, after: Then)
    | StoreNext(node: Node, head: Ptr, after: Then)
    | StoreRefs(node: Node, head: Ptr, after: Then)
    | CasInsert(node: Node, head: Ptr, after: Then)
    | Unpublish(node: Node, head: Ptr, after: Then)
    | GetHead
    | LoadRefs(node: Node)
    | CasRefs(node: Node, refs: Word)
    | LoadNext(node: Node)
    | CasTake(node: Node, next: Ptr)
    | CheckFlag(node: Node)
    | DropTwo(node: Node)
    | DropOne(node: Node, head: Ptr)

  datatype Event = Added(node: Node) | Got(node: Node)

  /** Where a node is; an auxiliary variable that no step of the algorithm reads. */
  datatype Place = Owned | Adding(thread: nat) | Flagged | Inserting(thread: nat) | Listed | Taken(thread: nat)

  datatype State = State(
    head: Ptr, refs: seq<Word>, next: seq<Ptr>, threads: seq<Pc>,
    log: seq<Event>, place: seq<Place>, list: seq<Node>, failed: bool)

  datatype Step = StartAdd(thread: nat, node: Node) | StartGet(thread: nat) | Go(thread: nat)

  // ---------------------------------------------------------------- the algorithm

  /** The caller has the node: it was never added, or was handed out and not added since. */
  predicate InHand(log: seq<Event>, n: Node)
    decreases |log|
  {
    if log == [] then true
    else if log[|log| - 1].node == n then log[|log| - 1].Got?
    else InHand(log[..|log| - 1], n)
  }

  function Moved(s: State, t: nat, pc: Pc): State
    requires t < |s.threads|
  {
    s.(threads := s.threads[t := pc])
  }

  function Continue(k: Then): Pc {
    match k
    case ReturnFromAdd => Idle
    case GoOn(head) => if head.None? then Idle else LoadRefs(head.value)
  }

  predicate NodesKnown(s: State, t: nat)
    requires t < |s.threads|
  {
    && |s.refs| == |s.next| == |s.place|
    && (s.threads[t] != Idle && s.threads[t] != GetHead ==> s.threads[t].node < |s.refs|)
  }

  /** One atomic access of thread t. */
  function Act(s: State, t: nat): State
    requires t < |s.threads| && NodesKnown(s, t)
  {
    match s.threads[t]
    case Idle => s
    case FlagNode(n) =>
      var old_ := s.refs[n];
      var m := s.(refs := s.refs[n := Plus(old_, FLAG)]);
      if old_ == 0 then Moved(m.(place := m.place[n := Inserting(t)]), t, LoadHead(n, ReturnFromAdd))
      else Moved(m.(place := m.place[n := Flagged]), t, Idle)
    case LoadHead(n, k) => Moved(s, t, StoreNext(n, s.head, k))
    case StoreNext(n, h, k) => Moved(s.(next := s.next[n := h]), t, StoreRefs(n, h, k))
    case StoreRefs(n, h, k) => Moved(s.(refs := s.refs[n := 1]), t, CasInsert(n, h, k))
    case CasInsert(n, h, k) =>
      if s.head == h
      then Moved(s.(head := Some(n), place := s.place[n := Listed], list := [n] + s.list), t, Continue(k))
      else Moved(s, t, Unpublish(n, s.head, k))
    case Unpublish(n, h, k) =>
      var old_ := s.refs[n];
      var m := s.(refs := s.refs[n := Plus(old_, FLAG - 1)]);
      if old_ == 1 then Moved(m, t, StoreNext(n, h, k))
      else Moved(m.(place := m.place[n := Flagged]), t, Continue(k))
    case GetHead => Moved(s, t, Continue(GoOn(s.head)))
    case LoadRefs(n) => Moved(s, t, if Count(s.refs[n]) == 0 then GetHead else CasRefs(n, s.refs[n]))
    case CasRefs(n, r) =>
      if s.refs[n] == r then Moved(s.(refs := s.refs[n := Plus(r, 1)]), t, LoadNext(n)) else Moved(s, t, GetHead)
    case LoadNext(n) => Moved(s, t, CasTake(n, s.next[n]))
    case CasTake(n, x) =>
      if s.head == Some(n)
      then Moved(s.(head := x, place := s.place[n := Taken(t)], list := if s.list == [] then [] else s.list[1..]),
                 t, CheckFlag(n))
      else Moved(s, t, DropOne(n, s.head))
    case CheckFlag(n) => Moved(s.(failed := s.failed || s.refs[n] >= FLAG), t, DropTwo(n))
    case DropTwo(n) =>
      Moved(s.(refs := s.refs[n := Plus(s.refs[n], -2)], place := s.place[n := Owned], log := s.log + [Got(n)]), t, Idle)
    case DropOne(n, h) =>
      var old_ := s.refs[n];
      var m := s.(refs := s.refs[n := Plus(old_, -1)]);
      if old_ == FLAG + 1 then Moved(m.(place := m.place[n := Inserting(t)]), t, LoadHead(n, GoOn(h)))
      else Moved(m, t, Continue(GoOn(h)))
  }

  /** A step that is not possible leaves the state as it is; add is called only with a node in hand. */
  function After(s: State, step: Step): State {
    match step
    case StartAdd(t, n) =>
      if t < |s.threads| && s.threads[t] == Idle && n < |s.place| && InHand(s.log, n)
      then Moved(s.(log := s.log + [Added(n)], place := s.place[n := Adding(t)]), t, FlagNode(n)) else s
    case StartGet(t) => if t < |s.threads| && s.threads[t] == Idle then Moved(s, t, GetHead) else s
    case Go(t) => if t < |s.threads| && NodesKnown(s, t) then Act(s, t) else s
  }

  function Run(s: State, steps: seq<Step>): State {
    if steps == [] then s else After(Run(s, steps[..|steps| - 1]), steps[|steps| - 1])
  }

  function Initial(nodes: nat, threads: nat): State {
    State(None, seq(nodes, _ => 0), seq(nodes, _ => None), seq(threads, _ => Idle), [], seq(nodes, _ => Owned), [], false)
  }

  // ---------------------------------------------------------------- the invariant

  /** A thread between a successful increment of a node's count and the matching decrement. */
  predicate IsHolder(pc: Pc) { pc.LoadNext? || pc.CasTake? || pc.CheckFlag? || pc.DropTwo? || pc.DropOne? }

  predicate Holds(pc: Pc, n: Node) { IsHolder(pc) && pc.node == n }

  function Holders(threads: seq<Pc>, n: Node): nat {
    if threads == [] then 0 else Holders(threads[..|threads| - 1], n) + if Holds(threads[|threads| - 1], n) then 1 else 0
  }

  /** The thread owns the add of a node whose count is still zero. */
  predicate Hidden(pc: Pc) { pc.LoadHead? || pc.StoreNext? || pc.StoreRefs? }
  predicate Visible(pc: Pc) { pc.CasInsert? || pc.Unpublish? }

  predicate NodeOk(s: State, n: Node)
    requires n < |s.place| == |s.refs|
  {
    var w, h := s.refs[n], Holders(s.threads, n);
    match s.place[n]
    case Owned => w == h
    case Adding(t) => w == h && t < |s.threads| && s.threads[t] == FlagNode(n)
    case Flagged => w == FLAG + h && h > 0
    case Inserting(t) =>
      && t < |s.threads| && (Hidden(s.threads[t]) || Visible(s.threads[t])) && s.threads[t].node == n
      && if Hidden(s.threads[t]) then w == FLAG && h == 0 else w == 1 + h
    case Listed => w == 1 + h
    case Taken(t) => w == 1 + h && t < |s.threads| && (s.threads[t] == CheckFlag(n) || s.threads[t] == DropTwo(n))
  }

  predicate PtrOk(s: State, p: Ptr) { p.Some? ==> p.value < |s.place| }

  predicate ThenOk(s: State, k: Then) { k.GoOn? ==> PtrOk(s, k.head) }

  predicate ThreadOk(s: State, t: nat)
    requires t < |s.threads| && |s.place| == |s.next|
  {
    var pc := s.threads[t];
    && (pc != Idle && pc != GetHead ==> pc.node < |s.place|)
    && match pc
       case FlagNode(n) => s.place[n] == Adding(t)
       case LoadHead(n, k) => s.place[n] == Inserting(t) && ThenOk(s, k)
       case StoreNext(n, h, k) => s.place[n] == Inserting(t) && PtrOk(s, h) && ThenOk(s, k)
       case StoreRefs(n, h, k) => s.place[n] == Inserting(t) && s.next[n] == h && PtrOk(s, h) && ThenOk(s, k)
       case CasInsert(n, h, k) => s.place[n] == Inserting(t) && s.next[n] == h && PtrOk(s, h) && ThenOk(s, k)
       case Unpublish(n, h, k) => s.place[n] == Inserting(t) && PtrOk(s, h) && ThenOk(s, k)
       case CasRefs(n, r) => Count(r) != 0
       case CasTake(n, x) => s.next[n] == x
       case CheckFlag(n) => s.place[n] == Taken(t)
       case DropTwo(n) => s.place[n] == Taken(t)
       case DropOne(n, h) => PtrOk(s, h)
       case _ => true
  }

  /** The node at position i of a list; None past its end. */
  function NodeAt(list: seq<Node>, i: nat): Ptr { if i < |list| then Some(list[i]) else None }

  /** Following next from the head visits the nodes of `list`, each once, and ends. */
  predicate Chain(head: Ptr, next: seq<Ptr>, list: seq<Node>) {
    && head == NodeAt(list, 0)
    && (forall i :: 0 <= i < |list| ==> list[i] < |next| && next[list[i]] == NodeAt(list, i + 1))
    && (forall i, j :: 0 <= i < j < |list| ==> list[i] != list[j])
  }

  predicate Lists(list: seq<Node>, place: seq<Place>) {
    && (forall i :: 0 <= i < |list| ==> list[i] < |place| && place[list[i]] == Listed)
    && (forall n :: 0 <= n < |place| && place[n] == Listed ==> n in list)
  }

  predicate ListOk(s: State) { Chain(s.head, s.next, s.list) && Lists(s.list, s.place) }

  predicate LogOk(s: State) {
    forall n :: 0 <= n < |s.place| ==> (InHand(s.log, n) <==> s.place[n] == Owned)
  }

  /** No event hands out a node that is in hand, or adds one that is not. */
  predicate Alternates(log: seq<Event>) {
    forall j :: 0 <= j < |log| ==> log[j].Got? == !InHand(log[..j], log[j].node)
  }

  predicate Inv(s: State) {
    && |s.refs| == |s.next| == |s.place| && |s.threads| + 1 < FLAG
    && (forall n :: 0 <= n < |s.place| ==> NodeOk(s, n))
    && (forall t :: 0 <= t < |s.threads| ==> ThreadOk(s, t))
    && ListOk(s) && LogOk(s) && Alternates(s.log) && !s.failed
  }

  lemma {:induction false} HoldersMoved(threads: seq<Pc>, t: nat, pc: Pc, n: Node)
    requires t < |threads|
    ensures Holders(threads[t := pc], n) ==
      Holders(threads, n) - (if Holds(threads[t], n) then 1 else 0) + (if Holds(pc, n) then 1 else 0)
    decreases |threads|
  {
    var m := threads[t := pc];
    if t == |threads| - 1 {
      assert m[..|m| - 1] == threads[..|threads| - 1];
    } else {
      assert m[..|m| - 1] == threads[..|threads| - 1][t := pc];
      HoldersMoved(threads[..|threads| - 1], t, pc, n);
    }
  }

  lemma {:induction false} HoldersBound(threads: seq<Pc>, n: Node)
    ensures Holders(threads, n) <= |threads|
    decreases |threads|
  {
    if threads == [] {
    } else {
      HoldersBound(threads[..|threads| - 1], n);
    }
  }

  lemma {:induction false} HolderCounts(threads: seq<Pc>, t: nat, n: Node)
    requires t < |threads| && Holds(threads[t], n)
    ensures Holders(threads, n) > 0
    decreases |threads|
  {
    if t == |threads| - 1 {
    } else {
      HolderCounts(threads[..|threads| - 1], t, n);
    }
  }

  // ---------------------------------------------------------------- every access keeps the invariant

  /** No other thread relies on the node being in this place. */
  predicate Mine(p: Place, t: nat) {
    (p.Adding? || p.Inserting? || p.Taken?) ==> p.thread == t
  }

  predicate SameBut<T(==)>(a: seq<T>, b: seq<T>, m: nat) {
    |a| == |b| && forall i :: 0 <= i < |a| && i != m ==> b[i] == a[i]
  }

  /** From s to d thread t moves and touches no node but m, and m only where no other thread relies on it. */
  predicate Touches(s: State, d: State, t: nat, m: Node)
    requires t < |s.threads| && |s.refs| == |s.next| == |s.place|
  {
    && |d.refs| == |d.next| == |d.place| == |s.place| && |d.threads| == |s.threads|
    && d.threads == s.threads[t := d.threads[t]]
    && SameBut(s.refs, d.refs, m) && SameBut(s.next, d.next, m) && SameBut(s.place, d.place, m)
    && (IsHolder(s.threads[t]) ==> s.threads[t].node == m) && (IsHolder(d.threads[t]) ==> d.threads[t].node == m)
    && (s.threads[t] != Idle && s.threads[t] != GetHead ==> s.threads[t].node == m)
    && (m < |s.place| ==>
        && (d.place[m] == s.place[m] || Mine(s.place[m], t))
        && (d.next[m] == s.next[m] || (s.place[m] == Inserting(t) && Holders(s.threads, m) == 0)))
  }

  lemma OtherNodeOk(s: State, d: State, t: nat, m: Node, n: Node)
    requires Inv(s) && t < |s.threads| && Touches(s, d, t, m) && n < |s.place| && n != m
    ensures NodeOk(d, n)
  {
    assert NodeOk(s, n);
    HoldersMoved(s.threads, t, d.threads[t], n);
  }

  lemma OtherThreadOk(s: State, d: State, t: nat, m: Node, u: nat)
    requires Inv(s) && t < |s.threads| && Touches(s, d, t, m) && u < |s.threads| && u != t
    ensures ThreadOk(d, u)
  {
    assert ThreadOk(s, u);
    if s.threads[u].CasTake? && s.threads[u].node == m {
      HolderCounts(s.threads, u, m);
    }
  }

  lemma TouchedOk(s: State, d: State, t: nat, m: Node)
    requires Inv(s) && t < |s.threads| && Touches(s, d, t, m)
    requires m < |s.place| ==> NodeOk(d, m)
    requires ThreadOk(d, t)
    ensures forall n :: 0 <= n < |d.place| ==> NodeOk(d, n)
    ensures forall u :: 0 <= u < |d.threads| ==> ThreadOk(d, u)
  {
    forall n | 0 <= n < |d.place| ensures NodeOk(d, n) {
      if n != m { OtherNodeOk(s, d, t, m, n); }
    }
    forall u | 0 <= u < |d.threads| ensures ThreadOk(d, u) {
      if u != t { OtherThreadOk(s, d, t, m, u); }
    }
  }

  /** The chain stays as it is when only unlisted nodes change. */
  lemma SameList(s: State, d: State)
    requires Inv(s) && |d.place| == |d.next| == |s.place| && d.head == s.head && d.list == s.list
    requires forall n :: 0 <= n < |s.place| ==>
      (s.place[n] == Listed <==> d.place[n] == Listed) && (s.place[n] == Listed ==> d.next[n] == s.next[n])
    ensures ListOk(d)
  {
  }

  lemma NewEvent(s: State, d: State, e: Event)
    requires LogOk(s) && Alternates(s.log) && d.log == s.log + [e] && |d.place| == |s.place|
    requires e.node < |s.place| && (e.Got? <==> s.place[e.node] != Owned) && (e.Got? <==> d.place[e.node] == Owned)
    requires forall n :: 0 <= n < |s.place| && n != e.node ==> d.place[n] == s.place[n]
    ensures LogOk(d) && Alternates(d.log)
  {
    assert d.log[..|s.log|] == s.log;
    forall j | 0 <= j < |d.log| ensures d.log[j].Got? == !InHand(d.log[..j], d.log[j].node) {
      if j < |s.log| { assert d.log[..j] == s.log[..j]; }
    }
  }

  /** What a step must establish where it touches the state. */
  predicate Local(s: State, d: State, t: nat, m: Node)
    requires t < |s.threads| && |s.refs| == |s.next| == |s.place|
  {
    Touches(s, d, t, m) && (m < |s.place| ==> NodeOk(d, m)) && ThreadOk(d, t)
  }

  /** The chain, the log and the assertion are left alone. */
  predicate Quiet(s: State, d: State, m: Node)
    requires |s.next| == |s.place| == |d.place| == |d.next|
  {
    && d.head == s.head && d.list == s.list && d.log == s.log && d.failed == s.failed
    && (m < |s.place| ==>
        && (s.place[m] == Listed <==> d.place[m] == Listed) && (s.place[m] == Owned <==> d.place[m] == Owned)
        && (s.place[m] == Listed ==> d.next[m] == s.next[m]))
  }

  /** What a step may rely on. */
  predicate Before(s: State, t: nat)
    requires t < |s.threads|
  {
    && |s.refs| == |s.next| == |s.place| && |s.threads| + 1 < FLAG
    && NodesKnown(s, t) && ThreadOk(s, t)
    && (s.threads[t] != Idle && s.threads[t] != GetHead ==> NodeOk(s, s.threads[t].node))
  }

  lemma PlusExact(w: Word, delta: int)
    requires 0 <= w + delta < 0x1_0000_0000
    ensures Plus(w, delta) == w + delta
  {
  }

  /** A count and its holders change together. */
  lemma ShiftedOk(s: State, d: State, t: nat, n: Node)
    requires t < |s.threads| == |d.threads| && n < |s.place| == |s.refs| == |d.refs| == |d.place| && NodeOk(s, n)
    requires d.place[n] == s.place[n] && d.threads == s.threads[t := d.threads[t]]
    requires d.refs[n] + Holders(s.threads, n) == s.refs[n] + Holders(d.threads, n)
    requires s.place[n].Adding? || s.place[n].Inserting? || s.place[n].Taken? ==> s.place[n].thread != t
    requires s.refs[n] != FLAG && (s.place[n] == Flagged ==> Holders(d.threads, n) > 0)
    ensures NodeOk(d, n)
  {
  }

  lemma FlagLocal(s: State, t: nat)
    requires t < |s.threads| && Before(s, t) && s.threads[t].FlagNode?
    ensures Local(s, Act(s, t), t, s.threads[t].node) && Quiet(s, Act(s, t), s.threads[t].node)
  {
    var n := s.threads[t].node;
    HoldersMoved(s.threads, t, Act(s, t).threads[t], n);
    HoldersBound(s.threads, n);
  }

  lemma HiddenLocal(s: State, t: nat)
    requires t < |s.threads| && Before(s, t) && Hidden(s.threads[t]) && PtrOk(s, s.head)
    ensures Local(s, Act(s, t), t, s.threads[t].node) && Quiet(s, Act(s, t), s.threads[t].node)
  {
    HoldersMoved(s.threads, t, Act(s, t).threads[t], s.threads[t].node);
  }

  lemma InsertLocal(s: State, t: nat)
    requires t < |s.threads| && Before(s, t) && s.threads[t].CasInsert? && PtrOk(s, s.head)
    ensures Local(s, Act(s, t), t, s.threads[t].node)
  {
    HoldersMoved(s.threads, t, Act(s, t).threads[t], s.threads[t].node);
  }

  lemma UnpublishLocal(s: State, t: nat)
    requires t < |s.threads| && Before(s, t) && s.threads[t].Unpublish?
    ensures Local(s, Act(s, t), t, s.threads[t].node) && Quiet(s, Act(s, t), s.threads[t].node)
  {
    var n := s.threads[t].node;
    HoldersMoved(s.threads, t, Act(s, t).threads[t], n);
    HoldersBound(s.threads, n);
    hide Plus;
    hide Count;
    PlusExact(s.refs[n], FLAG - 1);
  }

  lemma LookLocal(s: State, t: nat)
    requires t < |s.threads| && Before(s, t) && (s.threads[t].LoadRefs? || s.threads[t].LoadNext?)
    ensures Local(s, Act(s, t), t, s.threads[t].node) && Quiet(s, Act(s, t), s.threads[t].node)
  {
    HoldersMoved(s.threads, t, Act(s, t).threads[t], s.threads[t].node);
  }

  lemma CountedOk(s: State, t: nat)
    requires t < |s.threads| && Before(s, t) && s.threads[t].CasRefs? && s.refs[s.threads[t].node] == s.threads[t].refs
    ensures NodeOk(Act(s, t), s.threads[t].node)
  {
    var n, w := s.threads[t].node, s.refs[s.threads[t].node];
    HoldersBound(s.threads, n);
    assert w != FLAG;
    hide Plus;
    hide Count;
    PlusExact(w, 1);
    HoldersMoved(s.threads, t, LoadNext(n), n);
    ShiftedOk(s, Act(s, t), t, n);
  }

  lemma CasRefsLocal(s: State, t: nat)
    requires t < |s.threads| && Before(s, t) && s.threads[t].CasRefs?
    ensures Local(s, Act(s, t), t, s.threads[t].node) && Quiet(s, Act(s, t), s.threads[t].node)
  {
    var n := s.threads[t].node;
    hide Plus;
    hide Count;
    if s.refs[n] == s.threads[t].refs {
      CountedOk(s, t);
    } else {
      HoldersMoved(s.threads, t, GetHead, n);
    }
  }

  lemma TakeLocal(s: State, t: nat)
    requires t < |s.threads| && Before(s, t) && s.threads[t].CasTake? && PtrOk(s, s.head)
    requires s.head == Some(s.threads[t].node) ==> s.place[s.threads[t].node] == Listed
    ensures Local(s, Act(s, t), t, s.threads[t].node)
  {
    HoldersMoved(s.threads, t, Act(s, t).threads[t], s.threads[t].node);
  }

  lemma CheckLocal(s: State, t: nat)
    requires t < |s.threads| && Before(s, t) && s.threads[t].CheckFlag?
    ensures Local(s, Act(s, t), t, s.threads[t].node) && Quiet(s, Act(s, t), s.threads[t].node)
  {
    var n := s.threads[t].node;
    HoldersMoved(s.threads, t, Act(s, t).threads[t], n);
    HoldersBound(s.threads, n);
  }

  lemma DropTwoLocal(s: State, t: nat)
    requires t < |s.threads| && Before(s, t) && s.threads[t].DropTwo?
    ensures Local(s, Act(s, t), t, s.threads[t].node)
  {
    var n := s.threads[t].node;
    HoldersMoved(s.threads, t, Act(s, t).threads[t], n);
    HoldersBound(s.threads, n);
    HolderCounts(s.threads, t, n);
  }

  lemma ReleasedOk(s: State, t: nat)
    requires t < |s.threads| && Before(s, t) && s.threads[t].DropOne? && s.refs[s.threads[t].node] != FLAG + 1
    ensures NodeOk(Act(s, t), s.threads[t].node)
  {
    var n, d := s.threads[t].node, Act(s, t);
    HoldersBound(s.threads, n);
    HolderCounts(s.threads, t, n);
    hide Plus;
    hide Count;
    PlusExact(s.refs[n], -1);
    HoldersMoved(s.threads, t, d.threads[t], n);
    ShiftedOk(s, d, t, n);
  }

  lemma DropOneLocal(s: State, t: nat)
    requires t < |s.threads| && Before(s, t) && s.threads[t].DropOne?
    ensures Local(s, Act(s, t), t, s.threads[t].node) && Quiet(s, Act(s, t), s.threads[t].node)
  {
    var n := s.threads[t].node;
    HoldersBound(s.threads, n);
    HolderCounts(s.threads, t, n);
    hide Plus;
    hide Count;
    if s.refs[n] == FLAG + 1 {
      PlusExact(FLAG + 1, -1);
      assert s.place[n] == Flagged;
      HoldersMoved(s.threads, t, Act(s, t).threads[t], n);
    } else {
      ReleasedOk(s, t);
    }
  }

  /** A local step that leaves the chain, the log and the assertion in order keeps the invariant. */
  lemma LocalOk(s: State, d: State, t: nat, m: Node)
    requires Inv(s) && t < |s.threads| && Local(s, d, t, m)
    requires ListOk(d) && LogOk(d) && Alternates(d.log) && !d.failed
    ensures Inv(d)
  {
    TouchedOk(s, d, t, m);
  }

  /** A local step that keeps head, list, log and the set of listed and owned nodes. */
  lemma QuietOk(s: State, d: State, t: nat, m: Node)
    requires Inv(s) && t < |s.threads| && Local(s, d, t, m) && Quiet(s, d, m)
    ensures Inv(d)
  {
    SameList(s, d);
    LocalOk(s, d, t, m);
  }

  lemma ReadyBefore(s: State, t: nat)
    requires Inv(s) && t < |s.threads| && NodesKnown(s, t)
    ensures Before(s, t) && PtrOk(s, s.head)
  {
    assert ThreadOk(s, t);
    if s.threads[t] != Idle && s.threads[t] != GetHead {
      assert NodeOk(s, s.threads[t].node);
    }
  }

  lemma PushedChain(head: Ptr, next: seq<Ptr>, list: seq<Node>, n: Node)
    requires Chain(head, next, list) && n !in list && n < |next| && next[n] == head
    ensures Chain(Some(n), next, [n] + list)
  {
  }

  lemma PushedPlace(list: seq<Node>, place: seq<Place>, n: Node)
    requires Lists(list, place) && n < |place|
    ensures Lists([n] + list, place[n := Listed])
  {
    forall m | 0 <= m < |place| && place[n := Listed][m] == Listed ensures m in [n] + list {
      assert m == n || m in list;
    }
  }

  lemma PoppedChain(head: Ptr, next: seq<Ptr>, list: seq<Node>, n: Node)
    requires Chain(head, next, list) && head == Some(n)
    ensures list != [] && n < |next| && Chain(next[n], next, list[1..]) && list == [n] + list[1..] && n !in list[1..]
  {
  }

  lemma PoppedPlace(list: seq<Node>, place: seq<Place>, n: Node, p: Place)
    requires Lists([n] + list, place) && n !in list && p != Listed
    ensures n < |place| && Lists(list, place[n := p])
  {
    var all := [n] + list;
    assert all[0] == n;
    forall i | 0 <= i < |list| ensures list[i] < |place| && place[n := p][list[i]] == Listed {
      assert list[i] == all[i + 1];
    }
    forall m | 0 <= m < |place| && place[n := p][m] == Listed ensures m in list {
      assert m in all;
    }
  }

  lemma InsertOk(s: State, t: nat)
    requires Inv(s) && t < |s.threads| && NodesKnown(s, t) && s.threads[t].CasInsert?
    ensures Inv(Act(s, t))
  {
    var n, d := s.threads[t].node, Act(s, t);
    ReadyBefore(s, t);
    InsertLocal(s, t);
    if s.head == s.threads[t].head {
      PushedChain(s.head, s.next, s.list, n);
      PushedPlace(s.list, s.place, n);
      LocalOk(s, d, t, n);
    } else {
      QuietOk(s, d, t, n);
    }
  }

  lemma TakeOk(s: State, t: nat)
    requires Inv(s) && t < |s.threads| && NodesKnown(s, t) && s.threads[t].CasTake?
    ensures Inv(Act(s, t))
  {
    var n, d := s.threads[t].node, Act(s, t);
    ReadyBefore(s, t);
    TakeLocal(s, t);
    if s.head == Some(n) {
      PoppedChain(s.head, s.next, s.list, n);
      PoppedPlace(s.list[1..], s.place, n, Taken(t));
      LocalOk(s, d, t, n);
    } else {
      QuietOk(s, d, t, n);
    }
  }

  lemma DropTwoOk(s: State, t: nat)
    requires Inv(s) && t < |s.threads| && NodesKnown(s, t) && s.threads[t].DropTwo?
    ensures Inv(Act(s, t))
  {
    var n, d := s.threads[t].node, Act(s, t);
    ReadyBefore(s, t);
    DropTwoLocal(s, t);
    SameList(s, d);
    NewEvent(s, d, Got(n));
    LocalOk(s, d, t, n);
  }

  lemma GetHeadOk(s: State, t: nat)
    requires Inv(s) && t < |s.threads| && s.threads[t].GetHead?
    ensures Inv(Act(s, t))
  {
    assert PtrOk(s, s.head);
    QuietOk(s, Act(s, t), t, |s.place|);
  }

  /** The steps that leave the chain and the log alone. */
  lemma QuietStepOk(s: State, t: nat)
    requires Inv(s) && t < |s.threads| && NodesKnown(s, t)
    requires var pc := s.threads[t];
      !pc.Idle? && !pc.GetHead? && !pc.CasInsert? && !pc.CasTake? && !pc.DropTwo?
    ensures Inv(Act(s, t))
  {
    var n := s.threads[t].node;
    ReadyBefore(s, t);
    hide Act;
    match s.threads[t] {
      case FlagNode(_) => FlagLocal(s, t);
      case Unpublish(_, _, _) => UnpublishLocal(s, t);
      case CasRefs(_, _) => CasRefsLocal(s, t);
      case CheckFlag(_) => CheckLocal(s, t);
      case DropOne(_, _) => DropOneLocal(s, t);
      case LoadRefs(_) => LookLocal(s, t);
      case LoadNext(_) => LookLocal(s, t);
      case _ => HiddenLocal(s, t);
    }
    QuietOk(s, Act(s, t), t, n);
  }

  lemma StartAddOk(s: State, t: nat, n: Node)
    requires Inv(s) && t < |s.threads| && s.threads[t] == Idle && n < |s.place| && InHand(s.log, n)
    ensures Inv(After(s, StartAdd(t, n)))
  {
    var d := After(s, StartAdd(t, n));
    assert NodeOk(s, n);
    HoldersMoved(s.threads, t, d.threads[t], n);
    SameList(s, d);
    NewEvent(s, d, Added(n));
    LocalOk(s, d, t, n);
  }

  lemma StepOk(s: State, step: Step)
    requires Inv(s)
    ensures Inv(After(s, step))
  {
    match step
    case StartAdd(t, n) =>
      if t < |s.threads| && s.threads[t] == Idle && n < |s.place| && InHand(s.log, n) { StartAddOk(s, t, n); }
    case StartGet(t) =>
      if t < |s.threads| && s.threads[t] == Idle { QuietOk(s, After(s, step), t, |s.place|); }
    case Go(t) =>
      if t < |s.threads| && NodesKnown(s, t) {
        match s.threads[t]
        case Idle =>
        case CasInsert(_, _, _) => InsertOk(s, t);
        case CasTake(_, _) => TakeOk(s, t);
        case DropTwo(_) => DropTwoOk(s, t);
        case GetHead => GetHeadOk(s, t);
        case _ => QuietStepOk(s, t);
      }
  }

  lemma {:induction false} InitialHolders(threads: nat, n: Node)
    ensures Holders(seq(threads, _ => Idle), n) == 0
  {
    if threads == 0 {
    } else {
      var all := seq(threads, _ => Idle);
      assert all[..threads - 1] == seq(threads - 1, _ => Idle);
      InitialHolders(threads - 1, n);
    }
  }

  lemma {:induction false} RunOk(nodes: nat, threads: nat, steps: seq<Step>)
    requires threads + 1 < FLAG
    ensures Inv(Run(Initial(nodes, threads), steps))
    decreases |steps|
  {
    if steps == [] {
      var s := Initial(nodes, threads);
      forall n | 0 <= n < nodes ensures NodeOk(s, n) { InitialHolders(threads, n); }
    } else {
      RunOk(nodes, threads, steps[..|steps| - 1]);
      StepOk(Run(Initial(nodes, threads), steps[..|steps| - 1]), steps[|steps| - 1]);
    }
  }

  // ---------------------------------------------------------------- the results

  /** Between two takers of one node lies an add of it. */
  ghost predicate NoDoubleTake(log: seq<Event>) {
    forall n, i, j :: 0 <= i < j < |log| && log[i] == Got(n) && log[j] == Got(n) ==>
      exists k :: i < k < j && log[k] == Added(n)
  }

  lemma {:induction false} InHandUntilAdded(log: seq<Event>, i: nat, n: Node)
    requires i < |log| && log[i] == Got(n) && (forall k :: i < k < |log| ==> log[k] != Added(n))
    ensures InHand(log, n)
    decreases |log|
  {
    if i == |log| - 1 {
    } else {
      InHandUntilAdded(log[..|log| - 1], i, n);
    }
  }

  lemma AlternatingLog(log: seq<Event>)
    requires Alternates(log)
    ensures NoDoubleTake(log)
  {
    forall n, i, j | 0 <= i < j < |log| && log[i] == Got(n) && log[j] == Got(n)
      ensures exists k :: i < k < j && log[k] == Added(n)
    {
      if forall k :: i < k < j ==> log[k] != Added(n) {
        InHandUntilAdded(log[..j], i, n);
      }
    }
  }

  /** In every run no node is handed out twice without an add in between, and the assertion in try_get holds. */
  lemma HandedOutOnce(nodes: nat, threads: nat, steps: seq<Step>)
    requires threads + 1 < FLAG
    ensures var s := Run(Initial(nodes, threads), steps); NoDoubleTake(s.log) && !s.failed
  {
    RunOk(nodes, threads, steps);
    AlternatingLog(Run(Initial(nodes, threads), steps).log);
  }

  /** The nodes that were added and not handed out again. */
  ghost predicate Outstanding(s: State, n: Node) { n < |s.place| && !InHand(s.log, n) }

  /** What a node's word holds besides its temporary holders: the list's own reference, or the flag of a node to be added. */
  function OwnReference(s: State, n: Node): int
    requires n < |s.place|
  {
    match s.place[n]
    case Owned => 0
    case Adding(_) => 0
    case Flagged => FLAG
    case Inserting(t) => if t < |s.threads| && Hidden(s.threads[t]) then FLAG else 1
    case Listed => 1
    case Taken(_) => 1
  }

  predicate CountsExact(s: State) {
    && |s.refs| == |s.place|
    && forall n :: 0 <= n < |s.refs| ==>
        && s.refs[n] == OwnReference(s, n) + Holders(s.threads, n)
        && (n in s.list <==> s.place[n] == Listed) && (InHand(s.log, n) <==> s.place[n] == Owned)
        && (s.place[n] == Flagged ==> Holders(s.threads, n) > 0)
  }

  lemma CountedPlaces(s: State)
    requires Inv(s)
    ensures CountsExact(s)
  {
    forall n | 0 <= n < |s.refs|
      ensures s.refs[n] == OwnReference(s, n) + Holders(s.threads, n) && (n in s.list <==> s.place[n] == Listed)
      ensures s.place[n] == Flagged ==> Holders(s.threads, n) > 0
    {
      assert NodeOk(s, n);
    }
  }

  /**
    In every run the list is a finite chain without repetition, and each word is the list's own reference
    plus the temporary holders; a node waiting to be added always has a holder left to add it.
  */
  lemma ListIsAcyclic(nodes: nat, threads: nat, steps: seq<Step>)
    requires threads + 1 < FLAG
    ensures var s := Run(Initial(nodes, threads), steps); Chain(s.head, s.next, s.list) && CountsExact(s)
  {
    RunOk(nodes, threads, steps);
    CountedPlaces(Run(Initial(nodes, threads), steps));
  }

  lemma {:induction false} NobodyHolds(threads: seq<Pc>, n: Node)
    requires forall t :: 0 <= t < |threads| ==> threads[t] == Idle
    ensures Holders(threads, n) == 0
    decreases |threads|
  {
    if threads == [] {
    } else {
      NobodyHolds(threads[..|threads| - 1], n);
    }
  }

  predicate AllIdle(s: State) { forall t :: 0 <= t < |s.threads| ==> s.threads[t] == Idle }

  ghost predicate AtRest(s: State) {
    && Chain(s.head, s.next, s.list)
    && (forall n :: n in s.list <==> Outstanding(s, n))
    && forall n :: 0 <= n < |s.refs| ==> s.refs[n] == if n in s.list then 1 else 0
  }

  lemma RestingState(s: State)
    requires Inv(s) && AllIdle(s)
    ensures AtRest(s)
  {
    forall n | 0 <= n < |s.refs|
      ensures (n in s.list <==> Outstanding(s, n)) && s.refs[n] == if n in s.list then 1 else 0
    {
      assert NodeOk(s, n);
      NobodyHolds(s.threads, n);
    }
  }

  /**
    No node is lost: whenever no call is in progress, the chain from the head holds exactly the nodes
    that were added and not handed out since, with reference count 1, and all other counts are 0.
  */
  lemma NothingIsLost(nodes: nat, threads: nat, steps: seq<Step>)
    requires threads + 1 < FLAG
    requires AllIdle(Run(Initial(nodes, threads), steps))
    ensures AtRest(Run(Initial(nodes, threads), steps))
  {
    var s := Run(Initial(nodes, threads), steps);
    RunOk(nodes, threads, steps);
    RestingState(s);
  }

  // ---------------------------------------------------------------- when try_get may return nothing

  /** The thread is inside try_get. */
  predicate InGet(pc: Pc) {
    || pc.GetHead? || pc.LoadRefs? || pc.CasRefs? || pc.LoadNext? || pc.CasTake? || pc.CheckFlag? || pc.DropTwo? || pc.DropOne?
    || ((Hidden(pc) || Visible(pc)) && pc.after.GoOn?)
  }

  /** The thread has read a null head and will return nothing once it has let go of its node. */
  predicate ReadNull(pc: Pc) {
    (pc.DropOne? && pc.head.None?) || ((Hidden(pc) || Visible(pc)) && pc.after == GoOn(None))
  }

  /** Step j was an access of thread t at which the head was null and the list empty, in the call it is in or has just left. */
  ghost predicate EmptyAt(s: State, steps: seq<Step>, t: nat, j: nat) {
    && j < |steps| && steps[j] == Go(t)
    && Run(s, steps[..j]).head == None && Run(s, steps[..j]).list == []
    && forall k :: j <= k < |steps| ==> t < |Run(s, steps[..k]).threads| && InGet(Run(s, steps[..k]).threads[t])
  }

  ghost predicate SawEmpty(s: State, steps: seq<Step>, t: nat) {
    exists j :: EmptyAt(s, steps, t, j)
  }

  lemma StillEmptyAt(s: State, steps: seq<Step>, t: nat, j: nat)
    requires steps != [] && EmptyAt(s, steps[..|steps| - 1], t, j)
    requires var pre := Run(s, steps[..|steps| - 1]); t < |pre.threads| && InGet(pre.threads[t])
    ensures EmptyAt(s, steps, t, j)
  {
    var rest := steps[..|steps| - 1];
    assert rest[..j] == steps[..j];
    hide Run, InGet;
    forall k | j <= k < |steps| ensures t < |Run(s, steps[..k]).threads| && InGet(Run(s, steps[..k]).threads[t]) {
      if k < |rest| { assert rest[..k] == steps[..k]; } else { assert steps[..k] == rest; }
    }
  }

  lemma SawEmptyBefore(s: State, steps: seq<Step>, t: nat)
    requires steps != [] && SawEmpty(s, steps[..|steps| - 1], t)
    requires var pre := Run(s, steps[..|steps| - 1]); t < |pre.threads| && InGet(pre.threads[t])
    ensures SawEmpty(s, steps, t)
  {
    hide EmptyAt, Run, InGet;
    var j :| EmptyAt(s, steps[..|steps| - 1], t, j);
    StillEmptyAt(s, steps, t, j);
  }

  lemma SeesEmpty(s: State, steps: seq<Step>, t: nat)
    requires steps != [] && steps[|steps| - 1] == Go(t)
    requires var pre := Run(s, steps[..|steps| - 1]); t < |pre.threads| && InGet(pre.threads[t]) && pre.head == None && pre.list == []
    ensures SawEmpty(s, steps, t)
  {
    assert EmptyAt(s, steps, t, |steps| - 1);
    hide Run, InGet;
  }

  lemma NullRead(s: State, t: nat)
    requires (s.head == None ==> s.list == []) && t < |s.threads| && ReadNull(After(s, Go(t)).threads[t])
    ensures InGet(s.threads[t]) && (ReadNull(s.threads[t]) || (s.head == None && s.list == []))
  {
    hide Plus, Count;
    match s.threads[t]
    case CasTake(_, _) =>
    case DropOne(_, _) =>
    case LoadHead(_, _) =>
    case Unpublish(_, _, _) =>
    case CasInsert(_, _, _) =>
    case _ =>
  }

  /** A call of try_get ends with a node, or after a null head. */
  lemma GetEnds(s: State, t: nat)
    requires (s.head == None ==> s.list == []) && t < |s.threads| && InGet(s.threads[t])
    requires After(s, Go(t)).threads[t] == Idle && After(s, Go(t)).log == s.log
    ensures ReadNull(s.threads[t]) || (s.head == None && s.list == [])
  {
    hide Plus, Count;
    match s.threads[t]
    case GetHead =>
    case DropOne(_, _) =>
    case Unpublish(_, _, _) =>
    case CasInsert(_, _, _) =>
    case _ =>
  }

  lemma {:induction false} NullWasRead(nodes: nat, threads: nat, steps: seq<Step>, t: nat)
    requires threads + 1 < FLAG && t < |Run(Initial(nodes, threads), steps).threads|
    requires ReadNull(Run(Initial(nodes, threads), steps).threads[t])
    ensures SawEmpty(Initial(nodes, threads), steps, t)
    decreases |steps|
  {
    var s0 := Initial(nodes, threads);
    if steps == [] {
    } else {
      var rest, step := steps[..|steps| - 1], steps[|steps| - 1];
      var pre := Run(s0, rest);
      RunOk(nodes, threads, rest);
      ThreadsKept(pre, step);
      if step == Go(t) {
        NullRead(pre, t);
      } else {
        NoOtherMove(pre, step, t);
      }
      if ReadNull(pre.threads[t]) {
        NullWasRead(nodes, threads, rest, t);
        SawEmptyBefore(s0, steps, t);
      } else {
        SeesEmpty(s0, steps, t);
      }
    }
  }

  lemma ThreadsKept(s: State, step: Step)
    ensures |After(s, step).threads| == |s.threads|
  {
  }

  lemma OnlyMoves(s: State, u: nat, t: nat)
    requires u < |s.threads| && NodesKnown(s, u) && t < |s.threads| && t != u
    ensures Act(s, u).threads[t] == s.threads[t]
  {
    hide Plus, Count;
  }

  lemma NoOtherMove(s: State, step: Step, t: nat)
    requires t < |s.threads| && step != Go(t) && ReadNull(After(s, step).threads[t])
    ensures s.threads[t] == After(s, step).threads[t]
  {
    hide Act;
    if step.Go? && step.thread < |s.threads| && NodesKnown(s, step.thread) { OnlyMoves(s, step.thread, t); }
  }

  /** In every run, a try_get that returns nothing read a null head during that call, and the list was empty then. */
  lemma NothingOnlyFromEmpty(nodes: nat, threads: nat, steps: seq<Step>, t: nat)
    requires threads + 1 < FLAG && t < threads
    requires steps != [] && steps[|steps| - 1] == Go(t)
    requires var pre, s := Run(Initial(nodes, threads), steps[..|steps| - 1]), Run(Initial(nodes, threads), steps);
      t < |pre.threads| == |s.threads| && InGet(pre.threads[t]) && s.threads[t] == Idle && s.log == pre.log
    ensures SawEmpty(Initial(nodes, threads), steps, t)
  {
    var rest := steps[..|steps| - 1];
    var pre := Run(Initial(nodes, threads), rest);
    RunOk(nodes, threads, rest);
    assert pre.head == None ==> pre.list == [];
    hide Inv, After, InGet, ReadNull, SawEmpty;
    GetEnds(pre, t);
    if ReadNull(pre.threads[t]) {
      NullWasRead(nodes, threads, rest, t);
      SawEmptyBefore(Initial(nodes, threads), steps, t);
    } else {
      SeesEmpty(Initial(nodes, threads), steps, t);
    }
  }

  // ---------------------------------------------------------------- calls that nobody disturbs

  /** The state after n accesses of thread t. */
  function Alone(s: State, t: nat, n: nat): State
    decreases n
  {
    if n == 0 then s else Alone(After(s, Go(t)), t, n - 1)
  }

  predicate Sound(s: State, t: nat, n: Node) {
    t < |s.threads| && |s.refs| == |s.next| == |s.place| && n < |s.refs|
  }

  /** From reading the head to reading the next pointer under the protection of the count. */
  lemma GetCounts(s: State, t: nat, n: Node)
    requires Sound(s, t, n) && s.threads[t] == GetHead && s.head == Some(n) && s.refs[n] == 1
    ensures Alone(s, t, 7) == Alone(s.(refs := s.refs[n := 2], threads := s.threads[t := CasTake(n, s.next[n])]), t, 3)
  {
    var s1 := Moved(s, t, LoadRefs(n));
    var s2 := Moved(s1, t, CasRefs(n, 1));
    var s3 := Moved(s2.(refs := s2.refs[n := 2]), t, LoadNext(n));
    var s4 := Moved(s3, t, CasTake(n, s.next[n]));
    assert After(s, Go(t)) == s1;
    assert After(s1, Go(t)) == s2;
    assert After(s2, Go(t)) == s3;
    assert After(s3, Go(t)) == s4;
    hide After;
    assert Alone(s, t, 7) == Alone(s4, t, 3);
    assert s4.threads == s.threads[t := CasTake(n, s.next[n])];
  }

  lemma GetSwaps(s: State, t: nat, n: Node, x: Ptr)
    requires Sound(s, t, n) && s.threads[t] == CasTake(n, x) && s.head == Some(n) && s.list != []
    ensures After(s, Go(t)) == Moved(s.(head := x, place := s.place[n := Taken(t)], list := s.list[1..]), t, CheckFlag(n))
  {
  }

  lemma GetLetsGo(s: State, t: nat, n: Node)
    requires Sound(s, t, n) && s.threads[t] == DropTwo(n) && s.refs[n] == 2
    ensures After(s, Go(t)) ==
      Moved(s.(refs := s.refs[n := 0], place := s.place[n := Owned], log := s.log + [Got(n)]), t, Idle)
  {
  }

  /** From the exchange of the head to letting go of the node. */
  lemma GetTakes(s: State, t: nat, n: Node, x: Ptr)
    requires Sound(s, t, n) && s.threads[t] == CasTake(n, x) && s.head == Some(n) && s.refs[n] == 2 && s.list != []
    ensures Alone(s, t, 3) ==
      s.(head := x, list := s.list[1..], refs := s.refs[n := 0], place := s.place[n := Owned], log := s.log + [Got(n)],
         threads := s.threads[t := Idle])
  {
    var s5 := Moved(s.(head := x, place := s.place[n := Taken(t)], list := s.list[1..]), t, CheckFlag(n));
    var s6 := Moved(s5, t, DropTwo(n));
    var s7 := Moved(s6.(refs := s.refs[n := 0], place := s5.place[n := Owned], log := s.log + [Got(n)]), t, Idle);
    GetSwaps(s, t, n, x);
    GetLetsGo(s6, t, n);
    assert After(s5, Go(t)) == s6;
    hide After;
    assert Alone(s, t, 3) == s7;
    assert s7.threads == s.threads[t := Idle] && s7.place == s.place[n := Owned];
  }

  lemma Rests(s: State, d: State, t: nat, pc: Pc)
    requires AllIdle(s) && t < |s.threads| && d.threads == s.threads[t := pc][t := Idle]
    ensures AllIdle(d)
  {
  }

  /** With no other call in progress, try_get on a list with nodes takes the first of them in seven accesses. */
  lemma GetTakesFirst(s: State, t: nat)
    requires Inv(s) && AllIdle(s) && t < |s.threads| && s.list != []
    ensures var d := Alone(After(s, StartGet(t)), t, 7);
      && d.log == s.log + [Got(s.list[0])] && d.list == s.list[1..] && AllIdle(d)
  {
    RestingState(s);
    var n := s.list[0];
    assert s.refs[n] == 1 && s.head == Some(n);
    var s0 := Moved(s, t, GetHead);
    assert After(s, StartGet(t)) == s0;
    hide Inv, AtRest, After, Alone, AllIdle;
    GetCounts(s0, t, n);
    var s4 := s0.(refs := s0.refs[n := 2], threads := s0.threads[t := CasTake(n, s0.next[n])]);
    GetTakes(s4, t, n, s0.next[n]);
    assert s4.threads[t := Idle] == s.threads[t := GetHead][t := Idle];
    Rests(s, Alone(s0, t, 7), t, GetHead);
  }

  lemma AddFlags(s: State, t: nat, n: Node)
    requires Sound(s, t, n) && s.threads[t] == FlagNode(n) && s.refs[n] == 0
    ensures After(s, Go(t)) ==
      Moved(s.(refs := s.refs[n := FLAG], place := s.place[n := Inserting(t)]), t, LoadHead(n, ReturnFromAdd))
  {
  }

  lemma AddHides(s: State, t: nat, n: Node)
    requires Sound(s, t, n) && s.threads[t] == FlagNode(n) && s.refs[n] == 0
    ensures Alone(s, t, 5) ==
      Alone(s.(refs := s.refs[n := FLAG], next := s.next[n := s.head], place := s.place[n := Inserting(t)],
               threads := s.threads[t := StoreRefs(n, s.head, ReturnFromAdd)]), t, 2)
  {
    var s1 := Moved(s.(refs := s.refs[n := FLAG], place := s.place[n := Inserting(t)]), t, LoadHead(n, ReturnFromAdd));
    var s2 := Moved(s1, t, StoreNext(n, s.head, ReturnFromAdd));
    var s3 := Moved(s2.(next := s.next[n := s.head]), t, StoreRefs(n, s.head, ReturnFromAdd));
    AddFlags(s, t, n);
    hide Plus;
    assert After(s1, Go(t)) == s2;
    assert After(s2, Go(t)) == s3;
    hide After;
    assert Alone(s, t, 5) == Alone(s3, t, 2);
    assert s3.threads == s.threads[t := StoreRefs(n, s.head, ReturnFromAdd)];
  }

  lemma AddStores(s: State, t: nat, n: Node)
    requires Sound(s, t, n) && s.threads[t] == StoreRefs(n, s.head, ReturnFromAdd)
    ensures After(s, Go(t)) == Moved(s.(refs := s.refs[n := 1]), t, CasInsert(n, s.head, ReturnFromAdd))
  {
  }

  lemma AddInserts(s: State, t: nat, n: Node)
    requires Sound(s, t, n) && s.threads[t] == CasInsert(n, s.head, ReturnFromAdd)
    ensures After(s, Go(t)) == Moved(s.(head := Some(n), place := s.place[n := Listed], list := [n] + s.list), t, Idle)
  {
  }

  lemma AddShows(s: State, t: nat, n: Node)
    requires Sound(s, t, n) && s.threads[t] == StoreRefs(n, s.head, ReturnFromAdd)
    ensures var d := Alone(s, t, 2);
      d.log == s.log && d.list == [n] + s.list && d.threads == s.threads[t := Idle]
  {
    var s4 := Moved(s.(refs := s.refs[n := 1]), t, CasInsert(n, s.head, ReturnFromAdd));
    var s5 := Moved(s4.(head := Some(n), place := s4.place[n := Listed], list := [n] + s.list), t, Idle);
    AddStores(s, t, n);
    AddInserts(s4, t, n);
    hide After;
    assert Alone(s, t, 2) == s5;
    assert s5.threads == s.threads[t := Idle];
  }

  /** The five accesses of an add of a node that nobody else holds. */
  lemma AddAlone(s: State, t: nat, n: Node)
    requires Sound(s, t, n) && s.threads[t] == FlagNode(n) && s.refs[n] == 0
    ensures var d := Alone(s, t, 5);
      d.log == s.log && d.list == [n] + s.list && d.threads == s.threads[t := Idle]
  {
    hide After, Alone;
    AddHides(s, t, n);
    var s3 := s.(refs := s.refs[n := FLAG], next := s.next[n := s.head], place := s.place[n := Inserting(t)],
                 threads := s.threads[t := StoreRefs(n, s.head, ReturnFromAdd)]);
    AddShows(s3, t, n);
    assert s3.threads[t := Idle] == s.threads[t := Idle];
  }

  /** With no other call in progress, add puts the node at the front of the list in five accesses. */
  lemma AddPutsFirst(s: State, t: nat, n: Node)
    requires Inv(s) && AllIdle(s) && t < |s.threads| && n < |s.place| && InHand(s.log, n)
    ensures var d := Alone(After(s, StartAdd(t, n)), t, 5);
      && d.log == s.log + [Added(n)] && d.list == [n] + s.list && AllIdle(d)
  {
    RestingState(s);
    assert s.refs[n] == 0;
    var s0 := Moved(s.(log := s.log + [Added(n)], place := s.place[n := Adding(t)]), t, FlagNode(n));
    assert After(s, StartAdd(t, n)) == s0;
    hide Inv, AtRest, After, Alone, AllIdle;
    AddAlone(s0, t, n);
    Rests(s, Alone(s0, t, 5), t, FlagNode(n));
  }

  /** The free list is a stack: undisturbed, try_get gives back what was added last. */
  lemma LastInFirstOut(s: State, t: nat, u: nat, n: Node)
    requires Inv(s) && AllIdle(s) && t < |s.threads| && u < |s.threads| && n < |s.place| && InHand(s.log, n)
    ensures var d := Alone(After(Alone(After(s, StartAdd(t, n)), t, 5), StartGet(u)), u, 7);
      d.log == s.log + [Added(n), Got(n)] && d.list == s.list && AllIdle(d)
  {
    hide Alone, After, Inv, AllIdle, InHand;
    var m := Alone(After(s, StartAdd(t, n)), t, 5);
    AddPutsFirst(s, t, n);
    StepOk(s, StartAdd(t, n));
    ThreadsKept(s, StartAdd(t, n));
    AloneOk(After(s, StartAdd(t, n)), t, 5);
    GetTakesFirst(m, u);
  }

  lemma {:induction false} AloneOk(s: State, t: nat, n: nat)
    requires Inv(s)
    ensures Inv(Alone(s, t, n)) && |Alone(s, t, n).threads| == |s.threads|
    decreases n
  {
    hide Inv, After;
    if n == 0 {
    } else {
      StepOk(s, Go(t));
      ThreadsKept(s, Go(t));
      AloneOk(After(s, Go(t)), t, n - 1);
    }
  }
}
