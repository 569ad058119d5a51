/**
  The lightweight semaphore of the vendored ConcurrentQueue and the blocking queue above it: any number of
  threads under sequential consistency, one step per atomic access or kernel call
  (Library/ConcurrentQueue/Include/concurrentqueue/blockingconcurrentqueue.h).
*/
module BlockingQueue {
  import opened Numbers

  const SPINS := 10000

  /** How many permits a caller asks for, whether it waits for the first one, and whether it may time out. */
  datatype Wish = Wish(want: nat, blocks: bool, timed: bool)

  /** Where a thread stands: the access it performs next, with the locals that are still needed. */
  datatype Pc =
    | Idle
    | Insert(count: nat)
    | Signal(count: nat)
    | Release(tokens: nat)  // posted to the kernel semaphore one at a time
    | TryLoad(wish: Wish, got: nat)
    | TryCas(wish: Wish, got: nat, seen: nat)
    | SpinLoad(wish: Wish, spin: nat)
    | SpinCas(wish: Wish, spin: nat, seen: nat)
    | Subtract(wish: Wish)
    | Asleep(wish: Wish)
    | Recheck(wish: Wish)
    | RecheckToken(wish: Wish)
    | RecheckCas(wish: Wish, below: int)
    | Remove(permits: nat)

  /**
    `count` and `tokens` are m_count and the kernel semaphore, `elements` the size of the inner queue.
    The other numbers are history variables: permits signalled and granted, elements added and removed.
  */
  datatype State = State(
    count: int, tokens: nat, elements: nat, threads: seq<Pc>,
    signalled: nat, granted: nat, added: nat, removed: nat)

  /**
    `Go` lets a thread perform its access: `fails` makes a weak compare-exchange fail or a timed wait time
    out, and `taken` is what the inner queue gives a bulk dequeue.
  */
  datatype Step =
    | Enqueue(thread: nat, items: nat)
    | Dequeue(thread: nat, wish: Wish)
    | Go(thread: nat, fails: bool, taken: nat)

  /** What a greedy caller leaves of the permits it sees. */
  function Left(seen: nat, want: nat): (left: nat)
    ensures left <= seen
  {
    if seen > want then seen - want else 0
  }

  function Holding(permits: nat): Pc { if permits == 0 then Idle else Remove(permits) }

  /** tryWaitMany finds no permit: it returns what the call has, or the caller starts to wait. */
  function NoPermit(wish: Wish, got: nat): Pc {
    if got == 0 && wish.blocks then SpinLoad(wish, SPINS) else Holding(got)
  }

  /** A waiting call has its first permit and greedily tries for the others. */
  function FirstPermit(wish: Wish): Pc {
    if wish.want > 1 then TryLoad(Wish(wish.want - 1, false, false), 1) else Remove(1)
  }

  function Moved(s: State, t: nat, pc: Pc): State
    requires t < |s.threads|
  {
    s.(threads := s.threads[t := pc])
  }

  function Act(s: State, t: nat, fails: bool, taken: nat): State
    requires t < |s.threads|
  {
    match s.threads[t]
    case Idle => s
    case Insert(n) => Moved(s.(elements := s.elements + n, added := s.added + n), t, Signal(n))
    case Signal(n) =>
      var toRelease := Min(-s.count, n);
      Moved(s.(count := s.count + n, signalled := s.signalled + n), t,
            if toRelease > 0 then Release(toRelease) else Idle)
    case Release(n) =>
      if n == 0 then Moved(s, t, Idle)
      else Moved(s.(tokens := s.tokens + 1), t, if n == 1 then Idle else Release(n - 1))
    case TryLoad(w, got) => Moved(s, t, if s.count > 0 then TryCas(w, got, s.count) else NoPermit(w, got))
    case TryCas(w, got, seen) =>
      if fails || s.count != seen then Moved(s, t, if s.count > 0 then TryCas(w, got, s.count) else NoPermit(w, got))
      else
        var n := seen - Left(seen, w.want);
        Moved(s.(count := Left(seen, w.want), granted := s.granted + n), t, Holding(got + n))
    case SpinLoad(w, spin) =>
      Moved(s, t, if spin == 0 then Subtract(w)
                  else if s.count > 0 then SpinCas(w, spin - 1, s.count) else SpinLoad(w, spin - 1))
    case SpinCas(w, spin, seen) =>
      if s.count != seen then Moved(s, t, SpinLoad(w, spin))
      else
        var n := seen - Left(seen, w.want);
        Moved(s.(count := Left(seen, w.want), granted := s.granted + n), t, Holding(n))
    case Subtract(w) =>
      if s.count > 0 then Moved(s.(count := s.count - 1, granted := s.granted + 1), t, FirstPermit(w))
      else Moved(s.(count := s.count - 1), t, Asleep(w))
    case Asleep(w) =>
      if w.timed && fails then Moved(s, t, Recheck(w))
      else if s.tokens == 0 then s
      else Moved(s.(tokens := s.tokens - 1, granted := s.granted + 1), t, FirstPermit(w))
    case Recheck(w) => Moved(s, t, if s.count >= 0 then RecheckToken(w) else RecheckCas(w, s.count))
    case RecheckToken(w) =>
      if s.tokens == 0 then Moved(s, t, Recheck(w))
      else Moved(s.(tokens := s.tokens - 1, granted := s.granted + 1), t, FirstPermit(w))
    case RecheckCas(w, below) =>
      if s.count != below then Moved(s, t, Recheck(w)) else Moved(s.(count := s.count + 1), t, Idle)
    case Remove(n) =>
      if taken <= n && taken <= s.elements
      then Moved(s.(elements := s.elements - taken, removed := s.removed + taken), t, Holding(n - taken)) else s
  }

  /** A step that is not possible leaves the state as it is. */
  function After(s: State, step: Step): State {
    if step.thread >= |s.threads| then s
    else match step
      case Enqueue(t, n) => if s.threads[t] == Idle then Moved(s, t, Insert(n)) else s
      case Dequeue(t, w) => if s.threads[t] == Idle && w.want > 0 then Moved(s, t, TryLoad(w, 0)) else s
      case Go(t, fails, taken) => Act(s, t, fails, taken)
  }

  function Run(s: State, steps: seq<Step>): State {
    if steps == [] then s else After(Run(s, steps[..|steps| - 1]), steps[|steps| - 1])
  }

  /** A semaphore that starts with `initial` permits over a queue of as many elements; 0 for the blocking queue. */
  function Initial(initial: nat, threads: nat): State {
    State(initial, 0, initial, seq(threads, _ => Idle), 0, 0, 0, 0)
  }

  // ---------------------------------------------------------------- the invariant

  datatype Tally = Waiters | Owed | Held | Unsignalled

  /** What one thread adds to a tally: it waits, owes kernel tokens, holds permits, or has yet to signal. */
  function Share(pc: Pc, tally: Tally): nat {
    match tally
    case Waiters => if pc.Asleep? || pc.Recheck? || pc.RecheckToken? || pc.RecheckCas? then 1 else 0
    case Owed => if pc.Release? then pc.tokens else 0
    case Held => if pc.TryLoad? || pc.TryCas? then pc.got else if pc.Remove? then pc.permits else 0
    case Unsignalled => if pc.Signal? then pc.count else 0
  }

  function Sum(threads: seq<Pc>, tally: Tally): nat {
    if threads == [] then 0 else Sum(threads[..|threads| - 1], tally) + Share(threads[|threads| - 1], tally)
  }

  predicate ThreadOk(pc: Pc) {
    match pc
    case TryCas(w, _, seen) => seen > 0 && w.want > 0
    case TryLoad(w, _) => w.want > 0
    case SpinLoad(w, _) => w.want > 0
    case SpinCas(w, _, seen) => seen > 0 && w.want > 0
    case Subtract(w) => w.want > 0
    case Recheck(w) => w.timed
    case RecheckToken(w) => w.timed
    case RecheckCas(w, below) => below < 0 && w.timed
    case _ => true
  }

  predicate ThreadsOk(s: State) { forall t :: 0 <= t < |s.threads| ==> ThreadOk(s.threads[t]) }

  /** Every waiter is owed by the count, by a kernel token or by a release; permits are conserved. */
  predicate PermitsOk(s: State, initial: nat) {
    && Sum(s.threads, Waiters) == Max(0, -s.count) + s.tokens + Sum(s.threads, Owed)
    && s.count + Sum(s.threads, Waiters) + s.granted == initial + s.signalled
  }

  predicate ElementsOk(s: State, initial: nat) {
    && s.granted == Sum(s.threads, Held) + s.removed
    && s.added == s.signalled + Sum(s.threads, Unsignalled)
    && s.elements + s.removed == initial + s.added
  }

  predicate Inv(s: State, initial: nat) { ThreadsOk(s) && PermitsOk(s, initial) && ElementsOk(s, initial) }

  lemma {:induction false} SumMoved(threads: seq<Pc>, t: nat, pc: Pc, tally: Tally)
    requires t < |threads|
    ensures Sum(threads[t := pc], tally) == Sum(threads, tally) - Share(threads[t], tally) + Share(pc, tally)
    decreases |threads|
  {
    var m := threads[t := pc];
    if t == |threads| - 1 {
      assert m[..|m| - 1] == threads[..|threads| - 1];
    } else {
      assert m[..|m| - 1] == threads[..|threads| - 1][t := pc];
      SumMoved(threads[..|threads| - 1], t, pc, tally);
    }
  }

  lemma {:induction false} ShareCounts(threads: seq<Pc>, t: nat, tally: Tally)
    requires t < |threads|
    ensures Share(threads[t], tally) <= Sum(threads, tally)
    decreases |threads|
  {
    if t == |threads| - 1 {
    } else {
      ShareCounts(threads[..|threads| - 1], t, tally);
    }
  }

  lemma {:induction false} NothingShared(threads: seq<Pc>, tally: Tally)
    requires forall t :: 0 <= t < |threads| ==> threads[t] == Idle
    ensures Sum(threads, tally) == 0
    decreases |threads|
  {
    if threads == [] {
    } else {
      NothingShared(threads[..|threads| - 1], tally);
    }
  }

  lemma ActThreads(s: State, t: nat, fails: bool, taken: nat)
    requires ThreadsOk(s) && t < |s.threads|
    ensures ThreadsOk(Act(s, t, fails, taken))
    ensures Act(s, t, fails, taken).threads == s.threads[t := Act(s, t, fails, taken).threads[t]]
  {
    assert ThreadOk(s.threads[t]);
  }

  /** One thread's move from s to d, in which it goes from pc to after, conserves permits. */
  predicate PermitsMove(s: State, d: State, pc: Pc, after: Pc) {
    && Share(after, Waiters) - Share(pc, Waiters) ==
       Max(0, -d.count) - Max(0, -s.count) + d.tokens - s.tokens + Share(after, Owed) - Share(pc, Owed)
    && d.count - s.count + Share(after, Waiters) - Share(pc, Waiters) + d.granted - s.granted == d.signalled - s.signalled
  }

  predicate ElementsMove(s: State, d: State, pc: Pc, after: Pc) {
    && d.granted - s.granted == Share(after, Held) - Share(pc, Held) + d.removed - s.removed
    && d.added - s.added == d.signalled - s.signalled + Share(after, Unsignalled) - Share(pc, Unsignalled)
    && d.elements - s.elements + d.removed - s.removed == d.added - s.added
  }

  predicate Conserves(s: State, d: State, t: nat) {
    t < |s.threads| == |d.threads| &&
    PermitsMove(s, d, s.threads[t], d.threads[t]) && ElementsMove(s, d, s.threads[t], d.threads[t])
  }

  lemma TryMoves(s: State, t: nat, fails: bool, taken: nat)
    requires t < |s.threads| && ThreadOk(s.threads[t]) && (s.threads[t].TryLoad? || s.threads[t].TryCas?)
    ensures Conserves(s, Act(s, t, fails, taken), t)
  {
  }

  lemma SpinMoves(s: State, t: nat, fails: bool, taken: nat)
    requires t < |s.threads| && ThreadOk(s.threads[t])
    requires s.threads[t].SpinLoad? || s.threads[t].SpinCas? || s.threads[t].Subtract?
    ensures Conserves(s, Act(s, t, fails, taken), t)
  {
  }

  lemma WaitMoves(s: State, t: nat, fails: bool, taken: nat)
    requires t < |s.threads| && ThreadOk(s.threads[t]) && Share(s.threads[t], Waiters) == 1
    ensures Conserves(s, Act(s, t, fails, taken), t)
  {
  }

  lemma QueueMoves(s: State, t: nat, fails: bool, taken: nat)
    requires t < |s.threads| && ThreadOk(s.threads[t])
    requires s.threads[t].Idle? || s.threads[t].Insert? || s.threads[t].Signal? || s.threads[t].Release? || s.threads[t].Remove?
    ensures Conserves(s, Act(s, t, fails, taken), t)
  {
  }

  lemma ActOk(s: State, t: nat, fails: bool, taken: nat, initial: nat)
    requires Inv(s, initial) && t < |s.threads|
    ensures Inv(Act(s, t, fails, taken), initial)
  {
    var pc := Act(s, t, fails, taken).threads[t];
    ActThreads(s, t, fails, taken);
    assert Conserves(s, Act(s, t, fails, taken), t) by {
      hide Act;
      assert ThreadOk(s.threads[t]);
      match s.threads[t]
      case Idle => QueueMoves(s, t, fails, taken);
      case TryLoad(_, _) => TryMoves(s, t, fails, taken);
      case TryCas(_, _, _) => TryMoves(s, t, fails, taken);
      case SpinLoad(_, _) => SpinMoves(s, t, fails, taken);
      case SpinCas(_, _, _) => SpinMoves(s, t, fails, taken);
      case Subtract(_) => SpinMoves(s, t, fails, taken);
      case _ => if Share(s.threads[t], Waiters) == 1 { WaitMoves(s, t, fails, taken); } else { QueueMoves(s, t, fails, taken); }
    }
    hide Act;
    SumMoved(s.threads, t, pc, Waiters);
    SumMoved(s.threads, t, pc, Owed);
    SumMoved(s.threads, t, pc, Held);
    SumMoved(s.threads, t, pc, Unsignalled);
  }

  lemma StartOk(s: State, t: nat, pc: Pc, initial: nat)
    requires Inv(s, initial) && t < |s.threads| && s.threads[t] == Idle
    requires ThreadOk(pc) && forall tally :: Share(pc, tally) == 0
    ensures Inv(Moved(s, t, pc), initial)
  {
    SumMoved(s.threads, t, pc, Waiters);
    SumMoved(s.threads, t, pc, Owed);
    SumMoved(s.threads, t, pc, Held);
    SumMoved(s.threads, t, pc, Unsignalled);
  }

  lemma StepOk(s: State, step: Step, initial: nat)
    requires Inv(s, initial)
    ensures Inv(After(s, step), initial)
  {
    if step.thread < |s.threads| {
      match step
      case Enqueue(t, n) => if s.threads[t] == Idle { StartOk(s, t, Insert(n), initial); }
      case Dequeue(t, w) => if s.threads[t] == Idle && w.want > 0 { StartOk(s, t, TryLoad(w, 0), initial); }
      case Go(t, fails, taken) =>
        ActOk(s, t, fails, taken, initial);
    }
  }

  lemma {:induction false} RunOk(initial: nat, threads: nat, steps: seq<Step>)
    ensures Inv(Run(Initial(initial, threads), steps), initial)
    decreases |steps|
  {
    if steps == [] {
      forall tally: Tally ensures Sum(Initial(initial, threads).threads, tally) == 0 {
        NothingShared(Initial(initial, threads).threads, tally);
      }
    } else {
      RunOk(initial, threads, steps[..|steps| - 1]);
      StepOk(Run(Initial(initial, threads), steps[..|steps| - 1]), steps[|steps| - 1], initial);
    }
  }

  // ---------------------------------------------------------------- the results

  /** Permits granted never exceed permits there were; who waits has a token, an owed token or a negative count against it. */
  predicate PermitsConserved(s: State, initial: nat) {
    && s.count + Sum(s.threads, Waiters) + s.granted == initial + s.signalled
    && Sum(s.threads, Waiters) == Max(0, -s.count) + s.tokens + Sum(s.threads, Owed)
    && s.granted <= initial + s.signalled
  }

  /** No permit is granted twice, in every run and after any timeouts. */
  lemma NoPermitTwice(initial: nat, threads: nat, steps: seq<Step>)
    ensures PermitsConserved(Run(Initial(initial, threads), steps), initial)
  {
    RunOk(initial, threads, steps);
  }

  /** As many kernel tokens as waiters exist, or are about to be released, as soon as the count is not negative. */
  predicate WaitersServed(s: State) {
    s.count >= 0 ==> s.tokens + Sum(s.threads, Owed) == Sum(s.threads, Waiters)
  }

  predicate NoneOwes(s: State) { forall t :: 0 <= t < |s.threads| ==> !s.threads[t].Release? }

  lemma {:induction false} NothingOwed(threads: seq<Pc>)
    requires forall t :: 0 <= t < |threads| ==> !threads[t].Release?
    ensures Sum(threads, Owed) == 0
    decreases |threads|
  {
    if threads == [] {
    } else {
      NothingOwed(threads[..|threads| - 1]);
    }
  }

  /**
    No waiter is lost: with permits left and no release in progress, the kernel semaphore holds a token
    for every waiting thread, so each of them can go on.
  */
  lemma NoWaiterLost(initial: nat, threads: nat, steps: seq<Step>)
    ensures var s := Run(Initial(initial, threads), steps);
      WaitersServed(s) && (s.count >= 0 && NoneOwes(s) ==> s.tokens == Sum(s.threads, Waiters))
  {
    RunOk(initial, threads, steps);
    var s := Run(Initial(initial, threads), steps);
    if NoneOwes(s) { NothingOwed(s.threads); }
  }

  /** There is an element for every permit that any thread holds, all at once. */
  predicate Reserved(s: State) {
    && Sum(s.threads, Held) <= s.elements
    && forall t :: 0 <= t < |s.threads| && s.threads[t].Remove? ==> s.threads[t].permits <= s.elements
  }

  /** A thread that was granted permits never loops on an empty queue. */
  lemma ElementsReserved(initial: nat, threads: nat, steps: seq<Step>)
    ensures Reserved(Run(Initial(initial, threads), steps))
  {
    RunOk(initial, threads, steps);
    var s := Run(Initial(initial, threads), steps);
    forall t | 0 <= t < |s.threads| && s.threads[t].Remove? ensures s.threads[t].permits <= s.elements {
      ShareCounts(s.threads, t, Held);
    }
  }

  predicate AllIdle(s: State) { forall t :: 0 <= t < |s.threads| ==> s.threads[t] == Idle }

  /** Between calls the semaphore counts the elements of the queue. */
  lemma AtRest(initial: nat, threads: nat, steps: seq<Step>)
    requires AllIdle(Run(Initial(initial, threads), steps))
    ensures var s := Run(Initial(initial, threads), steps); s.count == s.elements && s.tokens == 0
  {
    RunOk(initial, threads, steps);
    var s := Run(Initial(initial, threads), steps);
    forall tally: Tally ensures Sum(s.threads, tally) == 0 { NothingShared(s.threads, tally); }
    assert Sum(s.threads, Waiters) == Sum(s.threads, Held) == Sum(s.threads, Owed) == Sum(s.threads, Unsignalled) == 0;
  }

  // ---------------------------------------------------------------- when a call returns empty-handed, and when it does not

  /** A dequeue that has no permit yet. */
  predicate Seeks(pc: Pc) {
    || ((pc.TryLoad? || pc.TryCas?) && pc.got == 0)
    || pc.SpinLoad? || pc.SpinCas? || pc.Subtract? || pc.Asleep? || pc.Recheck? || pc.RecheckToken? || pc.RecheckCas?
  }

  /** The thread waited for a time that has passed, and takes itself off the count while that still has it as a waiter. */
  predicate GivesUp(s: State, pc: Pc) { pc.RecheckCas? && pc.wish.timed && s.count == pc.below < 0 }

  /** The thread does not wait at all, and there is no permit now. */
  predicate FindsNone(s: State, pc: Pc) { (pc.TryLoad? || pc.TryCas?) && !pc.wish.blocks && s.count <= 0 }

  /** In every run, a dequeue ends without a permit only if there is none at its last access or its time is up. */
  lemma NothingOnlyWithCause(initial: nat, threads: nat, steps: seq<Step>, t: nat, fails: bool, taken: nat)
    requires var s := Run(Initial(initial, threads), steps);
      && t < |s.threads| == |Act(s, t, fails, taken).threads|
      && Seeks(s.threads[t]) && Act(s, t, fails, taken).threads[t] == Idle
    ensures var s := Run(Initial(initial, threads), steps); FindsNone(s, s.threads[t]) || GivesUp(s, s.threads[t])
  {
    RunOk(initial, threads, steps);
    var s := Run(Initial(initial, threads), steps);
    assert ThreadOk(s.threads[t]);
    hide Run, PermitsOk, ElementsOk;
  }

  /** With permits left and no release in progress, every thread asleep can go on with a permit. */
  lemma WaiterGoesOn(initial: nat, threads: nat, steps: seq<Step>, t: nat, taken: nat)
    requires var s := Run(Initial(initial, threads), steps);
      t < |s.threads| && s.threads[t].Asleep? && s.count >= 0 && NoneOwes(s)
    ensures var s := Run(Initial(initial, threads), steps);
      var d := Act(s, t, false, taken);
      && d.tokens == s.tokens - 1 && d.granted == s.granted + 1 && d.threads == s.threads[t := d.threads[t]]
      && Share(d.threads[t], Held) == 1
  {
    var s := Run(Initial(initial, threads), steps);
    RunOk(initial, threads, steps);
    NoWaiterLost(initial, threads, steps);
    ShareCounts(s.threads, t, Waiters);
    hide Run, Sum;
  }

  /** A thread whose time is up leaves in two accesses that nobody disturbs, and is no longer counted. */
  lemma TimeoutEnds(s: State, t: nat)
    requires t < |s.threads| && s.threads[t].Recheck? && s.count < 0
    ensures Act(Act(s, t, false, 0), t, false, 0) == s.(count := s.count + 1, threads := s.threads[t := Idle])
  {
    var s1 := Moved(s, t, RecheckCas(s.threads[t].wish, s.count));
    assert Act(s, t, false, 0) == s1;
    assert s1.threads[t := Idle] == s.threads[t := Idle];
  }

  lemma RestingCount(s: State, initial: nat)
    requires Inv(s, initial) && AllIdle(s)
    ensures s.count == s.elements
  {
    forall tally: Tally ensures Sum(s.threads, tally) == 0 { NothingShared(s.threads, tally); }
    assert Sum(s.threads, Waiters) == Sum(s.threads, Held) == Sum(s.threads, Owed) == Sum(s.threads, Unsignalled) == 0;
  }

  /** With no other call in progress, an enqueue adds its elements and as many permits. */
  lemma EnqueueAdds(s: State, initial: nat, t: nat, items: nat)
    requires Inv(s, initial) && AllIdle(s) && t < |s.threads|
    ensures var d := Act(Act(After(s, Enqueue(t, items)), t, false, 0), t, false, 0);
      d.elements == s.elements + items && d.count == s.count + items && AllIdle(d)
  {
    RestingCount(s, initial);
    hide Inv;
    var s1 := Moved(s, t, Insert(items));
    var s2 := Moved(s1.(elements := s.elements + items, added := s.added + items), t, Signal(items));
    assert After(s, Enqueue(t, items)) == s1;
    assert Act(s1, t, false, 0) == s2;
    assert Act(s2, t, false, 0).threads == s.threads;
  }

  /** With no other call in progress, a dequeue from a queue with elements takes as many as are there, up to what it wants. */
  lemma DequeueTakes(s: State, initial: nat, t: nat, wish: Wish)
    requires Inv(s, initial) && AllIdle(s) && t < |s.threads| && wish.want > 0 && s.elements > 0
    ensures var n := if wish.want <= s.elements then wish.want else s.elements;
      var d := Act(Act(Act(After(s, Dequeue(t, wish)), t, false, 0), t, false, 0), t, false, n);
      d.elements == s.elements - n && d.count == s.count - n && d.removed == s.removed + n && AllIdle(d)
  {
    RestingCount(s, initial);
    hide Inv;
    var n := if wish.want <= s.elements then wish.want else s.elements;
    var s1 := Moved(s, t, TryLoad(wish, 0));
    var s2 := Moved(s1, t, TryCas(wish, 0, s.count));
    var s3 := Moved(s2.(count := s.count - n, granted := s.granted + n), t, Remove(n));
    assert After(s, Dequeue(t, wish)) == s1;
    assert Act(s1, t, false, 0) == s2;
    assert Act(s2, t, false, 0) == s3;
    assert Act(s3, t, false, n).threads == s.threads;
  }
}
