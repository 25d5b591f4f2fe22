/** The two queue classes (src/hub/queue.hpp) as one thread uses them, and the retrying push into
    either (src/hub/queue_push.hpp). */
module Queues {
  import opened Bytes
  import Spsc

  /** The ring as an object. Its two ends may belong to different threads: `Spsc` shows that the
      interleaved calls behave as these atomic ones do. */
  class SpscQueue<T(0, !new)> {
    const size: nat
    const slots: array<T>
    var head: nat
    var tail: nat

    ghost predicate Valid()
      reads this, slots
    {
      Spsc.InRange(Ring())
    }

    ghost function Ring(): Spsc.Ring<T>
      reads this, slots
    {
      Spsc.Ring(size, slots[..], head, tail)
    }

    ghost function Contents(): seq<T>
      reads this, slots
      requires Valid()
    {
      Spsc.Contents(Ring(), Spsc.CIdle)
    }

    lemma Bounded()
      requires Valid()
      ensures |Contents()| <= size - 1
    {
    }

    constructor (capacity: nat)
      ensures Valid() && fresh(slots) && size == capacity + 1 && Contents() == []
    {
      size := capacity + 1;
      slots := new T[capacity + 1];
      head, tail := 0, 0;
    }

    method Push(value: T) returns (ok: bool)
      requires Valid()
      modifies this`tail, slots
      ensures Valid()
      ensures ok == (old(|Contents()|) < size - 1)
      ensures Contents() == if ok then old(Contents()) + [value] else old(Contents())
    {
      var next := Spsc.Next(tail, size);
      Spsc.FullIff(head, tail, size);
      if next == head {
        return false;
      }
      ghost var before := Ring();
      Spsc.WriteKeeps(before, Spsc.CIdle, value);
      Spsc.StoreTailAppends(before.(slots := before.slots[tail := value]), Spsc.CIdle);
      slots[tail] := value;
      assert Ring() == before.(slots := before.slots[tail := value]);
      tail := next;
      ok := true;
    }

    method Pop() returns (r: Option<T>)
      requires Valid()
      modifies this`head
      ensures Valid()
      ensures r == if old(Contents()) == [] then None else Some(old(Contents()[0]))
      ensures Contents() == if r == None then old(Contents()) else old(Contents()[1..])
    {
      if head == tail {
        return None;
      }
      ghost var before := Ring();
      r := Some(slots[head]);
      Spsc.StoreHeadRemoves(before, slots[head]);
      assert Spsc.Contents(before, Spsc.CTook(head, slots[head])) == Spsc.Contents(before, Spsc.CIdle);
      head := Spsc.Next(head, size);
    }

    /** Exact when no other thread is at work. */
    method SizeApprox() returns (n: nat)
      requires Valid()
      ensures n == |Contents()|
    {
      n := if tail >= head then tail - head else size - head + tail;
    }
  }

  /** The mutex-guarded queue: each call is one atomic step. */
  class MpscQueue<T> {
    const capacity: nat
    var queue: seq<T>
    /** The values this thread has pushed so far; others may be between them in the queue. */
    ghost var pushed: seq<T>

    constructor (capacity: nat)
      ensures this.capacity == capacity && queue == [] && pushed == []
    {
      this.capacity := capacity;
      queue, pushed := [], [];
    }

    method Push(value: T) returns (ok: bool)
      modifies this
      ensures ok == (old(|queue|) < capacity)
      ensures queue == if ok then old(queue) + [value] else old(queue)
      ensures pushed == if ok then old(pushed) + [value] else old(pushed)
    {
      if |queue| >= capacity {
        return false;
      }
      queue, pushed := queue + [value], pushed + [value];
      ok := true;
    }

    method Pop() returns (r: Option<T>)
      modifies this`queue
      ensures r == if old(queue) == [] then None else Some(old(queue[0]))
      ensures queue == if r == None then old(queue) else old(queue[1..])
    {
      if queue == [] {
        return None;
      }
      r := Some(queue[0]);
      queue := queue[1..];
    }
  }

  /** What other threads leave in the queue before each attempt, `others(i)` before attempt i:
      the first attempt of the first `n` that finds room. */
  function Admitted<T>(others: nat -> seq<T>, capacity: nat, n: nat): (k: Option<nat>)
    ensures k.Some? ==> k.value < n && |others(k.value)| < capacity
    ensures k.Some? ==> forall i :: 0 <= i < k.value ==> |others(i)| >= capacity
    ensures k.None? ==> forall i :: 0 <= i < n ==> |others(i)| >= capacity
  {
    if n == 0 then None
    else
      var earlier := Admitted(others, capacity, n - 1);
      if earlier.Some? then earlier
      else if |others(n - 1)| < capacity then Some(n - 1)
      else None
  }

  /** `maxRetries` attempts and one more. Every attempt moves the value into the call, so the
      attempts after the first push what the move left behind. Other threads may do anything to
      the queue between attempts. */
  method PushWithBackoff<T>(q: MpscQueue<T>, value: T, movedFrom: T -> T, others: nat -> seq<T>, maxRetries: nat)
    returns (ok: bool)
    requires movedFrom(movedFrom(value)) == movedFrom(value)
    modifies q
    ensures ok <==> Admitted(others, q.capacity, maxRetries + 1).Some?
    ensures ok ==> var k := Admitted(others, q.capacity, maxRetries + 1).value;
                   var arrived := if k == 0 then value else movedFrom(value);
                   q.queue == others(k) + [arrived] && q.pushed == old(q.pushed) + [arrived]
    ensures !ok ==> q.queue == others(maxRetries) && q.pushed == old(q.pushed)
  {
    var held := value;
    for i := 0 to maxRetries
      invariant held == (if i == 0 then value else movedFrom(value))
      invariant Admitted(others, q.capacity, i) == None && q.pushed == old(q.pushed)
    {
      q.queue := others(i);
      ok := q.Push(held);
      if ok {
        AdmittedAt(others, q.capacity, i, maxRetries + 1);
        return;
      }
      held := movedFrom(held);
    }
    q.queue := others(maxRetries);
    ok := q.Push(held);
  }

  lemma {:induction false} AdmittedAt<T>(others: nat -> seq<T>, capacity: nat, k: nat, n: nat)
    requires k < n && |others(k)| < capacity && Admitted(others, capacity, k) == None
    ensures Admitted(others, capacity, n) == Some(k)
  {
    if n > k + 1 {
      AdmittedAt(others, capacity, k, n - 1);
    }
  }

  /** The value arrives whole exactly when the first attempt finds room. If that attempt fails
      the call may still succeed, with only the moved-from remains in the queue. */
  lemma WholeIffFirstAttempt<T>(others: nat -> seq<T>, capacity: nat, value: T, movedFrom: T -> T, maxRetries: nat)
    requires movedFrom(value) != value
    ensures var k := Admitted(others, capacity, maxRetries + 1);
            k.Some? && (if k.value == 0 then value else movedFrom(value)) == value <==> |others(0)| < capacity
  {
    if |others(0)| < capacity {
      AdmittedAt(others, capacity, 0, maxRetries + 1);
    }
  }

  /** A queue of one place that is taken at the first attempt and free at the second: the push
      succeeds, and what it enqueues is the emptied value. */
  lemma EmptiedByRetry(bytes: seq<Byte>)
    requires bytes != []
    ensures var others := (i: nat) => if i == 0 then [bytes] else [];
            var movedFrom := (v: seq<Byte>) => [];
            && Admitted(others, 1, 2) == Some(1)
            && others(1) + [movedFrom(bytes)] != others(1) + [bytes]
  {
    var others := (i: nat) => if i == 0 then [bytes] else [];
    AdmittedAt(others, 1, 1, 2);
    assert ([] + [[]])[0] != ([] + [bytes])[0];
  }

  // ---------- retrying into a ring that its consumer empties meanwhile ----------

  function DropFirst<T>(s: seq<T>, n: nat): seq<T> {
    if n < |s| then s[n..] else []
  }

  /** What is left of the queued values when the consumer takes up to `pops(i)` of them before attempt i. */
  function AfterPops<T>(s: seq<T>, pops: nat -> nat, n: nat): seq<T> {
    if n == 0 then s else DropFirst(AfterPops(s, pops, n - 1), pops(n - 1))
  }

  /** All that the consumer is ready to take before the first `n` attempts. */
  function TotalPops(pops: nat -> nat, n: nat): nat {
    if n == 0 then 0 else TotalPops(pops, n - 1) + pops(n - 1)
  }

  /** The consumer takes values from the front, in order, and never more than there are. */
  lemma {:induction false} AfterPopsIs<T>(s: seq<T>, pops: nat -> nat, n: nat)
    ensures var taken := TotalPops(pops, n);
            AfterPops(s, pops, n) == if taken < |s| then s[taken..] else []
  {
    if n > 0 {
      AfterPopsIs(s, pops, n - 1);
    }
  }

  /** The first `n` attempts all found `size` values in the ring. */
  ghost predicate FullUntil<T>(s: seq<T>, pops: nat -> nat, n: nat, size: nat) {
    forall i :: 1 <= i <= n ==> |AfterPops(s, pops, i)| == size
  }

  lemma FullSnoc<T>(s: seq<T>, pops: nat -> nat, n: nat, size: nat)
    requires FullUntil(s, pops, n, size) && |AfterPops(s, pops, n + 1)| == size
    ensures FullUntil(s, pops, n + 1, size)
  {
    hide AfterPops;
  }

  /** The other end of the ring at work. */
  method TakeSome<T(0, !new)>(q: SpscQueue<T>, n: nat)
    requires q.Valid()
    modifies q`head
    ensures q.Valid() && q.Contents() == DropFirst(old(q.Contents()), n)
  {
    hide SpscQueue.Valid, SpscQueue.Contents;
    ghost var all := q.Contents();
    for i := 0 to n
      invariant q.Valid() && q.Contents() == DropFirst(all, i)
    {
      var _ := q.Pop();
    }
  }

  /** One attempt, after the consumer took up to `n` values. */
  method Attempt<T(0, !new)>(q: SpscQueue<T>, value: T, n: nat) returns (ok: bool)
    requires q.Valid()
    modifies q`head, q`tail, q.slots
    ensures q.Valid()
    ensures var left := DropFirst(old(q.Contents()), n);
            && |left| <= q.size - 1 && ok == (|left| < q.size - 1)
            && q.Contents() == if ok then left + [value] else left
  {
    hide SpscQueue.Valid, SpscQueue.Contents;
    TakeSome(q, n);
    q.Bounded();
    ok := q.Push(value);
  }

  /** The retrying push into a ring. Attempt `k` is the first that finds room; all earlier ones
      found the ring full; a push that fails found it full every time. */
  method PushIntoRing<T(0, !new)>(q: SpscQueue<T>, value: T, movedFrom: T -> T, pops: nat -> nat, maxRetries: nat)
    returns (ok: bool, k: nat)
    requires q.Valid() && movedFrom(movedFrom(value)) == movedFrom(value)
    modifies q`head, q`tail, q.slots
    ensures q.Valid() && k <= maxRetries
    ensures FullUntil(old(q.Contents()), pops, k, q.size - 1)
    ensures var left := AfterPops(old(q.Contents()), pops, k + 1);
            && ok == (|left| < q.size - 1)
            && q.Contents() == (if ok then left + [if k == 0 then value else movedFrom(value)] else left)
            && (!ok ==> k == maxRetries)
  {
    hide SpscQueue.Valid, SpscQueue.Contents, FullUntil, DropFirst;
    q.Bounded();
    ghost var all := q.Contents();
    var held := value;
    k := 0;
    assert FullUntil(all, pops, 0, q.size - 1) by { NoneFull(all, pops, q.size - 1); }
    while true
      invariant q.Valid() && k <= maxRetries && held == (if k == 0 then value else movedFrom(value))
      invariant q.Contents() == AfterPops(all, pops, k) && FullUntil(all, pops, k, q.size - 1)
      decreases maxRetries - k
    {
      ok := Attempt(q, held, pops(k));
      if ok || k == maxRetries {
        return;
      }
      FullSnoc(all, pops, k, q.size - 1);
      held := movedFrom(held);
      k := k + 1;
    }
  }

  lemma NoneFull<T>(s: seq<T>, pops: nat -> nat, size: nat)
    ensures FullUntil(s, pops, 0, size)
  {
  }
}
