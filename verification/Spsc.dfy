/** The lock-free single-producer single-consumer ring (src/hub/queue.hpp), with every
    atomic load, slot access and index store a step of its own. Every interleaving of
    one producer and one consumer is a bounded FIFO. The acquire/release pairs on the two
    indexes are what lets the steps be taken as sequentially consistent. */
module Spsc {
  import opened Bytes

  /** One slot more than the requested capacity. */
  datatype Ring<T> = Ring(size: nat, slots: seq<T>, head: nat, tail: nat)

  /** Where the producer is in `Push`, with the registers it has loaded. */
  datatype Producer<T> =
    | PIdle
    | PStart(value: T)
    | PLoadedTail(value: T, t: nat)
    | PHasRoom(value: T, t: nat)
    | PWrote(value: T, t: nat)

  /** Where the consumer is in `Pop`. */
  datatype Consumer<T> =
    | CIdle
    | CStart
    | CLoadedHead(h: nat)
    | CNonEmpty(h: nat)
    | CTook(h: nat, value: T)

  /** What a completed call returned; `queue` is the FIFO at that moment. */
  datatype Event<T> =
    | PushOk(value: T)
    | PushFull(seen: seq<T>)
    | PopOk(value: T)
    | PopEmpty(seen: seq<T>)

  datatype State<T> = State(ring: Ring<T>, p: Producer<T>, k: Consumer<T>, events: seq<Event<T>>)

  datatype Action<T> =
    | BeginPush(value: T) | LoadTail | TestFull | WriteSlot | StoreTail
    | BeginPop | LoadHead | TestEmpty | TakeSlot(junk: T) | StoreHead

  function Next(i: nat, size: nat): nat
    requires size > 0
  {
    (i + 1) % size
  }

  /** The number of occupied slots, as `SizeApprox` computes it. */
  function Length(head: nat, tail: nat, size: nat): nat
    requires head < size && tail < size
  {
    if tail >= head then tail - head else size - head + tail
  }

  /** The slot of the k-th occupied element. */
  function Slot(head: nat, k: nat, size: nat): nat
    requires head < size && k < size
    ensures Slot(head, k, size) < size
  {
    if head + k < size then head + k else head + k - size
  }

  predicate InRange<T>(r: Ring<T>) {
    r.size > 0 && |r.slots| == r.size && r.head < r.size && r.tail < r.size
  }

  /** The FIFO the ring stands for. A value the consumer has moved out still counts
      until the head index is stored. */
  function Contents<T>(r: Ring<T>, k: Consumer<T>): (q: seq<T>)
    requires InRange(r)
    ensures |q| == Length(r.head, r.tail, r.size) < r.size
  {
    seq(Length(r.head, r.tail, r.size), i requires 0 <= i < Length(r.head, r.tail, r.size) =>
      if i == 0 && k.CTook? then k.value else r.slots[Slot(r.head, i, r.size)])
  }

  // ---------- the two threads ----------

  predicate Enabled<T(!new)>(s: State<T>, a: Action<T>) {
    && InRange(s.ring)
    && match a
       case BeginPush(_) => s.p.PIdle?
       case LoadTail => s.p.PStart?
       case TestFull => s.p.PLoadedTail?
       case WriteSlot => s.p.PHasRoom? && s.p.t < s.ring.size
       case StoreTail => s.p.PWrote?
       case BeginPop => s.k.CIdle?
       case LoadHead => s.k.CStart?
       case TestEmpty => s.k.CLoadedHead?
       case TakeSlot(_) => s.k.CNonEmpty? && s.k.h < s.ring.size
       case StoreHead => s.k.CTook?
  }

  /** The moved-from slot holds junk afterwards. */
  function Step<T(!new)>(s: State<T>, a: Action<T>): State<T>
    requires Enabled(s, a)
  {
    var r := s.ring;
    match a
    case BeginPush(v) => s.(p := PStart(v))
    case LoadTail => s.(p := PLoadedTail(s.p.value, r.tail))
    case TestFull =>
      if Next(s.p.t, r.size) == r.head
      then s.(p := PIdle, events := s.events + [PushFull(Contents(r, s.k))])
      else s.(p := PHasRoom(s.p.value, s.p.t))
    case WriteSlot => s.(ring := r.(slots := r.slots[s.p.t := s.p.value]), p := PWrote(s.p.value, s.p.t))
    case StoreTail => s.(ring := r.(tail := Next(s.p.t, r.size)), p := PIdle, events := s.events + [PushOk(s.p.value)])
    case BeginPop => s.(k := CStart)
    case LoadHead => s.(k := CLoadedHead(r.head))
    case TestEmpty =>
      if s.k.h == r.tail
      then s.(k := CIdle, events := s.events + [PopEmpty(Contents(r, s.k))])
      else s.(k := CNonEmpty(s.k.h))
    case TakeSlot(junk) => s.(ring := r.(slots := r.slots[s.k.h := junk]), k := CTook(s.k.h, r.slots[s.k.h]))
    case StoreHead => s.(ring := r.(head := Next(s.k.h, r.size)), k := CIdle, events := s.events + [PopOk(s.k.value)])
  }

  ghost predicate Init<T(!new)>(s: State<T>, capacity: nat) {
    && s.ring.size == capacity + 1 && |s.ring.slots| == capacity + 1
    && s.ring.head == 0 && s.ring.tail == 0 && s.p.PIdle? && s.k.CIdle? && s.events == []
  }

  /** The state after the given actions, if each was enabled in its turn. */
  function Run<T(!new)>(s: State<T>, actions: seq<Action<T>>): Option<State<T>> {
    if actions == [] then Some(s)
    else
      match Run(s, actions[..|actions| - 1])
      case None => None
      case Some(t) => if Enabled(t, actions[|actions| - 1]) then Some(Step(t, actions[|actions| - 1])) else None
  }

  // ---------- the atomic bounded FIFO ----------

  /** The queue after the events, if each is what an atomic FIFO of that capacity would
      answer: a push succeeds unless full, a pop takes the oldest unless empty. */
  function Fifo<T(==)>(events: seq<Event<T>>, capacity: nat): Option<seq<T>> {
    if events == [] then Some([])
    else
      match Fifo(events[..|events| - 1], capacity)
      case None => None
      case Some(q) =>
        match events[|events| - 1]
        case PushOk(v) => if |q| < capacity then Some(q + [v]) else None
        case PushFull(seen) => if |q| == capacity && seen == q then Some(q) else None
        case PopOk(v) => if q != [] && q[0] == v then Some(q[1..]) else None
        case PopEmpty(seen) => if q == [] && seen == q then Some(q) else None
  }

  // ---------- invariant ----------

  ghost predicate ProducerOk<T(!new)>(r: Ring<T>, p: Producer<T>)
    requires InRange(r)
  {
    match p
    case PIdle => true
    case PStart(_) => true
    case PLoadedTail(_, t) => t == r.tail
    case PHasRoom(_, t) => t == r.tail && Next(r.tail, r.size) != r.head
    case PWrote(v, t) => t == r.tail && Next(r.tail, r.size) != r.head && r.slots[r.tail] == v
  }

  ghost predicate ConsumerOk<T(!new)>(r: Ring<T>, k: Consumer<T>)
    requires InRange(r)
  {
    match k
    case CIdle => true
    case CStart => true
    case CLoadedHead(h) => h == r.head
    case CNonEmpty(h) => h == r.head && r.head != r.tail
    case CTook(h, _) => h == r.head && r.head != r.tail
  }

  ghost predicate Inv<T(!new)>(s: State<T>, capacity: nat) {
    && InRange(s.ring) && s.ring.size == capacity + 1
    && ProducerOk(s.ring, s.p) && ConsumerOk(s.ring, s.k)
    && Fifo(s.events, capacity) == Some(Contents(s.ring, s.k))
  }

  lemma NextIs(i: nat, size: nat)
    requires i < size
    ensures Next(i, size) == if i + 1 == size then 0 else i + 1
  {
    if i + 1 < size {
      assert (i + 1) % size == i + 1;
    }
  }

  lemma FullIff(head: nat, tail: nat, size: nat)
    requires head < size && tail < size
    ensures Next(tail, size) == head <==> Length(head, tail, size) == size - 1
  {
    NextIs(tail, size);
  }

  /** Writing the slot at the tail touches no occupied slot. */
  lemma WriteKeeps<T(!new)>(r: Ring<T>, k: Consumer<T>, v: T)
    requires InRange(r)
    ensures Contents(r.(slots := r.slots[r.tail := v]), k) == Contents(r, k)
  {
  }

  lemma StoreTailAppends<T(!new)>(r: Ring<T>, k: Consumer<T>)
    requires InRange(r) && Next(r.tail, r.size) != r.head && ConsumerOk(r, k)
    ensures InRange(r.(tail := Next(r.tail, r.size)))
    ensures Contents(r.(tail := Next(r.tail, r.size)), k) == Contents(r, k) + [r.slots[r.tail]]
  {
    NextIs(r.tail, r.size);
    FullIff(r.head, r.tail, r.size);
  }

  lemma TakeKeeps<T(!new)>(r: Ring<T>, junk: T, k: Consumer<T>)
    requires InRange(r) && r.head != r.tail && !k.CTook?
    ensures Contents(r.(slots := r.slots[r.head := junk]), CTook(r.head, r.slots[r.head])) == Contents(r, k)
  {
  }

  lemma StoreHeadRemoves<T(!new)>(r: Ring<T>, v: T)
    requires InRange(r) && r.head != r.tail
    ensures InRange(r.(head := Next(r.head, r.size)))
    ensures Contents(r, CTook(r.head, v))[0] == v
    ensures Contents(r.(head := Next(r.head, r.size)), CIdle) == Contents(r, CTook(r.head, v))[1..]
  {
    NextIs(r.head, r.size);
  }

  /** Only whether a value has been taken out matters for the contents. */
  lemma SameContents<T(!new)>(r: Ring<T>, k: Consumer<T>, k': Consumer<T>)
    requires InRange(r) && !k.CTook? && !k'.CTook?
    ensures Contents(r, k) == Contents(r, k')
  {
  }

  lemma Extend<T>(events: seq<Event<T>>, e: Event<T>)
    ensures (events + [e])[..|events|] == events && (events + [e])[|events|] == e
  {
  }

  lemma ProducerStep<T(!new)>(s: State<T>, a: Action<T>, capacity: nat)
    requires Inv(s, capacity) && Enabled(s, a)
             && (a.BeginPush? || a.LoadTail? || a.TestFull? || a.WriteSlot? || a.StoreTail?)
    ensures Inv(Step(s, a), capacity)
  {
    var r := s.ring;
    match a
    case BeginPush(_) =>
    case LoadTail =>
    case TestFull =>
      FullIff(r.head, r.tail, r.size);
      Extend(s.events, PushFull(Contents(r, s.k)));
    case WriteSlot => WriteKeeps(r, s.k, s.p.value);
    case StoreTail =>
      NextIs(r.tail, r.size);
      FullIff(r.head, r.tail, r.size);
      StoreTailAppends(r, s.k);
      Extend(s.events, PushOk(s.p.value));
  }

  lemma TakeStep<T(!new)>(s: State<T>, junk: T, capacity: nat)
    requires Inv(s, capacity) && Enabled(s, TakeSlot(junk))
    ensures Inv(Step(s, TakeSlot(junk)), capacity)
  {
    TakeKeeps(s.ring, junk, s.k);
    hide Contents, Fifo;
  }

  lemma StoreHeadStep<T(!new)>(s: State<T>, capacity: nat)
    requires Inv(s, capacity) && Enabled(s, StoreHead)
    ensures Inv(Step(s, StoreHead), capacity)
  {
    var r := s.ring;
    NextIs(r.head, r.size);
    NextIs(r.tail, r.size);
    StoreHeadRemoves(r, s.k.value);
    Extend(s.events, PopOk(s.k.value));
    hide Contents, Next;
  }

  lemma ConsumerStep<T(!new)>(s: State<T>, a: Action<T>, capacity: nat)
    requires Inv(s, capacity) && Enabled(s, a)
             && !(a.BeginPush? || a.LoadTail? || a.TestFull? || a.WriteSlot? || a.StoreTail?)
    ensures Inv(Step(s, a), capacity)
  {
    if a.TakeSlot? {
      TakeStep(s, a.junk, capacity);
    } else if a.StoreHead? {
      StoreHeadStep(s, capacity);
    } else {
      SameContents(s.ring, s.k, Step(s, a).k);
      Extend(s.events, PopEmpty(Contents(s.ring, s.k)));
      hide Contents, Next;
    }
  }

  // ---------- every run ----------

  /** Whatever the interleaving, the answers given so far are those of an atomic bounded FIFO,
      whose contents are the occupied slots: values come out in the order they went in, each
      once; a push fails only when the queue is full at the moment the head is read, a pop
      only when it is empty; and the length never exceeds the requested capacity. */
  lemma {:induction false} RefinesFifo<T(!new)>(init: State<T>, capacity: nat, actions: seq<Action<T>>)
    requires Init(init, capacity)
    ensures Run(init, actions).Some? ==> Inv(Run(init, actions).value, capacity)
    ensures Run(init, actions).Some? ==>
              |Contents(Run(init, actions).value.ring, Run(init, actions).value.k)| <= capacity
  {
    hide Step, Enabled;
    if actions == [] {
      assert Contents(init.ring, init.k) == [];
    } else if Run(init, actions).Some? {
      var front, a := actions[..|actions| - 1], actions[|actions| - 1];
      RefinesFifo(init, capacity, front);
      var s := Run(init, front).value;
      hide Inv;
      if a.BeginPush? || a.LoadTail? || a.TestFull? || a.WriteSlot? || a.StoreTail? {
        ProducerStep(s, a, capacity);
      } else {
        ConsumerStep(s, a, capacity);
      }
      InvLength(Run(init, actions).value, capacity);
    }
  }

  lemma InvLength<T(!new)>(s: State<T>, capacity: nat)
    requires Inv(s, capacity)
    ensures InRange(s.ring) && |Contents(s.ring, s.k)| <= capacity
  {
  }

  /** The two threads never touch the same slot: whenever the producer is about to write and the
      consumer is about to move a value out, the slots differ; and what the producer wrote stays. */
  lemma NoSharedSlot<T(!new)>(init: State<T>, capacity: nat, actions: seq<Action<T>>)
    requires Init(init, capacity) && Run(init, actions).Some?
    ensures var s := Run(init, actions).value;
            && ((s.p.PHasRoom? || s.p.PWrote?) && (s.k.CNonEmpty? || s.k.CTook?) ==> s.p.t != s.k.h)
            && (s.p.PWrote? ==> s.p.t < |s.ring.slots| && s.ring.slots[s.p.t] == s.p.value)
  {
    RefinesFifo(init, capacity, actions);
  }

  /** A stale index is only conservative: a producer that found room still has room when it
      stores, and a consumer that found a value still has one. */
  lemma StaleReadsSafe<T(!new)>(init: State<T>, capacity: nat, actions: seq<Action<T>>)
    requires Init(init, capacity) && Run(init, actions).Some?
    ensures var s := Run(init, actions).value;
            && InRange(s.ring)
            && (s.p.PHasRoom? || s.p.PWrote? ==> |Contents(s.ring, s.k)| < capacity)
            && (s.k.CNonEmpty? || s.k.CTook? ==> Contents(s.ring, s.k) != [])
  {
    RefinesFifo(init, capacity, actions);
    var s := Run(init, actions).value;
    FullIff(s.ring.head, s.ring.tail, s.ring.size);
  }

  /** The values of the successful pushes, and of the successful pops. */
  function Pushes<T>(events: seq<Event<T>>): seq<T> {
    if events == [] then []
    else Pushes(events[..|events| - 1]) + (match events[|events| - 1] case PushOk(v) => [v] case _ => [])
  }

  function Pops<T>(events: seq<Event<T>>): seq<T> {
    if events == [] then []
    else Pops(events[..|events| - 1]) + (match events[|events| - 1] case PopOk(v) => [v] case _ => [])
  }

  lemma {:induction false} FifoConserves<T>(events: seq<Event<T>>, capacity: nat)
    requires Fifo(events, capacity).Some?
    ensures Pushes(events) == Pops(events) + Fifo(events, capacity).value
  {
    if events != [] {
      var front := events[..|events| - 1];
      FifoConserves(front, capacity);
      var q := Fifo(front, capacity).value;
      if events[|events| - 1].PopOk? {
        assert q == [q[0]] + q[1..];
      }
    }
  }

  /** Everything pushed has been popped, in the same order, or is still in the ring. */
  lemma ExactlyOnceInOrder<T(!new)>(init: State<T>, capacity: nat, actions: seq<Action<T>>)
    requires Init(init, capacity) && Run(init, actions).Some?
    ensures var s := Run(init, actions).value;
            InRange(s.ring) && Pushes(s.events) == Pops(s.events) + Contents(s.ring, s.k)
  {
    RefinesFifo(init, capacity, actions);
    FifoConserves(Run(init, actions).value.events, capacity);
  }

  lemma TestsDecide<T(!new)>(s: State<T>, capacity: nat)
    requires Inv(s, capacity)
    ensures var q := Contents(s.ring, s.k);
            && (s.p.PLoadedTail? ==>
                  Step(s, TestFull) == if |q| < capacity then s.(p := PHasRoom(s.p.value, s.p.t))
                                       else s.(p := PIdle, events := s.events + [PushFull(q)]))
            && (s.k.CLoadedHead? ==>
                  Step(s, TestEmpty) == if q != [] then s.(k := CNonEmpty(s.k.h))
                                        else s.(k := CIdle, events := s.events + [PopEmpty(q)]))
  {
    FullIff(s.ring.head, s.ring.tail, s.ring.size);
    hide Next, Fifo;
  }

  lemma StoreTailCompletes<T(!new)>(s: State<T>, capacity: nat)
    requires Inv(s, capacity) && s.p.PWrote?
    ensures var t := Step(s, StoreTail);
            && t.p == PIdle && t.k == s.k && t.events == s.events + [PushOk(s.p.value)]
            && InRange(t.ring) && Contents(t.ring, t.k) == Contents(s.ring, s.k) + [s.p.value]
  {
    StoreTailAppends(s.ring, s.k);
    hide Contents, Next, Fifo;
  }

  lemma StoreHeadCompletes<T(!new)>(s: State<T>, capacity: nat)
    requires Inv(s, capacity) && s.k.CTook?
    ensures var t := Step(s, StoreHead);
            && t.k == CIdle && t.p == s.p && t.events == s.events + [PopOk(s.k.value)]
            && InRange(t.ring) && [s.k.value] + Contents(t.ring, t.k) == Contents(s.ring, s.k)
  {
    StoreHeadRemoves(s.ring, s.k.value);
    hide Contents, Next, Fifo;
    var q := Contents(s.ring, s.k);
    assert q == [q[0]] + q[1..];
  }

  /** What decides a call, in every reachable state. The test for room lets the push go on exactly
      when the queue is not full, and the store of the tail appends the pushed value. The test for
      a value lets the pop go on exactly when the queue is not empty, and the store of the head
      removes the oldest value, which is the one returned. */
  lemma CallsDecided<T(!new)>(init: State<T>, capacity: nat, actions: seq<Action<T>>)
    requires Init(init, capacity) && Run(init, actions).Some?
    ensures InRange(Run(init, actions).value.ring)
    ensures var s := Run(init, actions).value;
            var q := Contents(s.ring, s.k);
            && (s.p.PLoadedTail? ==>
                  Step(s, TestFull) == if |q| < capacity then s.(p := PHasRoom(s.p.value, s.p.t))
                                       else s.(p := PIdle, events := s.events + [PushFull(q)]))
            && (s.k.CLoadedHead? ==>
                  Step(s, TestEmpty) == if q != [] then s.(k := CNonEmpty(s.k.h))
                                        else s.(k := CIdle, events := s.events + [PopEmpty(q)]))
            && (s.p.PWrote? ==>
                  var t := Step(s, StoreTail);
                  && t.p == PIdle && t.k == s.k && t.events == s.events + [PushOk(s.p.value)]
                  && InRange(t.ring) && Contents(t.ring, t.k) == q + [s.p.value])
            && (s.k.CTook? ==>
                  var t := Step(s, StoreHead);
                  && t.k == CIdle && t.p == s.p && t.events == s.events + [PopOk(s.k.value)]
                  && InRange(t.ring) && [s.k.value] + Contents(t.ring, t.k) == q)
  {
    RefinesFifo(init, capacity, actions);
    hide Run, Step, Contents, Fifo, ProducerOk, ConsumerOk;
    var s := Run(init, actions).value;
    TestsDecide(s, capacity);
    if s.p.PWrote? {
      StoreTailCompletes(s, capacity);
    }
    if s.k.CTook? {
      StoreHeadCompletes(s, capacity);
    }
  }
}
