/** The attempts of a reactor to hand one message to a worker, taken together: a run of the step
    system's receive pushes, with other threads at work on the queue in between. */
module HubHandOver {
  import opened Bytes
  import opened HubModel
  import opened Queues

  /** The flow when other threads have left `q` in the queue reactor `r` is pushing to. */
  ghost function WithQueue(c: Config, f: Flow, r: nat, q: seq<Inbound>): Flow
    requires ValidConfig(c) && CanRecvPush(c, f.src, f.link, r)
  {
    f.(link := f.link.(recvQ := f.link.recvQ[PickWorker(c, f.src.reactors[r].pc.msg.sid) := q]))
  }

  /** One attempt: an `ARecvPush` action of the step system. */
  ghost function AttemptStep(c: Config, dir: Dir, f: Flow, r: nat, q: seq<Inbound>): Flow
    requires ValidConfig(c) && CanRecvPush(c, f.src, f.link, r)
  {
    LinkStep(c, dir, WithQueue(c, f, r, q), ARecvPush(r))
  }

  /** The attempts from the i-th on, until one succeeds or the last has failed. */
  ghost function PushRun(c: Config, dir: Dir, f: Flow, r: nat, inbox: nat -> seq<Inbound>, i: nat): Flow
    requires ValidConfig(c) && CanRecvPush(c, f.src, f.link, r) && f.src.reactors[r].pc.attempt == i <= MAX_RETRIES
    decreases MAX_RETRIES - i
  {
    var g := AttemptStep(c, dir, f, r, inbox(i));
    if g.src.reactors[r].pc.Pushing? then PushRun(c, dir, g, r, inbox, i + 1) else g
  }

  lemma AttemptIs(c: Config, dir: Dir, f: Flow, r: nat, q: seq<Inbound>)
    requires ValidConfig(c) && CanRecvPush(c, f.src, f.link, r) && f.src.reactors[r].pc.attempt <= MAX_RETRIES
    ensures var pc, g := f.src.reactors[r].pc, AttemptStep(c, dir, f, r, q);
            var w := PickWorker(c, pc.msg.sid);
            && g.dst == f.dst
            && if |q| < c.capacity
               then && g.src == SetPc(f.src, r, Idle)
                    && g.link == f.link.(recvQ := f.link.recvQ[w := q + [InboundAfterRetries(pc.msg, pc.attempt)]])
               else && (pc.attempt < MAX_RETRIES ==> g.src == SetPc(f.src, r, Pushing(pc.msg, pc.attempt + 1)))
                    && (pc.attempt == MAX_RETRIES ==> g.src == SetPc(f.src, r, Idle))
                    && g.link == f.link.(recvQ := f.link.recvQ[w := q])
  {
    hide PickWorker, InboundAfterRetries;
  }

  /** The whole run leaves the plane idle, and the worker's queue as the first attempt that found
      room left it: with the message, emptied unless that was the first attempt of all. */
  lemma {:induction false} PushRunIs(c: Config, dir: Dir, f: Flow, r: nat, inbox: nat -> seq<Inbound>, i: nat)
    requires ValidConfig(c) && CanRecvPush(c, f.src, f.link, r) && f.src.reactors[r].pc.attempt == i <= MAX_RETRIES
    requires Admitted(inbox, c.capacity, i) == None
    ensures var m, g := f.src.reactors[r].pc.msg, PushRun(c, dir, f, r, inbox, i);
            && g.src == SetPc(f.src, r, Idle) && g.dst == f.dst
            && g.link == f.link.(recvQ := f.link.recvQ[PickWorker(c, m.sid) := QueueAfter(c, inbox, m)])
    decreases MAX_RETRIES - i
  {
    hide AttemptStep, InboundAfterRetries, PickWorker, Admitted;
    var g := AttemptStep(c, dir, f, r, inbox(i));
    AttemptIs(c, dir, f, r, inbox(i));
    if |inbox(i)| < c.capacity {
      AdmittedAt(inbox, c.capacity, i, MAX_RETRIES + 1);
    } else {
      AdmittedNext(inbox, c.capacity, i);
      if i < MAX_RETRIES {
        PushRunIs(c, dir, g, r, inbox, i + 1);
        assert SetPc(g.src, r, Idle) == SetPc(f.src, r, Idle);
      }
    }
  }

  lemma AdmittedNext(inbox: nat -> seq<Inbound>, capacity: nat, i: nat)
    requires Admitted(inbox, capacity, i) == None && |inbox(i)| >= capacity
    ensures Admitted(inbox, capacity, i + 1) == None
  {
  }

  /** What the attempts leave in the worker's queue. */
  ghost function QueueAfter(c: Config, inbox: nat -> seq<Inbound>, m: Inbound): seq<Inbound> {
    match Admitted(inbox, c.capacity, MAX_RETRIES + 1)
    case None => inbox(MAX_RETRIES)
    case Some(k) => inbox(k) + [InboundAfterRetries(m, k)]
  }

  lemma NoneAdmitted(inbox: nat -> seq<Inbound>, capacity: nat)
    ensures Admitted(inbox, capacity, 0) == None
  {
  }

  /** With room at the first attempt the message is queued whole. Without, it is queued emptied by
      the first attempt that finds room, or not at all. */
  ghost predicate WholeIffRoom(c: Config, dir: Dir, f: Flow, r: nat, inbox: nat -> seq<Inbound>)
    requires ValidConfig(c) && CanRecvPush(c, f.src, f.link, r) && f.src.reactors[r].pc.attempt == 0
  {
    var m := f.src.reactors[r].pc.msg;
    var now := f.link.recvQ[PickWorker(c, m.sid)];
    var g := PushRun(c, dir, f, r, inbox, 0);
    inbox(0) == now ==>
      && PickWorker(c, m.sid) < |g.link.recvQ|
      && var later := g.link.recvQ[PickWorker(c, m.sid)];
      && (|now| < c.capacity ==> later == now + [m])
      && (|now| >= c.capacity ==>
            && !m.retried
            && match Admitted(inbox, c.capacity, MAX_RETRIES + 1)
               case None => later == inbox(MAX_RETRIES)
               case Some(k) => later == inbox(k) + [m.(payload := [], retried := true)])
  }

  lemma PushRunWhole(c: Config, dir: Dir, f: Flow, r: nat, inbox: nat -> seq<Inbound>)
    requires ValidConfig(c) && CanRecvPush(c, f.src, f.link, r) && f.src.reactors[r].pc.attempt == 0
    requires !f.src.reactors[r].pc.msg.retried
    ensures WholeIffRoom(c, dir, f, r, inbox)
  {
    hide PushRun, PickWorker, Admitted;
    NoneAdmitted(inbox, c.capacity);
    PushRunIs(c, dir, f, r, inbox, 0);
    if |inbox(0)| < c.capacity {
      AdmittedAt(inbox, c.capacity, 0, MAX_RETRIES + 1);
    }
  }
}
