/** Publishing to subscribers and sending to one node (src/hub/context_impl.cpp), the handlers
    that bridge the planes (src/hub/bridge.cpp), and the hand-over from the distribution queue to a
    send queue (src/hub/distributor.cpp). */
module Publishing {
  import opened Bytes
  import ImHeader
  import opened Routing
  import RouterObject
  import opened Wire
  import opened HubModel
  import opened HubMeaning
  import opened Queues

  /** What is left of a frame after its bytes were moved out. */
  function Remains(x: Outbound): Outbound {
    AfterRetries(x, 1)
  }

  /** The frames actually enqueued for the first `n` recipients, if none of them failed:
      recipient j gets the frame of the attempt that found room. `others(j)` is what other
      threads leave in the queue while recipient j is being served. */
  ghost predicate Enqueued(m: Inbound, published: bool, ts: seq<Target>, others: nat -> nat -> seq<Outbound>,
                           capacity: nat, pushed: seq<Outbound>)
  {
    && |pushed| <= |ts|
    && forall j :: 0 <= j < |pushed| ==>
         && Admitted(others(j), capacity, MAX_RETRIES + 1).Some?
         && pushed[j] == MakeFrame(m, published, ts[j], Admitted(others(j), capacity, MAX_RETRIES + 1).value)
  }

  /** The queue as the attempt that found room leaves it. */
  ghost predicate Arrived(others: nat -> seq<Outbound>, capacity: nat, queue: seq<Outbound>, x: Outbound) {
    var k := Admitted(others, capacity, MAX_RETRIES + 1);
    k.Some? && queue == others(k.value) + [x]
  }

  /** The frame that arrives for a recipient of the message: the message under the recipient's
      node id if the first attempt found room, and no bytes if a later one did. */
  ghost predicate FrameFor(x: Outbound, m: Inbound, sid: nat, reactor: int, nid: U32, others: nat -> seq<Outbound>,
                           capacity: nat)
  {
    && x.sid == sid && x.reactor == reactor
    && var k := Admitted(others, capacity, 1000001);
    && k.Some? && x.bytes == if k.value == 0 then EncodeFrame(m.typ, nid, 1, m.payload) else []
  }

  lemma MadeFrameFor(m: Inbound, published: bool, t: Target, others: nat -> seq<Outbound>, capacity: nat)
    requires Admitted(others, capacity, 1000001).Some?
    ensures var k := Admitted(others, capacity, 1000001);
            FrameFor(MakeFrame(m, published, t, k.value), m, t.sid, t.reactor, t.nid, others, capacity)
  {
    hide EncodeFrame, Admitted;
  }

  lemma EnqueuedFor(m: Inbound, published: bool, ts: seq<Target>, others: nat -> nat -> seq<Outbound>, capacity: nat,
                    pushed: seq<Outbound>)
    requires Enqueued(m, published, ts, others, capacity, pushed)
    ensures forall j :: 0 <= j < |pushed| ==>
              FrameFor(pushed[j], m, ts[j].sid, ts[j].reactor, ts[j].nid, others(j), capacity)
  {
    hide MakeFrame, FrameFor, Admitted;
    forall j | 0 <= j < |pushed|
      ensures FrameFor(pushed[j], m, ts[j].sid, ts[j].reactor, ts[j].nid, others(j), capacity)
    {
      MadeFrameFor(m, published, ts[j], others(j), capacity);
    }
  }

  lemma RemainsIs(m: Inbound, published: bool, t: Target, k: nat)
    ensures MakeFrame(m, published, t, k)
            == if k == 0 then MakeFrame(m, published, t, 0) else Remains(MakeFrame(m, published, t, 0))
    ensures Remains(Remains(MakeFrame(m, published, t, 0))) == Remains(MakeFrame(m, published, t, 0))
  {
  }

  /** Encodes the message for one recipient and pushes it. */
  method PushFrame(q: MpscQueue<Outbound>, m: Inbound, published: bool, t: Target, others: nat -> seq<Outbound>)
    returns (x: Option<Outbound>)
    modifies q
    ensures match Admitted(others, q.capacity, MAX_RETRIES + 1)
            case None => x == None && q.pushed == old(q.pushed) && q.queue == others(MAX_RETRIES)
            case Some(k) =>
              x == Some(MakeFrame(m, published, t, k)) && q.pushed == old(q.pushed) + [x.value]
              && Arrived(others, q.capacity, q.queue, x.value)
  {
    hide MakeFrame, Admitted;
    RemainsIs(m, published, t, 1);
    var ok := PushWithBackoff(q, MakeFrame(m, published, t, 0), Remains, others, MAX_RETRIES);
    if !ok {
      return None;
    }
    RemainsIs(m, published, t, Admitted(others, q.capacity, MAX_RETRIES + 1).value);
    x := Some(q.queue[|q.queue| - 1]);
  }

  /** Relative to the one snapshot of the subscribers it takes: Ok means one frame per subscriber
      was enqueued, in subscription order; QueueFull that exactly the subscribers before the
      first one that found no room were served; NotFound that there were none. */
  method Publish(router: RouterObject.Router, q: MpscQueue<Outbound>, m: Inbound, others: nat -> nat -> seq<Outbound>)
    returns (st: Status, pushed: seq<Outbound>)
    modifies q
    ensures var ts := Targets(FindSubscribers(router.State(), m.typ));
            && Enqueued(m, true, ts, others, q.capacity, pushed)
            && (st == NotFound <==> ts == [])
            && (st == Ok ==> |pushed| == |ts| > 0)
            && (st == QueueFull ==> |pushed| < |ts| && Admitted(others(|pushed|), q.capacity, MAX_RETRIES + 1) == None)
    ensures var list := if m.typ in router.subTable then router.subTable[m.typ] else [];
            && |pushed| <= |list|
            && (st == NotFound <==> list == []) && (st == Ok <==> |pushed| == |list| > 0)
            && (st == QueueFull <==> |pushed| < |list|)
            && forall j :: 0 <= j < |pushed| ==>
                 FrameFor(pushed[j], m, list[j].sid, list[j].reactor, list[j].nid, others(j), q.capacity)
    ensures q.pushed == old(q.pushed) + pushed
    ensures st == NotFound ==> q.queue == old(q.queue)
    ensures st == Ok ==> Arrived(others(|pushed| - 1), q.capacity, q.queue, pushed[|pushed| - 1])
    ensures st == QueueFull ==> q.queue == others(|pushed|)(MAX_RETRIES)
  {
    hide MakeFrame, Admitted, Arrived, FrameFor;
    var subs := if m.typ in router.subTable then router.subTable[m.typ] else [];
    pushed := [];
    if subs == [] {
      return NotFound, pushed;
    }
    var ts := Targets(subs);
    var j := 0;
    while j < |ts|
      invariant 0 <= j == |pushed| <= |ts|
      invariant Enqueued(m, true, ts, others, q.capacity, pushed)
      invariant q.pushed == old(q.pushed) + pushed
      invariant j > 0 ==> Arrived(others(j - 1), q.capacity, q.queue, pushed[j - 1])
    {
      var x := PushFrame(q, m, true, ts[j], others(j));
      if x == None {
        EnqueuedFor(m, true, ts, others, q.capacity, pushed);
        return QueueFull, pushed;
      }
      pushed := pushed + [x.value];
      j := j + 1;
    }
    EnqueuedFor(m, true, ts, others, q.capacity, pushed);
    st := Ok;
  }

  /** Sends to the session the node id routes to at the moment of the lookup. */
  method AsyncSend(router: RouterObject.Router, q: MpscQueue<Outbound>, m: Inbound, dest: U32,
                   others: nat -> seq<Outbound>)
    returns (st: Status)
    modifies q
    ensures var route := FindNidRoute(router.State(), dest);
            && (st == NotFound <==> route.None?)
            && (st != Ok ==> q.pushed == old(q.pushed))
            && (st == NotFound ==> q.queue == old(q.queue))
            && (st == QueueFull ==>
                Admitted(others, q.capacity, MAX_RETRIES + 1) == None && q.queue == others(MAX_RETRIES))
            && (st == Ok ==>
                  && Admitted(others, q.capacity, MAX_RETRIES + 1).Some?
                  && var k := Admitted(others, q.capacity, MAX_RETRIES + 1).value;
                  var x := MakeFrame(m, false, Target(route.value.sid, route.value.reactor, dest), k);
                  q.queue == others(k) + [x] && q.pushed == old(q.pushed) + [x])
    ensures st == NotFound <==> dest !in router.nidMap
    ensures st == Ok ==>
              && |q.pushed| == |old(q.pushed)| + 1 && q.pushed[..|old(q.pushed)|] == old(q.pushed)
              && var route := router.nidMap[dest];
              FrameFor(q.pushed[|old(q.pushed)|], m, route.sid, route.reactor, dest, others, q.capacity)
  {
    hide MakeFrame, Admitted, FrameFor;
    if dest !in router.nidMap {
      return NotFound;
    }
    var route := router.nidMap[dest];
    var t := Target(route.sid, route.reactor, dest);
    var x := PushFrame(q, m, false, t, others);
    if x.Some? {
      MadeFrameFor(m, false, t, others, q.capacity);
    }
    st := if x == None then QueueFull else Ok;
  }

  /** The default handler of a plane, on the peer's router and queue: the frames enqueued are for
      the recipients the step system names, and the first one not served found no room. */
  method Bridge(dir: Dir, router: RouterObject.Router, q: MpscQueue<Outbound>, m: Inbound,
                others: nat -> nat -> seq<Outbound>)
    returns (pushed: seq<Outbound>)
    modifies q
    ensures var ts := Recipients(dir, router.State(), m);
            && Enqueued(m, dir.Forward?, ts, others, q.capacity, pushed)
            && (|pushed| < |ts| ==> Admitted(others(|pushed|), q.capacity, MAX_RETRIES + 1) == None)
    ensures q.pushed == old(q.pushed) + pushed
    ensures Recipients(dir, router.State(), m) == [] ==> q.queue == old(q.queue)
    ensures dir.Forward? ==>
              var list := if m.typ in router.subTable then router.subTable[m.typ] else [];
              && |pushed| <= |list|
              && (forall j :: 0 <= j < |pushed| ==>
                    FrameFor(pushed[j], m, list[j].sid, list[j].reactor, list[j].nid, others(j), q.capacity))
              && (|pushed| < |list| ==> Admitted(others(|pushed|), q.capacity, 1000001) == None)
    ensures dir.Backend? ==>
              var dest := if |m.payload| >= 52 then Word(m.payload, 24) else 0;
              if dest != 0 && dest in router.nidMap && Admitted(others(0), q.capacity, 1000001).Some? then
                var route := router.nidMap[dest];
                |pushed| == 1 && FrameFor(pushed[0], m, route.sid, route.reactor, dest, others(0), q.capacity)
              else pushed == []
  {
    hide MakeFrame, Admitted, FrameFor, Word, ImHeader.ReadDestNid, Recipients;
    UplinkRecipients(router.State(), m);
    DownlinkRecipients(router.State(), m);
    ImHeader.ReadLayout(m.payload);
    if dir.Forward? {
      var _, frames := Publish(router, q, m, others);
      return frames;
    }
    pushed := [];
    var dest := ImHeader.ReadDestNid(m.payload);
    if dest == 0 {
      return;
    }
    var st := AsyncSend(router, q, m, dest, others(0));
    if st == Ok {
      pushed := [q.queue[|q.queue| - 1]];
    }
  }

  lemma FirstAttempt(s: seq<Outbound>, pops: nat -> nat)
    ensures pops(0) == 0 ==> AfterPops(s, pops, 1) == s
  {
    assert AfterPops(s, pops, 0) == s;
  }

  lemma FirstFull(s: seq<Outbound>, pops: nat -> nat, k: nat, size: nat)
    requires FullUntil(s, pops, k, size)
    ensures k > 0 ==> |AfterPops(s, pops, 1)| == size
  {
    hide AfterPops;
  }

  /** Moves one frame from the distributor's hand to the send queue of its reactor. */
  method RouteToSendQueue(frame: Outbound, sendQ: seq<SpscQueue<Outbound>>, pops: nat -> nat) returns (ok: bool, k: nat)
    requires frame.reactor < |sendQ| && forall i :: 0 <= i < |sendQ| ==> sendQ[i].Valid()
    modifies if frame.reactor < 0 then {} else {sendQ[frame.reactor], sendQ[frame.reactor].slots}
    ensures frame.reactor < 0 ==> !ok
    ensures frame.reactor >= 0 ==>
              var q := sendQ[frame.reactor];
              && q.Valid()
              && var left := AfterPops(old(q.Contents()), pops, k + 1);
              && ok == (|left| < q.size - 1)
              && (ok ==> q.Contents() == left + [AfterRetries(frame, k)])
              && (!ok ==> q.Contents() == left && k == 1000000)
              && FullUntil(old(q.Contents()), pops, k, q.size - 1)
    ensures frame.reactor >= 0 && ok ==>
              var queued := sendQ[frame.reactor].Contents();
              && queued != []
              && var y := queued[|queued| - 1];
              y.sid == frame.sid && y.reactor == frame.reactor && y.bytes == if k == 0 then frame.bytes else []
    ensures frame.reactor >= 0 && pops(0) == 0 ==>
              var q := sendQ[frame.reactor];
              |old(q.Contents())| < q.size - 1 ==> ok && q.Contents() == old(q.Contents()) + [frame]
  {
    hide SpscQueue.Valid, SpscQueue.Contents, FullUntil, AfterPops;
    if frame.reactor < 0 {
      return false, 0;
    }
    FirstAttempt(sendQ[frame.reactor].Contents(), pops);
    ok, k := PushIntoRing(sendQ[frame.reactor], frame, Remains, pops, MAX_RETRIES);
    sendQ[frame.reactor].Bounded();
    FirstFull(old(sendQ[frame.reactor].Contents()), pops, k, sendQ[frame.reactor].size - 1);
  }
}
