/** What the hub guarantees in every reachable state, under every interleaving of its
    threads, every chunking of its input and every partial write of its output.

    A direction `d` names the flow from the plane `FlowAt(h, d).src` to its peer
    `FlowAt(h, d).dst`; S is a session of the source plane, D one of the destination. */
module HubTheorems {
  import opened Bytes
  import opened Wire
  import Auth
  import ImHeader
  import opened Routing
  import opened Reassembly
  import opened HubModel
  import opened HubInvariant
  import opened HubMeaning
  import opened HubUpdate
  import opened HubConnSteps
  import opened HubLink
  import opened HubFlow
  import opened HubFlowSteps
  import opened HubPublish
  import opened HubRuns
  import opened HubHandOver

  // ---------- access to the invariant ----------

  lemma FlowFacts(c: Config, h: Hub, d: Dir)
    requires ValidConfig(c) && Reachable(c, h)
    ensures var f := FlowAt(h, d);
            && PlaneInv(c, f.dst.log, f.src) && PlaneInv(c, f.src.log, f.dst)
            && LinkOk(c, f.src.log, f.dst.log, f.link) && OrderOk(c, f) && AccountsOk(f.dst)
  {
    hide PlaneInv, LinkOk, OrderOk, AccountsOk, Reachable;
    EveryReachableState(c, h);
  }

  lemma StreamFacts(c: Config, h: Hub, d: Dir, D: nat)
    requires ValidConfig(c) && Reachable(c, h) && D in FlowAt(h, d).dst.log
    ensures var f := FlowAt(h, d);
            LogOk(c, f.dst.log[D]) && StreamOk(f.src.log, D, f.dst.log[D])
  {
    hide LogOk, StreamOk, LinkOk, OrderOk, AccountsOk, FdsOk, ReactorsOk, ConnsOk, GrantsOk, LiveOk, TablesOk, EgressOk,
         Reachable;
    FlowFacts(c, h, d);
  }

  // ---------- order and at most once ----------

  lemma {:induction false} DeliveredPrefix(st: seq<Item>, k: nat, S: nat, D: nat)
    requires k <= |st|
    ensures Delivered(st[..k], S, D) <= Delivered(st, S, D)
  {
    if k == |st| {
      assert st[..k] == st;
    } else {
      DeliveredPrefix(st[..|st| - 1], k, S, D);
      assert st[..|st| - 1][..k] == st[..k];
    }
  }

  /** Positions in the output and positions in the pair's projection agree in order. */
  lemma DeliveredOrder(st: seq<Item>, S: nat, D: nat, i: nat, j: nat)
    requires i < j < |st| && Increasing(Delivered(st, S, D))
    requires ItemOne(st[i], S, D) != [] && ItemOne(st[j], S, D) != []
    ensures st[i].frame.meta.frameNo < st[j].frame.meta.frameNo
  {
    hide Delivered, Increasing;
    var x, y := st[i].frame.meta.frameNo, st[j].frame.meta.frameNo;
    DeliveredNext(st, i, S, D);
    DeliveredNext(st, j, S, D);
    assert st[..j][..i + 1] == st[..i + 1];
    DeliveredPrefix(st[..j], i + 1, S, D);
    DeliveredPrefix(st, j + 1, S, D);
    hide *;
    PrefixOrder(Delivered(st[..i], S, D), x, Delivered(st[..j], S, D), y, Delivered(st, S, D));
  }

  lemma PrefixOrder(a: seq<nat>, x: nat, b: seq<nat>, y: nat, all: seq<nat>)
    requires a + [x] <= b && b + [y] <= all && Increasing(all)
    ensures x < y
  {
    assert b[|a|] == (a + [x])[|a|];
    assert all[|a|] == (b + [y])[|a|] && all[|b|] == (b + [y])[|b|];
  }

  lemma DeliveredNext(st: seq<Item>, i: nat, S: nat, D: nat)
    requires i < |st| && ItemOne(st[i], S, D) != []
    ensures Delivered(st[..i + 1], S, D) == Delivered(st[..i], S, D) + [st[i].frame.meta.frameNo]
  {
    assert st[..i + 1] == st[..i] + [st[i]];
    DeliveredSnoc(st[..i], st[i], S, D);
  }

  /** The business frames from S in D's output are S's frames in the order S sent them,
      each at most once. */
  lemma PerPairOrder(c: Config, h: Hub, d: Dir, D: nat, i: nat, j: nat)
    requires ValidConfig(c) && Reachable(c, h)
    requires D in FlowAt(h, d).dst.log && i < j < |FlowAt(h, d).dst.log[D].stream|
    requires var st := FlowAt(h, d).dst.log[D].stream;
             st[i].BizItem? && st[j].BizItem? && st[i].frame.meta.src == st[j].frame.meta.src
    ensures var st := FlowAt(h, d).dst.log[D].stream; st[i].frame.meta.frameNo < st[j].frame.meta.frameNo
  {
    hide Reachable;
    var f := FlowAt(h, d);
    var l := f.dst.log[D];
    var S := l.stream[i].frame.meta.src;
    FlowFacts(c, h, d);
    StreamFacts(c, h, d, D);
    assert ItemOk(f.src.log, D, l, i) && ItemOk(f.src.log, D, l, j);
    assert PairOk(c, f, S, D);
    OutPrefix(c, f, S, D);
    hide PlaneInv, LinkOk, OrderOk, AccountsOk, StreamOk, PairOk, Increasing;
    DeliveredOrder(l.stream, S, D, i, j);
  }

  lemma OutPrefix(c: Config, f: Flow, S: nat, D: nat)
    requires ValidConfig(c) && PairOk(c, f, S, D) && D in f.dst.log
    ensures Increasing(Delivered(f.dst.log[D].stream, S, D)) && Increasing(Out(f.dst, S, D))
    ensures Increasing(Proj(f.dst.egress.enqueued, S, D))
  {
    hide Delivered, Proj, HandProj, QueueOf, Tail;
    var o, t := Out(f.dst, S, D), Tail(c, f.src, f.link, S, D);
    PrefixIncreasing(o, t);
    PrefixIncreasing(Proj(f.dst.egress.enqueued, S, D), t);
    var a := Delivered(f.dst.log[D].stream, S, D);
    var b := Proj(QueueOf(f.dst.log, f.dst.egress, D), S, D) + HandProj(f.dst.egress.hand, S, D)
             + Proj(f.dst.egress.distQ, S, D);
    assert o == a + b;
    PrefixIncreasing(a, b);
  }

  lemma PrefixIncreasing(a: seq<nat>, b: seq<nat>)
    requires Increasing(a + b)
    ensures Increasing(a)
  {
    forall i, j | 0 <= i < j < |a|
      ensures a[i] < a[j]
    {
      assert (a + b)[i] == a[i] && (a + b)[j] == a[j];
    }
  }

  // ---------- content and destination ----------

  /** A business frame delivered to D is a business frame its source session really sent:
      same command, same payload (emptied if and only if the push into the receive queue was
      retried), addressed to a node id D authenticated as; a downlink frame was never emptied and
      goes exactly to the node id its IM header names. */
  ghost predicate Genuine(src: Log, l: SessionLog, x: Outbound) {
    && x.meta.src in src && x.meta.frameNo < |src[x.meta.src].handled|
    && var g := src[x.meta.src].handled[x.meta.frameNo];
    && g.flag != FLAG_SYS && x.meta.cmd == g.typ && x.meta.payload == (if x.meta.emptied then [] else g.payload)
    && HasNid(l.auths, x.meta.nid)
    && (!x.meta.published ==> x.meta.payload == g.payload && x.meta.nid == ImHeader.ReadDestNid(g.payload) != 0)
  }

  /** No misdelivery: what is in D's output was meant for D, is genuine and has exact bytes. */
  lemma NoMisdelivery(c: Config, h: Hub, d: Dir, D: nat, j: nat)
    requires ValidConfig(c) && Reachable(c, h)
    requires D in FlowAt(h, d).dst.log && j < |FlowAt(h, d).dst.log[D].stream|
    requires FlowAt(h, d).dst.log[D].stream[j].BizItem?
    ensures var f := FlowAt(h, d);
            var x := f.dst.log[D].stream[j].frame;
            && x.sid == D && Genuine(f.src.log, f.dst.log[D], x)
            && x.bytes == EncodeFrame(x.meta.cmd, x.meta.nid, FLAG_EXP, x.meta.payload)
  {
    hide Reachable, LogOk, EncodeFrame, AckedIn;
    StreamFacts(c, h, d, D);
    assert ItemOk(FlowAt(h, d).src.log, D, FlowAt(h, d).dst.log[D], j);
  }

  /** The payload D is sent is the one S sent if and only if the push of S's frame into the
      receive queue was not retried, or there was no payload to lose. */
  lemma PayloadIntactIff(c: Config, h: Hub, d: Dir, D: nat, j: nat)
    requires ValidConfig(c) && Reachable(c, h)
    requires D in FlowAt(h, d).dst.log && j < |FlowAt(h, d).dst.log[D].stream|
    requires FlowAt(h, d).dst.log[D].stream[j].BizItem?
    ensures var src, x := FlowAt(h, d).src.log, FlowAt(h, d).dst.log[D].stream[j].frame;
            && x.meta.src in src && x.meta.frameNo < |src[x.meta.src].handled|
            && var g := src[x.meta.src].handled[x.meta.frameNo];
            ItemFrame(BizItem(x)).payload == g.payload <==> !x.meta.emptied || g.payload == []
  {
    hide Reachable, EncodeFrame;
    NoMisdelivery(c, h, d, D, j);
  }

  /** The guard that decides it: a message whose hand-over begins is queued whole if and only if the
      worker's queue has room at the first attempt. If it has none, the message is queued emptied
      or not at all, whatever other threads do to the queue between the attempts. */
  lemma QueuedWholeIffRoom(c: Config, h: Hub, d: Dir, r: nat, inbox: nat -> seq<Inbound>)
    requires ValidConfig(c) && Reachable(c, h) && r < |FlowAt(h, d).src.reactors|
    requires FlowAt(h, d).src.reactors[r].pc.Pushing? && FlowAt(h, d).src.reactors[r].pc.attempt == 0
    ensures var f := FlowAt(h, d);
            CanRecvPush(c, f.src, f.link, r) && WholeIffRoom(c, d, f, r, inbox)
  {
    hide Reachable, CanRecvPush, WholeIffRoom;
    NeverStuck(c, h, d);
    NotRetriedYet(c, h, d, r);
    PushRunWhole(c, d, FlowAt(h, d), r, inbox);
  }

  lemma NotRetriedYet(c: Config, h: Hub, d: Dir, r: nat)
    requires ValidConfig(c) && Reachable(c, h) && r < |FlowAt(h, d).src.reactors|
    requires FlowAt(h, d).src.reactors[r].pc.Pushing?
    ensures !FlowAt(h, d).src.reactors[r].pc.msg.retried
  {
    hide Reachable, LogsOk, LinkOk, OrderOk, AccountsOk, FdsOk, ConnsOk, GrantsOk, LiveOk, TablesOk, EgressOk, AllHeld,
         IndexOk, MsgOk;
    FlowFacts(c, h, d);
    assert ReactorOk(c, FlowAt(h, d).src.log, r, FlowAt(h, d).src.reactors[r]);
  }

  ghost predicate Queued(e: Egress, x: Outbound) {
    || x in e.distQ
    || (e.hand.Some? && e.hand.value.frame == x)
    || exists r :: 0 <= r < |e.sendQ| && x in e.sendQ[r]
  }

  /** Every frame still on its way names an issued session and the reactor that owns it, waits in
      no send queue but that reactor's, and its bytes are empty, after a retried push, or exactly
      the frame its session is to get. */
  lemma QueuedFrames(c: Config, h: Hub, d: Dir, x: Outbound)
    requires ValidConfig(c) && Reachable(c, h) && Queued(FlowAt(h, d).dst.egress, x)
    ensures var f := FlowAt(h, d);
            && x.sid in f.dst.log && x.reactor == f.dst.log[x.sid].reactor && 0 <= x.reactor < c.reactors
            && Genuine(f.src.log, f.dst.log[x.sid], x)
            && x.bytes == (if x.meta.retried then [] else EncodeFrame(x.meta.cmd, x.meta.nid, FLAG_EXP, x.meta.payload))
            && forall r :: 0 <= r < |f.dst.egress.sendQ| && x in f.dst.egress.sendQ[r] ==> r == x.reactor
  {
    hide Reachable, EncodeFrame, StreamOk, GoodAuths, StreamBytes, LinkOk, OrderOk, AccountsOk, FdsOk, ReactorsOk,
         ConnsOk, GrantsOk, LiveOk, TablesOk, DropOk;
    var f := FlowAt(h, d);
    FlowFacts(c, h, d);
    QueuedOk(c, f.src.log, f.dst.log, f.dst.egress, x);
  }

  lemma QueuedOk(c: Config, src: Log, dst: Log, e: Egress, x: Outbound)
    requires EgressOk(c, src, dst, e) && Queued(e, x)
    ensures FrameOk(src, dst, x)
    ensures forall r :: 0 <= r < |e.sendQ| && x in e.sendQ[r] ==> r == x.reactor
  {
    hide FrameOk, DropOk;
    forall r | 0 <= r < |e.sendQ| && x in e.sendQ[r]
      ensures FrameOk(src, dst, x) && r == x.reactor
    {
      assert SendQOk(src, dst, r, e.sendQ[r]);
    }
  }

  // ---------- acknowledgements first ----------

  /** A session's output has the login acknowledgement before any business frame, and the
      subscription acknowledgement for a command before any frame published under it, although
      the tables change before the acknowledgement is appended. */
  lemma AckBeforeTraffic(c: Config, h: Hub, d: Dir, D: nat, j: nat)
    requires ValidConfig(c) && Reachable(c, h)
    requires D in FlowAt(h, d).dst.log && j < |FlowAt(h, d).dst.log[D].stream|
    requires FlowAt(h, d).dst.log[D].stream[j].BizItem?
    ensures var st := FlowAt(h, d).dst.log[D].stream;
            && (exists i :: 0 <= i < j && st[i].AckItem? && st[i].ack == AuthAck)
            && (st[j].frame.meta.published ==>
                  exists i :: 0 <= i < j && st[i].AckItem? && st[i].ack == SubAck(st[j].frame.meta.cmd))
  {
    hide Reachable, LogOk, FrameFits, SourceFits;
    var st := FlowAt(h, d).dst.log[D].stream;
    StreamFacts(c, h, d, D);
    assert ItemOk(FlowAt(h, d).src.log, D, FlowAt(h, d).dst.log[D], j);
    AckPosition(st, j, AuthAck);
    if st[j].frame.meta.published {
      AckPosition(st, j, SubAck(st[j].frame.meta.cmd));
    }
  }

  lemma AckPosition(st: seq<Item>, j: nat, a: Ack)
    requires j <= |st| && AckedIn(st[..j], a)
    ensures exists i :: 0 <= i < j && st[i].AckItem? && st[i].ack == a
  {
    var i :| 0 <= i < |st[..j]| && st[..j][i].AckItem? && st[..j][i].ack == a;
    assert st[i] == st[..j][i];
  }

  // ---------- conservation ----------

  /** Every frame enqueued for a pair is in exactly one place: D's output, the send queue of D's
      reactor, the distributor's hand, the distribution queue, or the record of drops; and nothing
      else is anywhere. */
  lemma Conservation(c: Config, h: Hub, d: Dir, S: nat, D: nat, n: nat)
    requires ValidConfig(c) && Reachable(c, h) && D in FlowAt(h, d).dst.log
    ensures var s := FlowAt(h, d).dst;
            && 0 <= s.log[D].reactor < |s.egress.sendQ|
            && multiset(Delivered(s.log[D].stream, S, D))[n]
            + multiset(Proj(s.egress.sendQ[s.log[D].reactor], S, D))[n]
            + multiset(HandProj(s.egress.hand, S, D))[n]
            + multiset(Proj(s.egress.distQ, S, D))[n]
            + multiset(Drops(s.egress.dropped, S, D))[n]
            == (if n in Proj(s.egress.enqueued, S, D) then 1 else 0)
            && forall r :: 0 <= r < |s.egress.sendQ| && r != s.log[D].reactor ==> Proj(s.egress.sendQ[r], S, D) == []
  {
    hide Reachable, StreamOk, GoodAuths, StreamBytes, LinkOk, FdsOk, ReactorsOk, ConnsOk, GrantsOk, LiveOk, TablesOk,
         DropOk, Delivered, Proj, HandProj, Drops, FramesOk, SendQOk;
    var f := FlowAt(h, d);
    FlowFacts(c, h, d);
    NoForeignQueue(c, f.src.log, f.dst.log, f.dst.egress, S, D);
    assert PairOk(c, f, S, D) && Accounted(f.dst, S, D);
    OutPrefix(c, f, S, D);
    OnceEach(Proj(f.dst.egress.enqueued, S, D), n);
  }

  /** A frame for D waits in no send queue but that of D's reactor. */
  lemma NoForeignQueue(c: Config, src: Log, dst: Log, e: Egress, S: nat, D: nat)
    requires EgressOk(c, src, dst, e) && D in dst
    ensures forall r :: 0 <= r < |e.sendQ| && r != dst[D].reactor ==> Proj(e.sendQ[r], S, D) == []
  {
    hide DropOk, SourceFits, Proj;
    forall r | 0 <= r < |e.sendQ| && r != dst[D].reactor
      ensures Proj(e.sendQ[r], S, D) == []
    {
      var q := e.sendQ[r];
      assert SendQOk(src, dst, r, q);
      forall i | 0 <= i < |q|
        ensures q[i].sid != D
      {
        assert FrameOk(src, dst, q[i]);
      }
      ProjAbsent(q, S, D);
    }
  }

  lemma {:induction false} OnceEach(p: seq<nat>, n: nat)
    requires Increasing(p)
    ensures multiset(p)[n] == if n in p then 1 else 0
  {
    if p != [] {
      var front, last := p[..|p| - 1], p[|p| - 1];
      assert p == front + [last];
      OnceEach(front, n);
      assert last !in front;
    }
  }

  /** Why a frame was dropped: the owner's send queue stayed full, the session had really closed,
      or a retried push had emptied it. No frame ever carries an invalid reactor index. */
  lemma DropReasons(c: Config, h: Hub, d: Dir, i: nat)
    requires ValidConfig(c) && Reachable(c, h) && i < |FlowAt(h, d).dst.egress.dropped|
    ensures var s, x := FlowAt(h, d).dst, FlowAt(h, d).dst.egress.dropped[i];
            && x.why != BadReactor
            && x.frame.sid in s.log
            && (x.why == SessionGone ==> s.log[x.frame.sid].closed)
            && (x.why == Emptied ==> x.frame.meta.retried)
  {
    hide Reachable, LogsOk, LinkOk, OrderOk, AccountsOk, FdsOk, ReactorsOk, ConnsOk, GrantsOk, LiveOk, TablesOk,
         FramesOk, SendQOk;
    FlowFacts(c, h, d);
    assert DropOk(FlowAt(h, d).src.log, FlowAt(h, d).dst.log, FlowAt(h, d).dst.egress.dropped[i]);
  }

  /** The distributor drops a frame if and only if it has made its last attempt and the owner's
      send queue is full even then. */
  lemma GivesUpIff(c: Config, h: Hub, d: Dir)
    requires ValidConfig(c) && Reachable(c, h) && FlowAt(h, d).dst.egress.hand.Some?
    ensures var e := FlowAt(h, d).dst.egress;
            var x := e.hand.value;
            && CanDistPush(e) && 0 <= x.frame.reactor && x.attempt <= 1000000
            && (DistPush(c, e).dropped != e.dropped <==>
                x.attempt == 1000000 && |e.sendQ[x.frame.reactor]| >= c.capacity)
            && (DistPush(c, e).dropped != e.dropped ==>
                DistPush(c, e).dropped == e.dropped + [Drop(x.frame, SendQueueFull)])
  {
    hide Reachable, LogsOk, LinkOk, OrderOk, AccountsOk, FdsOk, ReactorsOk, ConnsOk, GrantsOk, LiveOk, TablesOk,
         FramesOk, SendQOk, DropOk, FrameOk;
    var f := FlowAt(h, d);
    FlowFacts(c, h, d);
    HandFits(c, f.src.log, f.dst);
  }

  /** A frame in the distributor's hand goes to the end of the send queue of the reactor it names
      as soon as that queue has room, whole if that is the first attempt and without its bytes if
      it is a later one; while the queue is full the frame stays in the hand and nothing else
      changes. */
  lemma HandedToOwner(c: Config, h: Hub, d: Dir)
    requires ValidConfig(c) && Reachable(c, h) && FlowAt(h, d).dst.egress.hand.Some?
    ensures var e := FlowAt(h, d).dst.egress;
            var x, r := e.hand.value, e.hand.value.frame.reactor;
            && CanDistPush(e) && 0 <= r < |e.sendQ|
            && var e' := DistPush(c, e);
            && (|e.sendQ[r]| < c.capacity ==>
                  && e'.hand == None && e'.distQ == e.distQ && e'.dropped == e.dropped
                  && |e'.sendQ| == |e.sendQ| && |e'.sendQ[r]| == |e.sendQ[r]| + 1
                  && (forall i :: 0 <= i < |e.sendQ| && i != r ==> e'.sendQ[i] == e.sendQ[i])
                  && e'.sendQ[r][..|e.sendQ[r]|] == e.sendQ[r]
                  && var y := e'.sendQ[r][|e.sendQ[r]|];
                  && y.sid == x.frame.sid && y.reactor == r
                  && y.bytes == if x.attempt == 0 then x.frame.bytes else [])
            && (|e.sendQ[r]| >= c.capacity && x.attempt < 1000000 ==>
                  e' == e.(hand := Some(Held(x.frame, x.attempt + 1))))
  {
    hide Reachable, LogsOk, LinkOk, OrderOk, AccountsOk, FdsOk, ReactorsOk, ConnsOk, GrantsOk, LiveOk, TablesOk,
         FramesOk, SendQOk, DropOk, FrameOk;
    var f := FlowAt(h, d);
    FlowFacts(c, h, d);
    HandFits(c, f.src.log, f.dst);
  }

  /** A frame popped from a send queue reaches the output exactly when its session is still
      held and no push of the frame ever had to be retried. */
  lemma DeliveredIffNeverRetried(c: Config, h: Hub, d: Dir, r: nat)
    requires ValidConfig(c) && Reachable(c, h) && CanDrain(FlowAt(h, d).dst, r)
    ensures var s := FlowAt(h, d).dst;
            var x := s.egress.sendQ[r][0];
            && x.sid in s.log
            && (StreamOf(Drain(s, r).log, x.sid) == StreamOf(s.log, x.sid) + [BizItem(x)] <==>
                Has(s, r, x.sid) && !x.meta.retried)
  {
    hide Reachable, LogsOk, LinkOk, OrderOk, AccountsOk, FdsOk, ReactorsOk, ConnsOk, GrantsOk, LiveOk, TablesOk, DropOk,
         Encode;
    var f := FlowAt(h, d);
    var s, x := f.dst, f.dst.egress.sendQ[r][0];
    FlowFacts(c, h, d);
    assert SendQOk(f.src.log, s.log, r, s.egress.sendQ[r]);
    assert FrameOk(f.src.log, s.log, x);
    assert |StreamOf(s.log, x.sid) + [BizItem(x)]| == |StreamOf(s.log, x.sid)| + 1;
  }

  // ---------- publishing ----------

  lemma PublishFacts(c: Config, h: Hub, d: Dir)
    requires ValidConfig(c) && Reachable(c, h)
    ensures PublishesOk(c, FlowAt(h, d))
  {
    hide HubInv, OrderOk, AccountsOk, PublishesOk, Reachable;
    EveryReachableState(c, h);
  }

  /** When a worker looks up the recipients of a message, no frame of it was ever enqueued. If there
      is no recipient it is done with it; otherwise it sets out to serve this one snapshot. */
  lemma LookupMeaning(c: Config, h: Hub, d: Dir, w: nat)
    requires ValidConfig(c) && Reachable(c, h) && CanLookup(FlowAt(h, d).link, w)
    ensures var f := FlowAt(h, d);
            var m := f.link.workers[w].msg;
            var ts, k := Recipients(d, f.dst.tables, m), LinkStep(c, d, f, ALookup(w)).link.workers[w];
            && MadeFrom(f.dst.egress.enqueued, m.sid, m.frameNo) == []
            && (k.Free? <==> ts == [])
            && (k.Fanout? <==> ts != []) && (k.Fanout? ==> k.msg == m && k.all == ts && Done(k) == 0)
    ensures var f := FlowAt(h, d);
            var m := f.link.workers[w].msg;
            var ts, t := Recipients(d, f.dst.tables, m), f.dst.tables;
            && (d.Forward? ==>
                  var list := if m.typ in t.subs then t.subs[m.typ] else [];
                  && |ts| == |list|
                  && forall j :: 0 <= j < |list| ==>
                       ts[j].sid == list[j].sid && ts[j].reactor == list[j].reactor && ts[j].nid == list[j].nid)
            && (d.Backend? ==>
                  var dest := if |m.payload| >= 52 then Word(m.payload, 24) else 0;
                  if dest != 0 && dest in t.nids then ts == [Target(t.nids[dest].sid, t.nids[dest].reactor, dest)]
                  else ts == [])
  {
    hide Reachable, PlaneInv, LinkOk, OrderOk, AccountsOk, Recipients, MadeFrom, Word;
    UplinkRecipients(FlowAt(h, d).dst.tables, FlowAt(h, d).link.workers[w].msg);
    DownlinkRecipients(FlowAt(h, d).dst.tables, FlowAt(h, d).link.workers[w].msg);
    FlowFacts(c, h, d);
    NothingYet(c, FlowAt(h, d), w);
  }

  /** What publishing means, whatever other threads enqueue meanwhile. Before each push the frames
      of the message are exactly the copies for the recipients done with, in the order of the
      lookup. A push that finds room adds the next; the worker is free, its publish Ok, exactly
      when that was the last. A push that gives up has made every attempt and found the queue full;
      then the recipients served are a proper prefix. */
  lemma PublishMeaning(c: Config, h: Hub, d: Dir, w: nat)
    requires ValidConfig(c) && Reachable(c, h) && CanWorkerPush(FlowAt(h, d).link, w)
    ensures var f := FlowAt(h, d);
            var k, f' := f.link.workers[w], LinkStep(c, d, f, AWorkerPush(w));
            && |k.todo| <= |k.all| && Done(k) < |k.all| && k.todo == k.all[Done(k)..]
            && Served(f.dst.egress.enqueued, k.msg, k.published, k.all[..Done(k)])
            && match WorkerOutcome(c, f.link, w, f.dst.egress)
               case Pushed =>
                 && |f.dst.egress.distQ| < c.capacity
                 && f'.dst.egress.distQ
                    == f.dst.egress.distQ + [MakeFrame(k.msg, k.published, k.all[Done(k)], k.attempt)]
                 && Served(f'.dst.egress.enqueued, k.msg, k.published, k.all[..Done(k) + 1])
                 && (f'.link.workers[w].Free? <==> Done(k) + 1 == |k.all|)
                 && (f'.link.workers[w].Free? ==>
                       f'.link.finished == f.link.finished + [Finished(k.msg, k.published, k.all, |k.all|)])
               case Retry =>
                 && |f.dst.egress.distQ| >= c.capacity && k.attempt < 1000000
                 && f'.dst.egress == f.dst.egress && f'.link.workers[w] == k.(attempt := k.attempt + 1)
               case GiveUp =>
                 && f'.dst.egress == f.dst.egress && f'.link.workers[w].Free?
                 && f'.link.finished == f.link.finished + [Finished(k.msg, k.published, k.all, Done(k))]
                 && k.attempt == 1000000 && |f.dst.egress.distQ| >= c.capacity
  {
    hide Reachable, Served, MakeFrame, FinishedOk;
    PublishFacts(c, h, d);
    var f := FlowAt(h, d);
    assert FanoutOk(f.link.workers[w], f.dst.egress.enqueued);
    PushServes(c, f.link, w, f.dst.egress);
  }

  /** A finished publish stays what it was, however long the hub goes on: the frames of the message
      are still exactly the copies for the recipients served, in the order of the lookup. */
  lemma FinishedStays(c: Config, h: Hub, d: Dir, i: nat)
    requires ValidConfig(c) && Reachable(c, h) && i < |FlowAt(h, d).link.finished|
    ensures var f := FlowAt(h, d);
            var x := f.link.finished[i];
            && x.served <= |x.all| && Served(f.dst.egress.enqueued, x.msg, x.published, x.all[..x.served])
            && var made := MadeFrom(f.dst.egress.enqueued, x.msg.sid, x.msg.frameNo);
            && |made| == x.served
            && forall j :: 0 <= j < x.served ==>
                 && made[j].sid == x.all[j].sid && made[j].reactor == x.all[j].reactor
                 && made[j].bytes == if made[j].meta.retried then []
                                     else EncodeFrame(x.msg.typ, x.all[j].nid, 1, x.msg.payload)
  {
    hide Reachable, FanoutsOk, Served, Past, EncodeFrame, MadeFrom;
    PublishFacts(c, h, d);
    var f := FlowAt(h, d);
    var x := f.link.finished[i];
    assert FinishedOk(c, f, x);
    ServedIs(f.dst.egress.enqueued, x.msg, x.published, x.all[..x.served]);
  }

  // ---------- closed sessions ----------

  lemma HeldIsOpen(c: Config, src: Log, s: Plane, r: nat, sid: nat)
    requires PlaneInv(c, src, s) && Has(s, r, sid)
    ensures !s.log[sid].closed
  {
    hide PlaneInv;
    Holds(c, src, s, r, sid);
  }

  lemma PlaneClosedIsFinal(c: Config, src: Log, s: Plane, a: PlaneAction, D: nat)
    requires PlaneInv(c, src, s) && PlaneEnabled(c, s, a) && D in s.log && s.log[D].closed
    ensures var t := PlaneStep(c, s, a); D in t.log && t.log[D] == s.log[D]
  {
    hide PlaneInv, React, Pop, RemoveSession, Subscribe, Unsubscribe, BindNid, DistPop, DistPush, CanAccept, Encode;
    match a
    case AAccept(fd, r) => AcceptGrows(c, src, s, fd, r);
    case AConnPush => PendingIsOpen(c, src, s);
    case AIntake(r) =>
    case AReceive(r, sid, _) => HeldIsOpen(c, src, s, r, sid);
    case AHandle(r, sid) => HeldIsOpen(c, src, s, r, sid);
    case AAckAppend(r) => HeldIsOpen(c, src, s, r, s.reactors[r].pc.sid);
    case ASendSome(r, sid, _) => HeldIsOpen(c, src, s, r, sid);
    case AClose(r, sid) => HeldIsOpen(c, src, s, r, sid);
    case ADrain(r) =>
      if Has(s, r, s.egress.sendQ[r][0].sid) {
        HeldIsOpen(c, src, s, r, s.egress.sendQ[r][0].sid);
      }
    case ADistPop =>
    case ADistPush =>
  }

  lemma PendingIsOpen(c: Config, src: Log, s: Plane)
    requires PlaneInv(c, src, s) && CanConnPush(s)
    ensures !s.log[s.listener.conn.sid].closed
  {
    hide LogsOk, FdsOk, ReactorsOk, GrantsOk, LiveOk, TablesOk, EgressOk;
  }

  /** Session ids are never reused and a closed session's history never changes again: a frame
      that outlives its session reaches no one, not even a later connection with the same node
      id or descriptor. */
  lemma ClosedIsFinal(c: Config, h: Hub, a: Action, d: Dir, D: nat)
    requires ValidConfig(c) && Reachable(c, h) && Enabled(c, h, a)
    requires D in PlaneAt(h, d).log && PlaneAt(h, d).log[D].closed
    ensures var t := PlaneAt(Step(c, h, a), d); D in t.log && t.log[D] == PlaneAt(h, d).log[D]
  {
    hide Reachable, PlaneInv, LinkOk, OrderOk, AccountsOk, PlaneStep, PlaneEnabled;
    FlowFacts(c, h, Forward);
    match a
    case OnPlane(e, p) =>
      if e == d {
        PlaneClosedIsFinal(c, (if d.Forward? then h.backend else h.forward).log, PlaneAt(h, d), p, D);
      }
    case OnLink(e, k) =>
  }

  // ---------- tables agree with live sessions ----------

  /** The reactor holds the session, authenticated. */
  predicate HeldAuthed(s: Plane, r: int, sid: nat) {
    0 <= r < |s.reactors| && sid in s.reactors[r].sessions && s.reactors[r].sessions[sid].authed
  }

  lemma AuthedIsHeld(c: Config, src: Log, s: Plane, sid: nat, nid: U32)
    requires PlaneInv(c, src, s) && sid in s.log && !s.log[sid].closed && HasNid(s.log[sid].auths, nid)
    ensures HeldAuthed(s, s.log[sid].reactor, sid)
    ensures s.log[sid].auths != []
    ensures s.reactors[s.log[sid].reactor].sessions[sid].nid == s.log[sid].auths[|s.log[sid].auths| - 1].nid
  {
    hide FdsOk, ReactorsOk, ConnsOk, GrantsOk, TablesOk, EgressOk, StreamOk, GoodAuths, StreamBytes;
    var k :| 0 <= k < |s.log[sid].auths| && s.log[sid].auths[k].nid == nid;
    Holds(c, src, s, s.log[sid].reactor, sid);
  }

  /** Every subscription entry names an authenticated session held by the recorded reactor, under a
      node id that session authenticated as, and each session appears once. */
  lemma SubscribersAreLive(c: Config, h: Hub, d: Dir, cmd: U32, i: nat)
    requires ValidConfig(c) && Reachable(c, h) && i < |FindSubscribers(PlaneAt(h, d).tables, cmd)|
    ensures var s := PlaneAt(h, d);
            var sub := FindSubscribers(s.tables, cmd)[i];
            && HeldAuthed(s, sub.reactor, sub.sid) && sub.sid in s.log && HasNid(s.log[sub.sid].auths, sub.nid)
            && Unique(FindSubscribers(s.tables, cmd))
  {
    hide Reachable, LinkOk, OrderOk, AccountsOk, FdsOk, ReactorsOk, ConnsOk, GrantsOk, LogsOk, LiveOk, EgressOk, HasNid;
    FlowFacts(c, h, d);
    var s := PlaneAt(h, d);
    var sub := FindSubscribers(s.tables, cmd)[i];
    assert ListOk(s.log, cmd, s.tables.subs[cmd]);
    assert SubOk(s.log, cmd, sub);
    AuthedIsHeld(c, FlowAt(h, d).dst.log, s, sub.sid, sub.nid);
  }

  /** A route names a session that authenticated as the node id at the recorded reactor. The
      session is gone only if its latest login was under another node id; so as long as a
      session keeps one node id, its route is live and agrees with the session. */
  lemma RoutesAreLive(c: Config, h: Hub, d: Dir, nid: U32)
    requires ValidConfig(c) && Reachable(c, h) && nid in PlaneAt(h, d).tables.nids
    ensures var s, route := PlaneAt(h, d), PlaneAt(h, d).tables.nids[nid];
            && route.sid in s.log && s.log[route.sid].reactor == route.reactor
            && var l := s.log[route.sid];
            && HasNid(l.auths, nid)
            && (HeldAuthed(s, route.reactor, route.sid) <==> !l.closed)
            && (l.auths[|l.auths| - 1].nid == nid ==>
                  HeldAuthed(s, route.reactor, route.sid) && s.reactors[route.reactor].sessions[route.sid].nid == nid)
  {
    hide Reachable, LinkOk, OrderOk, AccountsOk, FdsOk, ReactorsOk, ConnsOk, GrantsOk, LogsOk, LiveOk, EgressOk;
    FlowFacts(c, h, d);
    var s, route := PlaneAt(h, d), PlaneAt(h, d).tables.nids[nid];
    assert RouteOk(s.log, nid, route);
    var k :| 0 <= k < |s.log[route.sid].auths| && s.log[route.sid].auths[k].nid == nid;
    if HeldAuthed(s, route.reactor, route.sid) {
      HeldIsOpen(c, FlowAt(h, d).dst.log, s, route.reactor, route.sid);
    }
    if !s.log[route.sid].closed {
      AuthedIsHeld(c, FlowAt(h, d).dst.log, s, route.sid, nid);
    }
  }

  /** Exactly when closing a session leaves a route to it behind: the node id was bound to it
      and is not the one of its latest login. */
  lemma StaleRouteIff(c: Config, h: Hub, d: Dir, r: nat, sid: nat, nid: U32)
    requires ValidConfig(c) && Reachable(c, h) && Has(PlaneAt(h, d), r, sid)
    ensures var s := PlaneAt(h, d);
            var t := Close(s, r, sid).tables;
            nid in t.nids && t.nids[nid].sid == sid <==>
            && nid in s.tables.nids && s.tables.nids[nid].sid == sid
            && nid != s.reactors[r].sessions[sid].nid
  {
    hide Reachable, LinkOk, OrderOk, AccountsOk, PlaneInv;
    FlowFacts(c, h, d);
    PlaneStaleRoute(c, FlowAt(h, d).dst.log, PlaneAt(h, d), r, sid, nid);
  }

  lemma PlaneStaleRoute(c: Config, src: Log, s: Plane, r: nat, sid: nat, nid: U32)
    requires PlaneInv(c, src, s) && Has(s, r, sid)
    ensures var t := Close(s, r, sid).tables;
            nid in t.nids && t.nids[nid].sid == sid <==>
            && nid in s.tables.nids && s.tables.nids[nid].sid == sid
            && nid != s.reactors[r].sessions[sid].nid
  {
    hide FdsOk, ReactorsOk, ConnsOk, GrantsOk, LogsOk, LiveOk, EgressOk, StreamOk, GoodAuths, StreamBytes, LogOk,
         ListOk, Without;
    Holds(c, src, s, r, sid);
    if nid in s.tables.nids && s.tables.nids[nid].sid == sid {
      assert RouteOk(s.log, nid, s.tables.nids[nid]);
    }
  }

  // ---------- session indexes ----------

  /** Descriptor and session indexes of every reactor are inverse to each other, so a lookup by
      descriptor never creates a session. */
  lemma SessionIndex(c: Config, h: Hub, d: Dir, r: nat)
    requires ValidConfig(c) && Reachable(c, h) && r < |PlaneAt(h, d).reactors|
    ensures var R := PlaneAt(h, d).reactors[r];
            && (forall fd :: fd in R.fdToSid ==> R.fdToSid[fd] in R.sessions && R.sessions[R.fdToSid[fd]].fd == fd)
            && (forall sid :: sid in R.sessions ==>
                R.sessions[sid].fd in R.fdToSid && R.fdToSid[R.sessions[sid].fd] == sid)
  {
    hide Reachable, LinkOk, OrderOk, AccountsOk, FdsOk, ConnsOk, GrantsOk, LogsOk, LiveOk, EgressOk, TablesOk, AllHeld,
         PcOk;
    FlowFacts(c, h, d);
    assert ReactorOk(c, PlaneAt(h, d).log, r, PlaneAt(h, d).reactors[r]);
  }

  /** A connection about to be taken in collides with no held session. */
  lemma NoCollision(c: Config, h: Hub, d: Dir, r: nat)
    requires ValidConfig(c) && Reachable(c, h) && CanIntake(PlaneAt(h, d), r)
    ensures var s, conn := PlaneAt(h, d), PlaneAt(h, d).connQ[r][0];
            conn.sid !in s.reactors[r].sessions && conn.fd !in s.reactors[r].fdToSid
  {
    hide Reachable, PlaneInv, LinkOk, OrderOk, AccountsOk;
    FlowFacts(c, h, d);
    NewConnIsNew(c, FlowAt(h, d).dst.log, PlaneAt(h, d), r);
  }

  // ---------- provenance of inbound messages ----------

  /** Every message waiting for a worker is a business frame its session sent after a login with
      matching credentials, and bears the identity of the latest such login before it. */
  lemma Provenance(c: Config, h: Hub, d: Dir, w: nat, i: nat) returns (j: nat)
    requires ValidConfig(c) && Reachable(c, h)
    requires w < |FlowAt(h, d).link.recvQ| && i < |FlowAt(h, d).link.recvQ[w]|
    ensures var f := FlowAt(h, d);
            var m := f.link.recvQ[w][i];
            && m.sid in f.src.log && m.frameNo < |f.src.log[m.sid].handled| && w == PickWorker(c, m.sid)
            && m.reactor == f.src.log[m.sid].reactor
            && var frames := f.src.log[m.sid].handled;
            && var sent := frames[m.frameNo];
            && sent.flag != 0 && m.flag == sent.flag && m.typ == sent.typ && |m.payload| < TWO_32
            && m.payload == (if m.retried then [] else sent.payload)
            && j < m.frameNo && frames[j].flag == 0 && frames[j].typ == 1
            && var p := frames[j].payload;
            && |p| >= 56 && Auth.CString(p[4..36]) == c.user && Auth.CString(p[36..52]) == c.pass
            && m.gid == Word(p, 0) && m.nid == Word(p, 52)
            && forall n :: j < n < m.frameNo ==> !Credentials(c, frames[n])
  {
    hide Reachable, OrderOk, AccountsOk, FdsOk, ReactorsOk, ConnsOk, GrantsOk, LiveOk, EgressOk, TablesOk, StreamOk,
         StreamBytes, WorkerOk, GoodAuths, Word, Auth.CString, Credentials;
    FlowFacts(c, h, d);
    var f := FlowAt(h, d);
    assert InboxOk(c, f.src.log, w, f.link.recvQ[w]);
    var m := f.link.recvQ[w][i];
    assert MsgHere(c, f.src.log, w, m);
    j := LatestLoginIs(c, f.src.log[m.sid].handled[..m.frameNo]);
    assert forall n :: j < n < m.frameNo ==>
             f.src.log[m.sid].handled[n] == f.src.log[m.sid].handled[..m.frameNo][n];
  }

  // ---------- no thread is ever stuck on a bad index ----------

  /** Whatever a thread holds it can go on with: the session it owes an acknowledgement is still
      there, and every queue index it computes exists. */
  lemma NeverStuck(c: Config, h: Hub, d: Dir)
    requires ValidConfig(c) && Reachable(c, h)
    ensures var f := FlowAt(h, d);
            && (f.src.listener.Holding? ==> CanConnPush(f.src))
            && (f.dst.egress.hand.Some? ==> CanDistPush(f.dst.egress) && 0 <= f.dst.egress.hand.value.frame.reactor)
            && forall r: nat :: r < |f.src.reactors| ==>
                 && (f.src.reactors[r].pc.Acking? ==> CanAckAppend(f.src, r))
                 && (f.src.reactors[r].pc.Pushing? ==> CanRecvPush(c, f.src, f.link, r))
  {
    hide Reachable, LogsOk, OrderOk, AccountsOk, FdsOk, GrantsOk, LiveOk, EgressOk, TablesOk, AllHeld, IndexOk, MsgOk,
         Blank, WorkerOk, InboxOk;
    FlowFacts(c, h, d);
    var f := FlowAt(h, d);
    if f.dst.egress.hand.Some? {
      HandFits(c, f.src.log, f.dst);
    }
    forall r: nat | r < |f.src.reactors|
      ensures f.src.reactors[r].pc.Acking? ==> CanAckAppend(f.src, r)
      ensures f.src.reactors[r].pc.Pushing? ==> CanRecvPush(c, f.src, f.link, r)
    {
      assert ReactorOk(c, f.src.log, r, f.src.reactors[r]);
    }
  }

  // ---------- bytes to bytes ----------

  function FramesOf(st: seq<Item>): (fs: seq<Frame>)
    ensures |fs| == |st|
  {
    seq(|st|, i requires 0 <= i < |st| => ItemFrame(st[i]))
  }

  lemma {:induction false} StreamBytesAre(st: seq<Item>)
    ensures StreamBytes(st) == EncodeAll(FramesOf(st))
  {
    hide Encode;
    if st != [] {
      var front, last := st[..|st| - 1], st[|st| - 1];
      StreamBytesAre(front);
      EncodeAllSnoc(FramesOf(front), ItemFrame(last));
      assert FramesOf(st) == FramesOf(front) + [ItemFrame(last)];
    }
  }

  lemma StreamFits(src: Log, sid: nat, l: SessionLog)
    requires StreamOk(src, sid, l)
    ensures AllFit(FramesOf(l.stream))
  {
    hide SourceFits, AckedIn, EncodeFrame;
    forall i | 0 <= i < |l.stream|
      ensures Fits(FramesOf(l.stream)[i])
    {
      assert ItemOk(src, sid, l, i);
    }
  }

  /** The bytes a held session's socket took, followed by the bytes still buffered, are exactly
      the frames appended to its output, for any sequence of partial writes. */
  lemma OutputIsStream(c: Config, h: Hub, d: Dir, r: nat, sid: nat)
    requires ValidConfig(c) && Reachable(c, h) && Has(PlaneAt(h, d), r, sid)
    ensures var s := PlaneAt(h, d);
            s.log[sid].sent + s.reactors[r].sessions[sid].outbuf == EncodeAll(FramesOf(s.log[sid].stream))
  {
    hide Reachable, PlaneInv, LinkOk, OrderOk, AccountsOk, StreamBytes;
    FlowFacts(c, h, d);
    Holds(c, FlowAt(h, d).dst.log, PlaneAt(h, d), r, sid);
    StreamBytesAre(PlaneAt(h, d).log[sid].stream);
  }

  /** Whatever part of D's bytes has reached the peer, in whatever chunks, the peer's frame buffer
      has popped exactly the first frames appended to D's output, and seen no bad checksum; when
      all bytes have arrived it has popped all frames. */
  lemma PeerReads(c: Config, h: Hub, d: Dir, D: nat, chunks: seq<seq<Byte>>)
    requires ValidConfig(c) && Reachable(c, h) && D in FlowAt(h, d).dst.log
    requires Flatten(chunks) <= FlowAt(h, d).dst.log[D].sent
    ensures var st, got := FlowAt(h, d).dst.log[D].stream, Feed(chunks);
            && !got.bad && |got.frames| <= |st|
            && (forall k :: 0 <= k < |got.frames| ==> got.frames[k] == ItemFrame(st[k]))
            && (Flatten(chunks) == EncodeAll(FramesOf(st)) ==> |got.frames| == |st| && got.buf == [])
  {
    hide Reachable, Feed, StreamBytes, GoodAuths, StreamOk, EncodeAll, FramesOf, Flatten;
    var l := FlowAt(h, d).dst.log[D];
    StreamFacts(c, h, d, D);
    StreamBytesAre(l.stream);
    StreamFits(FlowAt(h, d).src.log, D, l);
    ReceivePrefix(FramesOf(l.stream), chunks);
    FramesOfAt(l.stream);
  }

  lemma FramesOfAt(st: seq<Item>)
    ensures forall k :: 0 <= k < |st| ==> FramesOf(st)[k] == ItemFrame(st[k])
  {
  }

  /** The frames numbered in S's history are the frames S's own bytes spell, however they were
      chunked, as long as no checksum was wrong. */
  lemma SourceFrames(c: Config, h: Hub, d: Dir, S: nat, chunks: seq<seq<Byte>>)
    requires ValidConfig(c) && Reachable(c, h) && S in PlaneAt(h, d).log && !PlaneAt(h, d).log[S].garbled
    requires Flatten(chunks) == PlaneAt(h, d).log[S].received
    ensures PlaneAt(h, d).log[S].handled <= Feed(chunks).frames
  {
    hide Reachable, StreamBytes, GoodAuths, EncodeAll, Feed, Parse, StreamOk;
    StreamFacts(c, h, if d.Forward? then Backend else Forward, S);
    var l := PlaneAt(h, d).log[S];
    var rest := l.received[|EncodeAll(l.handled)|..];
    assert l.received == EncodeAll(l.handled) + rest;
    ChunkingIndependent(chunks);
    ParseEncoded(l.handled, rest);
  }

  /** End to end. D's peer, reading any part of D's bytes in any chunks, pops frames each of which
      is an acknowledgement or a genuine business frame of some source session, with its command
      and, unless the receive queue's push was retried, its payload; and those of one source are in
      the order that source sent them, without repetition. All bytes give all frames. */
  lemma EndToEnd(c: Config, h: Hub, d: Dir, D: nat, chunks: seq<seq<Byte>>)
    requires ValidConfig(c) && Reachable(c, h) && D in FlowAt(h, d).dst.log
    requires Flatten(chunks) <= FlowAt(h, d).dst.log[D].sent
    ensures var f, st, got := FlowAt(h, d), FlowAt(h, d).dst.log[D].stream, Feed(chunks);
            && !got.bad && |got.frames| <= |st|
            && (forall k :: 0 <= k < |got.frames| ==> FrameExplained(f.src.log, f.dst.log[D], st[k], got.frames[k]))
            && (forall i, j :: 0 <= i < j < |got.frames| ==> InOrder(st[i], st[j]))
            && (Flatten(chunks) == EncodeAll(FramesOf(st)) ==> |got.frames| == |st|)
  {
    hide Reachable, Feed, Flatten, Genuine, ItemFrame, EncodeFrame;
    var f, st, got := FlowAt(h, d), FlowAt(h, d).dst.log[D].stream, Feed(chunks);
    PeerReads(c, h, d, D, chunks);
    forall k | 0 <= k < |got.frames|
      ensures FrameExplained(f.src.log, f.dst.log[D], st[k], got.frames[k])
    {
      if st[k].BizItem? {
        NoMisdelivery(c, h, d, D, k);
      }
    }
    forall i, j | 0 <= i < j < |got.frames|
      ensures InOrder(st[i], st[j])
    {
      if st[i].BizItem? && st[j].BizItem? && st[i].frame.meta.src == st[j].frame.meta.src {
        PerPairOrder(c, h, d, D, i, j);
      }
    }
  }

  /** The frame a peer popped is the encoded item, and a business item is genuine. */
  ghost predicate FrameExplained(src: Log, l: SessionLog, item: Item, got: Frame) {
    got == ItemFrame(item) && (item.BizItem? ==> Genuine(src, l, item.frame))
  }

  ghost predicate InOrder(a: Item, b: Item) {
    a.BizItem? && b.BizItem? && a.frame.meta.src == b.frame.meta.src ==> a.frame.meta.frameNo < b.frame.meta.frameNo
  }
}
