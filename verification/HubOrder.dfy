/** The order and conservation invariants over every run of the hub. */
module HubOrder {
  import opened Bytes
  import opened Wire
  import opened Routing
  import opened HubModel
  import opened HubInvariant
  import opened HubUpdate
  import opened HubConnSteps
  import opened HubLink
  import opened HubFlow
  import opened HubFlowSteps

  // ---------- source side of a plane action ----------

  /** Either S's reactor holds what it held, or it has just popped S's next frame and holds that. */
  ghost predicate SourceStep(s: Plane, t: Plane, S: nat) {
    || (PcProj(t, S) == PcProj(s, S) && Popped(s.log, S) <= Popped(t.log, S))
    || (PcProj(s, S) == [] && PcProj(t, S) == [Popped(s.log, S)] && Popped(t.log, S) == Popped(s.log, S) + 1)
  }

  lemma SourceSound(s: Plane, t: Plane, S: nat, pre: seq<nat>)
    requires SourceStep(s, t, S) && Sound(pre + PcProj(s, S), Popped(s.log, S))
    ensures Sound(pre + PcProj(t, S), Popped(t.log, S))
  {
    hide PcProj, Popped;
    if PcProj(t, S) == PcProj(s, S) {
      SoundRelax(pre + PcProj(s, S), Popped(s.log, S), Popped(t.log, S));
    } else {
      assert pre + [] == pre;
      SoundAppend(pre, Popped(s.log, S));
    }
  }

  lemma UpdateSource(s: Plane, r: nat, sid: nat, x: Session, l: SessionLog, pc: ReactorPc, S: nat)
    requires Has(s, r, sid) && !s.reactors[r].pc.Pushing? && s.log[sid].reactor == r && l.reactor == r
    requires |s.log[sid].handled| <= |l.handled|
    requires pc.Pushing? ==> && pc.msg.sid == sid && pc.msg.frameNo == |s.log[sid].handled|
                             && |l.handled| == |s.log[sid].handled| + 1
    ensures SourceStep(s, Update(s, r, sid, x, l, pc), S)
  {
  }

  lemma CloseSource(s: Plane, r: nat, sid: nat, S: nat)
    requires Has(s, r, sid)
    ensures PcProj(Close(s, r, sid), S) == PcProj(s, S) && Popped(Close(s, r, sid).log, S) == Popped(s.log, S)
  {
    hide RemoveSession;
  }

  lemma PerformSource(c: Config, s: Plane, r: nat, sid: nat, f: Frame, rest: seq<Byte>, S: nat)
    requires IsIdle(s, r) && Has(s, r, sid) && s.log[sid].reactor == r
    ensures SourceStep(s, Perform(c, s, r, sid, f, rest), S)
  {
    hide React, Subscribe, Unsubscribe, BindNid, Update, Close, PcProj, Popped;
    var x := s.reactors[r].sessions[sid].(fb := rest);
    var l := s.log[sid].(handled := s.log[sid].handled + [f]);
    match React(c, x.authed, f)
    case Login(who) =>
      TablesSource(s, BindNid(s.tables, who.nid, sid, r), S);
      UpdateSource(s.(tables := BindNid(s.tables, who.nid, sid, r)), r, sid,
                   x.(authed := true, gid := who.gid, nid := who.nid),
                   l.(auths := l.auths + [who], granted := l.granted + {AuthAck}), Acking(sid, AuthAck), S);
    case Sub(cmd) =>
      var t := Subscribe(s.tables, cmd, Subscriber(x.gid, sid, x.nid, r));
      TablesSource(s, t, S);
      UpdateSource(s.(tables := t), r, sid, x, l.(granted := l.granted + {SubAck(cmd)}), Acking(sid, SubAck(cmd)), S);
    case Unsub(cmd) =>
      var t := Unsubscribe(s.tables, cmd, sid);
      TablesSource(s, t, S);
      UpdateSource(s.(tables := t), r, sid, x, l.(granted := l.granted + {UnsubAck(cmd)}), Acking(sid, UnsubAck(cmd)),
                   S);
    case Keepalive =>
      UpdateSource(s, r, sid, x, l.(granted := l.granted + {KpaliveAck}), Acking(sid, KpaliveAck), S);
    case Ignore => UpdateSource(s, r, sid, x, l, Idle, S);
    case Kick =>
      UpdateSource(s, r, sid, x, l, Idle, S);
      UpdateHas(s, r, sid, x, l, Idle);
      CloseSource(Update(s, r, sid, x, l, Idle), r, sid, S);
    case Relay =>
      var m := Inbound(sid, r, x.gid, x.nid, f.typ, f.flag, f.payload, |l.handled| - 1, false);
      UpdateSource(s, r, sid, x, l, Pushing(m, 0), S);
  }

  lemma UpdateHas(s: Plane, r: nat, sid: nat, x: Session, l: SessionLog, pc: ReactorPc)
    requires Has(s, r, sid)
    ensures Has(Update(s, r, sid, x, l, pc), r, sid)
  {
  }

  /** Tables and queues do not matter at the source. */
  lemma TablesSource(s: Plane, t: Tables, S: nat)
    ensures PcProj(s.(tables := t), S) == PcProj(s, S) && Popped(s.(tables := t).log, S) == Popped(s.log, S)
  {
  }

  lemma EgressSource(s: Plane, e: Egress, S: nat)
    ensures PcProj(s.(egress := e), S) == PcProj(s, S) && Popped(s.(egress := e).log, S) == Popped(s.log, S)
  {
  }

  lemma AcceptSource(c: Config, src: Log, s: Plane, fd: int, r: nat, S: nat)
    requires PlaneInv(c, src, s) && CanAccept(c, s, fd, r)
    ensures SourceStep(s, Accept(s, fd, r), S)
  {
    hide LogsOk, FdsOk, ConnsOk, GrantsOk, LiveOk, TablesOk, EgressOk, FdOpen, AllHeld, IndexOk, MsgOk;
    AcceptGrows(c, src, s, fd, r);
    assert ReactorOk(c, s.log, r, s.reactors[r]);
  }

  lemma ConnPushSource(c: Config, s: Plane, S: nat)
    requires CanConnPush(s)
    ensures SourceStep(s, ConnPush(c, s), S)
  {
  }

  lemma IntakeSource(s: Plane, r: nat, S: nat)
    requires CanIntake(s, r)
    ensures SourceStep(s, Intake(s, r), S)
  {
  }

  lemma DrainSource(c: Config, src: Log, s: Plane, r: nat, S: nat)
    requires PlaneInv(c, src, s) && CanDrain(s, r)
    ensures SourceStep(s, Drain(s, r), S)
  {
    hide PlaneInv, PcProj, Popped, Update;
    var e, x := s.egress, s.egress.sendQ[r][0];
    var e' := e.(sendQ := e.sendQ[r := e.sendQ[r][1..]]);
    if Has(s, r, x.sid) && x.bytes != [] {
      Holds(c, src, s, r, x.sid);
      var y, l := s.reactors[r].sessions[x.sid], s.log[x.sid];
      EgressSource(s, e', S);
      UpdateSource(s.(egress := e'), r, x.sid, y.(outbuf := y.outbuf + x.bytes), l.(stream := l.stream + [BizItem(x)]),
                   Idle, S);
    } else {
      EgressSource(s, Drain(s, r).egress, S);
    }
  }

  /** Actions that change one session and pop no frame. */
  lemma SessionSource(c: Config, src: Log, s: Plane, a: PlaneAction, S: nat)
    requires PlaneInv(c, src, s) && PlaneEnabled(c, s, a) && (a.AReceive? || a.AAckAppend? || a.ASendSome?)
    ensures SourceStep(s, PlaneStep(c, s, a), S)
  {
    hide PlaneInv, PcProj, Popped, Update, Encode;
    match a
    case AReceive(r, sid, chunk) =>
      Holds(c, src, s, r, sid);
      var x, l := s.reactors[r].sessions[sid], s.log[sid];
      UpdateSource(s, r, sid, x.(fb := x.fb + chunk), l.(received := l.received + chunk), Idle, S);
    case AAckAppend(r) =>
      var sid := s.reactors[r].pc.sid;
      Holds(c, src, s, r, sid);
      var x, l := s.reactors[r].sessions[sid], s.log[sid];
      var i := AckItem(s.reactors[r].pc.ack, x.nid);
      UpdateSource(s, r, sid, x.(outbuf := x.outbuf + Encode(ItemFrame(i))), l.(stream := l.stream + [i]), Idle, S);
    case ASendSome(r, sid, n) =>
      Holds(c, src, s, r, sid);
      var x, l := s.reactors[r].sessions[sid], s.log[sid];
      UpdateSource(s, r, sid, x.(outbuf := x.outbuf[n..]), l.(sent := l.sent + x.outbuf[..n]), Idle, S);
  }

  lemma HandleSource(c: Config, src: Log, s: Plane, r: nat, sid: nat, S: nat)
    requires PlaneInv(c, src, s) && CanHandle(s, r, sid)
    ensures SourceStep(s, Handle(c, s, r, sid), S)
  {
    hide PlaneInv, Perform, Pop, Update, SourceStep;
    Holds(c, src, s, r, sid);
    var x, l := s.reactors[r].sessions[sid], s.log[sid];
    match Pop(x.fb)
    case Bad => UpdateSource(s, r, sid, x.(fb := []), l.(garbled := true), Idle, S);
    case Got(f, rest) => PerformSource(c, s, r, sid, f, rest, S);
  }

  /** Every plane action, seen from the source. */
  lemma PlaneSource(c: Config, src: Log, s: Plane, a: PlaneAction, S: nat)
    requires PlaneInv(c, src, s) && PlaneEnabled(c, s, a)
    ensures SourceStep(s, PlaneStep(c, s, a), S)
  {
    hide PlaneInv, DistPop, DistPush, CanAccept, Accept, ConnPush, Intake, Handle, Close, Drain, Receive, AckAppend,
         SendSome, PcProj, Popped;
    match a
    case AAccept(fd, r) => AcceptSource(c, src, s, fd, r, S);
    case AConnPush => ConnPushSource(c, s, S);
    case AIntake(r) => IntakeSource(s, r, S);
    case AReceive(_, _, _) => SessionSource(c, src, s, a, S);
    case AHandle(r, sid) => HandleSource(c, src, s, r, sid, S);
    case AAckAppend(_) => SessionSource(c, src, s, a, S);
    case ASendSome(_, _, _) => SessionSource(c, src, s, a, S);
    case AClose(r, sid) => CloseSource(s, r, sid, S);
    case ADrain(r) => DrainSource(c, src, s, r, S);
    case ADistPop => EgressSource(s, DistPop(s.egress), S);
    case ADistPush => EgressSource(s, DistPush(c, s.egress), S);
  }

  // ---------- link actions ----------

  lemma RecvPc(c: Config, s: Plane, link: Link, r: nat, S: nat)
    requires ValidConfig(c) && CanRecvPush(c, s, link, r)
    requires s.reactors[r].pc.msg.sid in s.log && s.log[s.reactors[r].pc.msg.sid].reactor == r
    ensures var m := s.reactors[r].pc.msg;
            && (S == m.sid ==> PcProj(s, S) == [m.frameNo])
            && PcProj(RecvPushPlane(c, s, link, r), S)
               == if S == m.sid && !RecvOutcome(c, s, link, r).Retry? then [] else PcProj(s, S)
  {
  }

  lemma RecvInbox(c: Config, s: Plane, link: Link, r: nat, S: nat, D: nat)
    requires ValidConfig(c) && CanRecvPush(c, s, link, r)
    ensures var m := s.reactors[r].pc.msg;
            Inbox(c, RecvPushLink(c, s, link, r), S, D)
            == Inbox(c, link, S, D) + if S == m.sid && RecvOutcome(c, s, link, r).Pushed? then [m.frameNo] else []
  {
    var pc := s.reactors[r].pc;
    var w := PickWorker(c, pc.msg.sid);
    InboxSnoc(link.recvQ[w], InboundAfterRetries(pc.msg, pc.attempt), S);
    hide InboxProj, WorkerProj;
    if w == PickWorker(c, S) && RecvOutcome(c, s, link, r).Pushed? {
      var k := if w < |link.workers| then WorkerProj(link.workers[w], S, D) else [];
      var q, one := InboxProj(link.recvQ[w], S), if pc.msg.sid == S then [pc.msg.frameNo] else [];
      assert k + (q + one) == k + q + one;
    } else {
      assert Inbox(c, link, S, D) + [] == Inbox(c, link, S, D);
    }
  }

  lemma PushingOwner(c: Config, peer: Log, s: Plane, r: nat)
    requires PlaneInv(c, peer, s) && r < |s.reactors| && s.reactors[r].pc.Pushing?
    ensures var m := s.reactors[r].pc.msg; m.sid in s.log && s.log[m.sid].reactor == r
  {
    hide LogsOk, FdsOk, ConnsOk, GrantsOk, LiveOk, TablesOk, EgressOk, IndexOk, MsgOk, SessionOk;
    assert ReactorOk(c, s.log, r, s.reactors[r]);
  }

  lemma RecvPushFollows(c: Config, peer: Log, head: seq<nat>, src: Plane, link: Link, r: nat, S: nat, D: nat)
    requires ValidConfig(c) && PlaneInv(c, peer, src) && CanRecvPush(c, src, link, r)
    requires Follows(c, head, src, link, S, D)
    ensures Follows(c, head, RecvPushPlane(c, src, link, r), RecvPushLink(c, src, link, r), S, D)
  {
    var src', link' := RecvPushPlane(c, src, link, r), RecvPushLink(c, src, link, r);
    assert src'.log == src.log;
    FollowsIs(c, head, src, link, S, D);
    PushingOwner(c, peer, src, r);
    RecvPc(c, src, link, r, S);
    RecvInbox(c, src, link, r, S, D);
    hide *;
    HandOver(head, Inbox(c, link, S, D), PcProj(src, S), Popped(src.log, S));
    FollowsIs(c, head, src', link', S, D);
  }

  lemma FollowsIs(c: Config, head: seq<nat>, src: Plane, link: Link, S: nat, D: nat)
    requires ValidConfig(c)
    ensures Follows(c, head, src, link, S, D) <==>
              Sound(head + (Inbox(c, link, S, D) + PcProj(src, S)), Popped(src.log, S))
  {
  }

  /** The last stage `z` moving into the stage before it, staying, or vanishing. */
  lemma HandOver(o: seq<nat>, b: seq<nat>, z: seq<nat>, n: nat)
    requires Sound(o + (b + z), n)
    ensures Sound(o + ((b + z) + []), n) && Sound(o + ((b + []) + z), n) && Sound(o + ((b + []) + []), n)
  {
    assert b + [] == b && (b + z) + [] == b + z;
    assert o + (b + z) == (o + b) + z + [] && (o + b) + [] == o + b;
    SoundWithout(o + b, z, [], n);
  }

  lemma WorkerPopFollows(c: Config, head: seq<nat>, src: Plane, link: Link, w: nat, S: nat, D: nat)
    requires ValidConfig(c) && CanWorkerPop(link, w) && Follows(c, head, src, link, S, D)
    ensures Follows(c, head, src, WorkerPop(link, w), S, D)
  {
    hide PcProj, Sound, Inbox, WorkerPop;
    WorkerPopInbox(c, link, w, S, D);
  }

  /** A popped message moves from the head of the worker's queue into its hand. */
  lemma WorkerPopInbox(c: Config, link: Link, w: nat, S: nat, D: nat)
    requires ValidConfig(c) && CanWorkerPop(link, w)
    ensures Inbox(c, WorkerPop(link, w), S, D) == Inbox(c, link, S, D)
  {
    hide PickWorker, InboxProj;
    InboxHead(link.recvQ[w], S);
  }

  lemma InboxHead(q: seq<Inbound>, S: nat)
    requires q != []
    ensures InboxProj(q, S) == (if q[0].sid == S then [q[0].frameNo] else []) + InboxProj(q[1..], S)
  {
  }

  /** A worker that turns to fewer recipients takes elements out of the pipe only. */
  lemma WorkerShrinks(c: Config, head: seq<nat>, src: Plane, link: Link, w: nat, link': Link, S: nat, D: nat)
    requires ValidConfig(c) && w < |link.workers| && Follows(c, head, src, link, S, D)
    requires w < |link'.workers| && link'.workers == link.workers[w := link'.workers[w]] && link'.recvQ == link.recvQ
    requires WorkerProj(link'.workers[w], S, D) == []
             || WorkerProj(link'.workers[w], S, D) == WorkerProj(link.workers[w], S, D)
    ensures Follows(c, head, src, link', S, D)
  {
    var k := link'.workers[w];
    hide PcProj, WorkerProj, InboxProj, Sound;
    if PickWorker(c, S) == w && WorkerProj(k, S, D) != WorkerProj(link.workers[w], S, D) {
      var x := WorkerProj(link.workers[w], S, D);
      var rest := (if w < |link.recvQ| then InboxProj(link.recvQ[w], S) else []);
      var b := rest + PcProj(src, S);
      assert head + (x + rest + PcProj(src, S)) == head + x + b;
      assert head + ([] + rest + PcProj(src, S)) == head + b;
      SoundWithout(head, x, b, Popped(src.log, S));
    }
  }

  lemma LookupFollows(c: Config, head: seq<nat>, src: Plane, link: Link, dir: Dir, t: Tables, w: nat, S: nat, D: nat)
    requires ValidConfig(c) && CanLookup(link, w) && Follows(c, head, src, link, S, D)
    ensures Follows(c, head, src, Lookup(dir, link, w, t), S, D)
  {
    hide Follows, Recipients;
    WorkerShrinks(c, head, src, link, w, Lookup(dir, link, w, t), S, D);
  }

  lemma AimsTail(ts: seq<Target>, D: nat)
    requires Distinct(ts) && ts != []
    ensures Aims(ts, D) <==> ts[0].sid == D || Aims(ts[1..], D)
    ensures ts[0].sid == D ==> !Aims(ts[1..], D)
  {
    if Aims(ts, D) && ts[0].sid != D {
      var i :| 0 <= i < |ts| && ts[i].sid == D;
      assert ts[1..][i - 1].sid == D;
    }
  }

  /** What a worker's push adds at the destination for the pair. */
  function Added(c: Config, link: Link, w: nat, e: Egress, S: nat, D: nat): seq<nat>
    requires CanWorkerPush(link, w)
  {
    var k := link.workers[w];
    if WorkerOutcome(c, link, w, e).Pushed? then One(MakeFrame(k.msg, k.published, k.todo[0], k.attempt), S, D) else []
  }

  /** Pushing moves a frame from the worker's list to the distribution queue. */
  lemma WorkerPushFollows(c: Config, head: seq<nat>, f: Flow, w: nat, S: nat, D: nat)
    requires ValidConfig(c) && CanWorkerPush(f.link, w) && LinkOk(c, f.src.log, f.dst.log, f.link)
    requires Follows(c, head, f.src, f.link, S, D)
    ensures Follows(c, head + Added(c, f.link, w, f.dst.egress, S, D), f.src,
                    WorkerPushLink(c, f.link, w, f.dst.egress), S, D)
  {
    var k, e := f.link.workers[w], f.dst.egress;
    assert WorkerOk(c, f.src.log, f.dst.log, w, k);
    if WorkerOutcome(c, f.link, w, e).Pushed? {
      PushedFollows(c, head, f.src, f.link, w, e, S, D);
    } else {
      hide Follows, LinkOk;
      assert head + [] == head;
      WorkerShrinks(c, head, f.src, f.link, w, WorkerPushLink(c, f.link, w, e), S, D);
    }
  }

  lemma PushedFollows(c: Config, head: seq<nat>, src: Plane, link: Link, w: nat, e: Egress, S: nat, D: nat)
    requires ValidConfig(c) && CanWorkerPush(link, w) && WorkerOutcome(c, link, w, e).Pushed?
    requires Distinct(link.workers[w].todo) && PickWorker(c, link.workers[w].msg.sid) == w
    requires Follows(c, head, src, link, S, D)
    ensures Follows(c, head + Added(c, link, w, e, S, D), src, WorkerPushLink(c, link, w, e), S, D)
  {
    var k := link.workers[w];
    var x := MakeFrame(k.msg, k.published, k.todo[0], k.attempt);
    var k' := WorkerPushLink(c, link, w, e).workers[w];
    PushedWorker(k, k', x, S, D);
    hide PcProj, InboxProj, WorkerProj, Sound, MakeFrame, One;
    assert head + [] == head;
    if PickWorker(c, S) == w {
      PushedRegroup(head, One(x, S, D), WorkerProj(k', S, D),
                    if w < |link.recvQ| then InboxProj(link.recvQ[w], S) else [], PcProj(src, S));
    }
  }

  lemma EnqueuedOut(s: Plane, x: Outbound, S: nat, D: nat)
    ensures Out(s.(egress := Enqueue(s.egress, x)), S, D) == Out(s, S, D) + One(x, S, D)
  {
    ProjSnoc(s.egress.distQ, x, S, D);
    hide Proj, Delivered, HandProj;
    var a := Delivered(StreamOf(s.log, D), S, D) + Proj(QueueOf(s.log, s.egress, D), S, D)
             + HandProj(s.egress.hand, S, D);
    assert a + (Proj(s.egress.distQ, S, D) + One(x, S, D)) == a + Proj(s.egress.distQ, S, D) + One(x, S, D);
  }

  lemma PushedWorker(k: WorkerPc, k': WorkerPc, x: Outbound, S: nat, D: nat)
    requires k.Fanout? && k.todo != [] && Distinct(k.todo)
    requires x == MakeFrame(k.msg, k.published, k.todo[0], k.attempt)
    requires k' == if |k.todo| == 1 then Free else k.(todo := k.todo[1..], attempt := 0)
    ensures One(x, S, D) + WorkerProj(k', S, D) == WorkerProj(k, S, D)
    ensures k.msg.sid != S ==> One(x, S, D) == []
  {
    AimsTail(k.todo, D);
  }

  lemma PushedRegroup(o: seq<nat>, one: seq<nat>, k: seq<nat>, q: seq<nat>, z: seq<nat>)
    ensures o + one + ((k + q) + z) == o + (((one + k) + q) + z)
  {
  }

  lemma PushedAccounted(s: Plane, x: Outbound, S: nat, D: nat)
    requires Accounted(s, S, D)
    ensures Accounted(s.(egress := Enqueue(s.egress, x)), S, D)
  {
    ProjSnoc(s.egress.enqueued, x, S, D);
    EnqueuedOut(s, x, S, D);
    hide Out, Proj, Drops;
  }

  // ---------- one direction under each kind of action ----------

  lemma LinkActionOrder(c: Config, dir: Dir, f: Flow, a: LinkAction, S: nat, D: nat)
    requires ValidConfig(c) && LinkEnabled(c, f, a)
    requires PlaneInv(c, f.dst.log, f.src) && LinkOk(c, f.src.log, f.dst.log, f.link)
    requires PairOk(c, f, S, D) && Accounted(f.dst, S, D)
    ensures PairOk(c, LinkStep(c, dir, f, a), S, D) && Accounted(LinkStep(c, dir, f, a).dst, S, D)
  {
    hide PlaneInv, LinkOk, Follows, Out, Proj, Accounted, Lookup, WorkerPop, RecvPushPlane, RecvPushLink,
         WorkerPushLink;
    var o, q := Out(f.dst, S, D), Proj(f.dst.egress.enqueued, S, D);
    match a
    case ARecvPush(r) =>
      RecvPushFollows(c, f.dst.log, o, f.src, f.link, r, S, D);
      RecvPushFollows(c, f.dst.log, q, f.src, f.link, r, S, D);
    case AWorkerPop(w) =>
      WorkerPopFollows(c, o, f.src, f.link, w, S, D);
      WorkerPopFollows(c, q, f.src, f.link, w, S, D);
    case ALookup(w) =>
      LookupFollows(c, o, f.src, f.link, dir, f.dst.tables, w, S, D);
      LookupFollows(c, q, f.src, f.link, dir, f.dst.tables, w, S, D);
    case AWorkerPush(w) =>
      WorkerPushFollows(c, o, f, w, S, D);
      WorkerPushFollows(c, q, f, w, S, D);
      WorkerPushHeads(c, f, w, S, D);
  }

  lemma WorkerPushHeads(c: Config, f: Flow, w: nat, S: nat, D: nat)
    requires CanWorkerPush(f.link, w) && Accounted(f.dst, S, D)
    ensures var d := f.dst.(egress := WorkerPushEgress(c, f.link, w, f.dst.egress));
            var add := Added(c, f.link, w, f.dst.egress, S, D);
            && Out(d, S, D) == Out(f.dst, S, D) + add
            && Proj(d.egress.enqueued, S, D) == Proj(f.dst.egress.enqueued, S, D) + add
            && Accounted(d, S, D)
  {
    hide Out, Proj, Accounted, One, MakeFrame;
    var k := f.link.workers[w];
    if WorkerOutcome(c, f.link, w, f.dst.egress).Pushed? {
      var x := MakeFrame(k.msg, k.published, k.todo[0], k.attempt);
      EnqueuedOut(f.dst, x, S, D);
      ProjSnoc(f.dst.egress.enqueued, x, S, D);
      PushedAccounted(f.dst, x, S, D);
    } else {
      assert f.dst.(egress := f.dst.egress) == f.dst;
      assert Out(f.dst, S, D) + [] == Out(f.dst, S, D);
      assert Proj(f.dst.egress.enqueued, S, D) + [] == Proj(f.dst.egress.enqueued, S, D);
    }
  }

  /** A plane action, for the direction the plane is the destination of. */
  lemma DestinationOrder(c: Config, f: Flow, a: PlaneAction, S: nat, D: nat)
    requires ValidConfig(c) && PlaneInv(c, f.src.log, f.dst) && PlaneEnabled(c, f.dst, a)
    requires PairOk(c, f, S, D) && Accounted(f.dst, S, D)
    ensures PairOk(c, f.(dst := PlaneStep(c, f.dst, a)), S, D) && Accounted(PlaneStep(c, f.dst, a), S, D)
  {
    hide PlaneInv, PlaneStep, PlaneEnabled, Out, Proj, Accounted, Tail, Popped, Sound;
    var t := PlaneStep(c, f.dst, a);
    PlaneSettled(c, f.src.log, f.dst, a, S, D);
    SettledSound(f.dst, t, S, D, Tail(c, f.src, f.link, S, D), Popped(f.src.log, S));
    SettledAccounted(f.dst, t, S, D);
  }

  /** A plane action, for the direction the plane is the source of. */
  lemma SourceOrder(c: Config, f: Flow, a: PlaneAction, S: nat, D: nat)
    requires ValidConfig(c) && PlaneInv(c, f.dst.log, f.src) && PlaneEnabled(c, f.src, a) && PairOk(c, f, S, D)
    ensures PairOk(c, f.(src := PlaneStep(c, f.src, a)), S, D)
  {
    hide PlaneInv, PlaneStep, PlaneEnabled, Follows, Out, Proj, SourceStep;
    PlaneSource(c, f.dst.log, f.src, a, S);
    SourceFollows(c, Out(f.dst, S, D), f.src, PlaneStep(c, f.src, a), f.link, S, D);
    SourceFollows(c, Proj(f.dst.egress.enqueued, S, D), f.src, PlaneStep(c, f.src, a), f.link, S, D);
  }

  lemma SourceFollows(c: Config, head: seq<nat>, s: Plane, t: Plane, link: Link, S: nat, D: nat)
    requires ValidConfig(c) && SourceStep(s, t, S) && Follows(c, head, s, link, S, D)
    ensures Follows(c, head, t, link, S, D)
  {
    hide Inbox, PcProj, Popped, Sound, SourceStep;
    var b := Inbox(c, link, S, D);
    assert head + (b + PcProj(s, S)) == (head + b) + PcProj(s, S);
    assert head + (b + PcProj(t, S)) == (head + b) + PcProj(t, S);
    SourceSound(s, t, S, head + b);
  }
}
