/** The way from a plane's reactors through its workers to the peer plane, and the
    base invariant of the whole hub over every run. */
module HubLink {
  import opened Wire
  import ImHeader
  import opened Routing
  import opened HubModel
  import opened HubInvariant
  import opened HubReactorSteps
  import opened HubPlaneSteps
  import opened HubConnSteps

  /** The message is sound and waits at the one worker its session is fixed to. */
  ghost predicate MsgHere(c: Config, src: Log, w: nat, m: Inbound)
    requires ValidConfig(c)
  {
    m.sid in src && MsgOk(c, src[m.sid], m) && PickWorker(c, m.sid) == w
  }

  ghost predicate Distinct(ts: seq<Target>) {
    forall i, j :: 0 <= i < j < |ts| ==> ts[i].sid != ts[j].sid
  }

  ghost predicate TargetsOk(src: Log, dst: Log, m: Inbound, published: bool, todo: seq<Target>) {
    Distinct(todo) && forall i :: 0 <= i < |todo| ==> FrameOk(src, dst, MakeFrame(m, published, todo[i], 0))
  }

  ghost predicate WorkerOk(c: Config, src: Log, dst: Log, w: nat, k: WorkerPc)
    requires ValidConfig(c)
  {
    match k
    case Free => true
    case Taken(m) => MsgHere(c, src, w, m)
    case Fanout(m, published, todo, n, _) =>
      MsgHere(c, src, w, m) && todo != [] && TargetsOk(src, dst, m, published, todo)
  }

  ghost predicate InboxOk(c: Config, src: Log, w: nat, q: seq<Inbound>)
    requires ValidConfig(c)
  {
    forall i :: 0 <= i < |q| ==> MsgHere(c, src, w, q[i])
  }

  ghost predicate LinkOk(c: Config, src: Log, dst: Log, link: Link)
    requires ValidConfig(c)
  {
    && |link.recvQ| == c.workers && |link.workers| == c.workers
    && (forall w :: 0 <= w < c.workers ==> InboxOk(c, src, w, link.recvQ[w]))
    && (forall w :: 0 <= w < c.workers ==> WorkerOk(c, src, dst, w, link.workers[w]))
  }

  // ---------- growth ----------

  lemma MsgHereGrows(c: Config, src: Log, src': Log, w: nat, m: Inbound)
    requires ValidConfig(c) && MsgHere(c, src, w, m) && LogGrows(src, src')
    ensures MsgHere(c, src', w, m)
  {
    hide GoodAuths;
    var l, l' := src[m.sid], src'[m.sid];
    assert l'.handled[m.frameNo] == l.handled[m.frameNo] && l'.handled[..m.frameNo] == l.handled[..m.frameNo];
  }

  lemma WorkerOkGrows(c: Config, src: Log, src': Log, dst: Log, dst': Log, w: nat, k: WorkerPc)
    requires ValidConfig(c) && WorkerOk(c, src, dst, w, k) && LogGrows(src, src') && LogGrows(dst, dst')
    ensures WorkerOk(c, src', dst', w, k)
  {
    hide MsgHere, FrameOk, MakeFrame;
    if !k.Free? {
      MsgHereGrows(c, src, src', w, k.msg);
    }
    if k.Fanout? {
      forall i | 0 <= i < |k.todo|
        ensures FrameOk(src', dst', MakeFrame(k.msg, k.published, k.todo[i], 0))
      {
        FrameOkGrows(src, src', dst, dst', MakeFrame(k.msg, k.published, k.todo[i], 0));
      }
    }
  }

  lemma LinkOkGrows(c: Config, src: Log, src': Log, dst: Log, dst': Log, link: Link)
    requires ValidConfig(c) && LinkOk(c, src, dst, link) && LogGrows(src, src') && LogGrows(dst, dst')
    ensures LinkOk(c, src', dst', link)
  {
    hide MsgHere, WorkerOk;
    forall w | 0 <= w < c.workers
      ensures InboxOk(c, src', w, link.recvQ[w]) && WorkerOk(c, src', dst', w, link.workers[w])
    {
      assert InboxOk(c, src, w, link.recvQ[w]);
      forall i | 0 <= i < |link.recvQ[w]|
        ensures MsgHere(c, src', w, link.recvQ[w][i])
      {
        MsgHereGrows(c, src, src', w, link.recvQ[w][i]);
      }
      WorkerOkGrows(c, src, src', dst, dst', w, link.workers[w]);
    }
  }

  // ---------- link actions ----------

  lemma RecvPushLinkKeeps(c: Config, peer: Log, src: Plane, dst: Log, link: Link, r: nat)
    requires ValidConfig(c) && PlaneInv(c, peer, src) && LinkOk(c, src.log, dst, link) && CanRecvPush(c, src, link, r)
    ensures LinkOk(c, src.log, dst, RecvPushLink(c, src, link, r))
  {
    hide WorkerOk, LogsOk, FdsOk, ConnsOk, GrantsOk, LiveOk, TablesOk, EgressOk, AllHeld, IndexOk, GoodAuths;
    var pc := src.reactors[r].pc;
    assert ReactorOk(c, src.log, r, src.reactors[r]);
    assert MsgHere(c, src.log, PickWorker(c, pc.msg.sid), InboundAfterRetries(pc.msg, pc.attempt));
    hide MsgHere;
    assert InboxOk(c, src.log, PickWorker(c, pc.msg.sid), link.recvQ[PickWorker(c, pc.msg.sid)]);
  }

  lemma WorkerPopKeeps(c: Config, src: Log, dst: Log, link: Link, w: nat)
    requires ValidConfig(c) && LinkOk(c, src, dst, link) && CanWorkerPop(link, w)
    ensures LinkOk(c, src, dst, WorkerPop(link, w))
  {
    hide MsgHere, TargetsOk;
    assert InboxOk(c, src, w, link.recvQ[w]);
  }

  /** No popped frame has a payload the 32-bit length field cannot hold. */
  ghost predicate AllLogsFit(src: Log) {
    forall sid :: sid in src ==> AllFit(src[sid].handled)
  }

  /** The frame for a subscriber found in the tables. */
  lemma PublishedFrameOk(c: Config, src: Log, dst: Log, w: nat, m: Inbound, sub: Subscriber)
    requires ValidConfig(c) && MsgHere(c, src, w, m) && AllLogsFit(src) && SubOk(dst, m.typ, sub)
    ensures FrameOk(src, dst, MakeFrame(m, true, Target(sub.sid, sub.reactor, sub.nid), 0))
  {
    hide EncodeFrame, GoodAuths;
  }

  /** The frame for the session a downlink message's IM header names. */
  lemma DirectFrameOk(c: Config, src: Log, dst: Log, w: nat, m: Inbound, route: NidRoute)
    requires ValidConfig(c) && MsgHere(c, src, w, m) && AllLogsFit(src)
    requires ImHeader.ReadDestNid(m.payload) != 0 && RouteOk(dst, ImHeader.ReadDestNid(m.payload), route)
    ensures FrameOk(src, dst, MakeFrame(m, false, Target(route.sid, route.reactor, ImHeader.ReadDestNid(m.payload)), 0))
  {
    hide EncodeFrame, GoodAuths;
  }

  lemma RecipientsOk(c: Config, src: Log, dst: Log, w: nat, m: Inbound, dir: Dir, t: Tables)
    requires ValidConfig(c) && MsgHere(c, src, w, m) && AllLogsFit(src) && TablesOk(dst, t)
    ensures TargetsOk(src, dst, m, dir.Forward?, Recipients(dir, t, m))
  {
    hide MsgHere, SubOk, RouteOk, FrameOk, MakeFrame;
    if dir.Forward? {
      var list := FindSubscribers(t, m.typ);
      assert ListOk(dst, m.typ, list);
      forall i | 0 <= i < |list|
        ensures FrameOk(src, dst, MakeFrame(m, true, Targets(list)[i], 0))
      {
        PublishedFrameOk(c, src, dst, w, m, list[i]);
      }
    } else {
      var dest := ImHeader.ReadDestNid(m.payload);
      if dest != 0 && FindNidRoute(t, dest).Some? {
        DirectFrameOk(c, src, dst, w, m, t.nids[dest]);
      }
    }
  }

  lemma LookupKeeps(c: Config, src: Log, dst: Log, link: Link, w: nat, dir: Dir, t: Tables)
    requires ValidConfig(c) && LinkOk(c, src, dst, link) && CanLookup(link, w) && AllLogsFit(src) && TablesOk(dst, t)
    ensures LinkOk(c, src, dst, Lookup(dir, link, w, t))
  {
    hide MsgHere, TargetsOk, InboxOk, TablesOk, Recipients;
    assert WorkerOk(c, src, dst, w, link.workers[w]);
    RecipientsOk(c, src, dst, w, link.workers[w].msg, dir, t);
  }

  lemma TargetsTail(src: Log, dst: Log, m: Inbound, published: bool, todo: seq<Target>)
    requires TargetsOk(src, dst, m, published, todo) && todo != []
    ensures TargetsOk(src, dst, m, published, todo[1..])
  {
    hide FrameOk, MakeFrame;
  }

  lemma WorkerPushLinkKeeps(c: Config, src: Log, dst: Log, link: Link, w: nat, e: Egress)
    requires ValidConfig(c) && LinkOk(c, src, dst, link) && CanWorkerPush(link, w)
    ensures LinkOk(c, src, dst, WorkerPushLink(c, link, w, e))
  {
    hide MsgHere, TargetsOk, InboxOk;
    assert WorkerOk(c, src, dst, w, link.workers[w]);
    TargetsTail(src, dst, link.workers[w].msg, link.workers[w].published, link.workers[w].todo);
  }

  lemma WorkerPushEgressKeeps(c: Config, src: Log, dst: Log, link: Link, w: nat, e: Egress)
    requires ValidConfig(c) && LinkOk(c, src, dst, link) && CanWorkerPush(link, w) && EgressOk(c, src, dst, e)
    ensures EgressOk(c, src, dst, WorkerPushEgress(c, link, w, e))
  {
    hide MsgHere, InboxOk, DropOk, SendQOk, FrameOk, AfterRetries;
    var k := link.workers[w];
    assert WorkerOk(c, src, dst, w, k);
    var x := MakeFrame(k.msg, k.published, k.todo[0], 0);
    assert FrameOk(src, dst, x);
    FirstAttempt(k.msg, k.published, k.todo[0], k.attempt);
    AfterRetriesOk(src, dst, x, k.attempt);
  }

  lemma FirstAttempt(m: Inbound, published: bool, t: Target, attempt: nat)
    ensures MakeFrame(m, published, t, attempt) == AfterRetries(MakeFrame(m, published, t, 0), attempt)
  {
  }

  // ---------- one plane action ----------

  lemma PlaneStepKeeps(c: Config, src: Log, s: Plane, a: PlaneAction)
    requires PlaneInv(c, src, s) && PlaneEnabled(c, s, a)
    ensures PlaneInv(c, src, PlaneStep(c, s, a)) && LogGrows(s.log, PlaneStep(c, s, a).log)
  {
    hide PlaneInv, LogGrows, Accept, ConnPush, Intake, Receive, Handle, AckAppend, SendSome, Close, Drain;
    match a
    case AAccept(fd, r) => AcceptKeeps(c, src, s, fd, r);
    case AConnPush => ConnPushKeeps(c, src, s);
    case AIntake(r) => IntakeKeeps(c, src, s, r);
    case AReceive(r, sid, chunk) => ReceiveKeeps(c, src, s, r, sid, chunk);
    case AHandle(r, sid) => HandleKeeps(c, src, s, r, sid);
    case AAckAppend(r) => AckAppendKeeps(c, src, s, r);
    case ASendSome(r, sid, n) => SendSomeKeeps(c, src, s, r, sid, n);
    case AClose(r, sid) => CloseKeeps(c, src, s, r, sid);
    case ADrain(r) => DrainKeeps(c, src, s, r);
    case ADistPop => DistStepKeeps(c, src, s, a);
    case ADistPush => DistStepKeeps(c, src, s, a);
  }

  lemma DistStepKeeps(c: Config, src: Log, s: Plane, a: PlaneAction)
    requires PlaneInv(c, src, s) && PlaneEnabled(c, s, a) && (a.ADistPop? || a.ADistPush?)
    ensures PlaneInv(c, src, PlaneStep(c, s, a)) && LogGrows(s.log, PlaneStep(c, s, a).log)
  {
    hide FdsOk, ReactorsOk, ConnsOk, GrantsOk, LiveOk, TablesOk, EgressOk, StreamOk, GoodAuths, StreamBytes;
    LogGrowsRefl(s.log);
    if a.ADistPop? {
      DistPopKeeps(c, src, s.log, s.egress);
    } else {
      DistPushKeeps(c, src, s.log, s.egress);
    }
  }

  // ---------- the whole hub ----------

  ghost predicate HubInv(c: Config, h: Hub)
    requires ValidConfig(c)
  {
    && PlaneInv(c, h.backend.log, h.forward) && PlaneInv(c, h.forward.log, h.backend)
    && LinkOk(c, h.forward.log, h.backend.log, h.up) && LinkOk(c, h.backend.log, h.forward.log, h.down)
  }

  lemma InitPlaneOk(c: Config, src: Log)
    ensures PlaneInv(c, src, InitPlane(c))
  {
  }

  lemma InitOk(c: Config)
    requires ValidConfig(c)
    ensures HubInv(c, Init(c))
  {
    hide PlaneInv;
    InitPlaneOk(c, map[]);
  }

  lemma PlaneLogsFit(c: Config, src: Log, s: Plane)
    requires PlaneInv(c, src, s)
    ensures AllLogsFit(s.log)
  {
    hide StreamOk, FdsOk, ReactorsOk, ConnsOk, GrantsOk, LiveOk, TablesOk, EgressOk, AllFit, GoodAuths, StreamBytes;
  }

  lemma OnPlaneKeeps(c: Config, h: Hub, d: Dir, p: PlaneAction)
    requires ValidConfig(c) && HubInv(c, h) && PlaneEnabled(c, PlaneAt(h, d), p)
    ensures HubInv(c, Step(c, h, OnPlane(d, p)))
  {
    hide PlaneInv, LinkOk, PlaneStep, PlaneEnabled;
    var s, other := PlaneAt(h, d), if d.Forward? then h.backend else h.forward;
    var s' := PlaneStep(c, s, p);
    PlaneStepKeeps(c, other.log, s, p);
    PeerGrows(c, s.log, s'.log, other);
    LogGrowsRefl(other.log);
    if d.Forward? {
      LinkOkGrows(c, s.log, s'.log, other.log, other.log, h.up);
      LinkOkGrows(c, other.log, other.log, s.log, s'.log, h.down);
    } else {
      LinkOkGrows(c, s.log, s'.log, other.log, other.log, h.down);
      LinkOkGrows(c, other.log, other.log, s.log, s'.log, h.up);
    }
  }

  /** One direction's invariant under one of its link actions. */
  lemma LinkStepKeeps(c: Config, dir: Dir, f: Flow, a: LinkAction)
    requires ValidConfig(c) && LinkEnabled(c, f, a)
    requires PlaneInv(c, f.dst.log, f.src) && PlaneInv(c, f.src.log, f.dst) && LinkOk(c, f.src.log, f.dst.log, f.link)
    ensures var f' := LinkStep(c, dir, f, a);
            && f'.src.log == f.src.log && f'.dst.log == f.dst.log
            && PlaneInv(c, f.dst.log, f'.src) && PlaneInv(c, f.src.log, f'.dst)
            && LinkOk(c, f.src.log, f.dst.log, f'.link)
  {
    hide PlaneInv, LinkOk, Lookup, WorkerPop, WorkerPushLink, WorkerPushEgress, RecvPushLink;
    match a
    case ARecvPush(r) =>
      RecvPushKeeps(c, f.dst.log, f.src, f.link, r);
      RecvPushLinkKeeps(c, f.dst.log, f.src, f.dst.log, f.link, r);
    case AWorkerPop(w) => WorkerPopKeeps(c, f.src.log, f.dst.log, f.link, w);
    case ALookup(w) =>
      PlaneLogsFit(c, f.dst.log, f.src);
      PlaneTables(c, f.src.log, f.dst);
      LookupKeeps(c, f.src.log, f.dst.log, f.link, w, dir, f.dst.tables);
    case AWorkerPush(w) =>
      WorkerPushLinkKeeps(c, f.src.log, f.dst.log, f.link, w, f.dst.egress);
      PlaneEgress(c, f.src.log, f.dst);
      WorkerPushEgressKeeps(c, f.src.log, f.dst.log, f.link, w, f.dst.egress);
      WithEgress(c, f.src.log, f.dst, WorkerPushEgress(c, f.link, w, f.dst.egress));
  }

  lemma PlaneEgress(c: Config, src: Log, s: Plane)
    requires PlaneInv(c, src, s)
    ensures EgressOk(c, src, s.log, s.egress)
  {
  }

  lemma StepKeeps(c: Config, h: Hub, a: Action)
    requires ValidConfig(c) && HubInv(c, h) && Enabled(c, h, a)
    ensures HubInv(c, Step(c, h, a))
  {
    hide PlaneInv, LinkOk, PlaneStep, PlaneEnabled, LinkStep, LinkEnabled;
    match a
    case OnPlane(d, p) => OnPlaneKeeps(c, h, d, p);
    case OnLink(d, k) => LinkStepKeeps(c, d, FlowAt(h, d), k);
  }
}
