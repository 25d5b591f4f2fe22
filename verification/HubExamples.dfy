/** Concrete runs of the hub, with one reactor, one worker and queues of one place. They show that
    the two surprising outcomes are reached by inputs a client can send: a route that outlives its
    session, and a payload lost to a retried push. */
module HubExamples {
  import opened Bytes
  import opened Wire
  import Auth
  import ImHeader
  import opened Routing
  import opened HubModel

  const C: Config := Config(1, 1, 1, [], [])

  // ---------- planes with one session ----------

  const NO_FRAMES: Egress := Egress([], None, [[]], [], [])

  /** A plane whose only session has id 1. */
  function Solo(x: Session, l: SessionLog, t: Tables, e: Egress, pc: ReactorPc): Plane {
    Plane(2, Waiting, [[]], [Reactor(map[1 := x], map[x.fd := 1], pc)], t, e, map[1 := l])
  }

  lemma UpdateSolo(x: Session, l: SessionLog, t: Tables, e: Egress, pc: ReactorPc, x': Session, l': SessionLog,
                   pc': ReactorPc)
    requires x'.fd == x.fd
    ensures Update(Solo(x, l, t, e, pc), 0, 1, x', l', pc') == Solo(x', l', t, e, pc')
  {
    assert map[1 := x][1 := x'] == map[1 := x'];
    assert map[1 := l][1 := l'] == map[1 := l'];
  }

  // ---------- one action more ----------

  lemma Then(h: Hub, a: Action)
    requires Reachable(C, h) && Enabled(C, h, a)
    ensures Reachable(C, Step(C, h, a))
  {
    hide Enabled, Step;
    var actions :| Run(C, actions) == Some(h);
    assert (actions + [a])[..|actions|] == actions;
    assert Run(C, actions + [a]) == Some(Step(C, h, a));
  }

  lemma ThenPlane(h: Hub, d: Dir, a: PlaneAction)
    requires Reachable(C, h) && PlaneEnabled(C, PlaneAt(h, d), a)
    ensures Reachable(C, WithPlane(h, d, PlaneStep(C, PlaneAt(h, d), a)))
  {
    hide Reachable, PlaneEnabled, PlaneStep;
    Then(h, OnPlane(d, a));
  }

  // ---------- connecting ----------

  lemma InitIs()
    ensures InitPlane(C) == Plane(1, Waiting, [[]], [Reactor(map[], map[], Idle)], EMPTY, NO_FRAMES, map[])
    ensures Reachable(C, Init(C))
  {
    assert Run(C, []) == Some(Init(C));
  }

  lemma ConnectSteps(fd: int)
    ensures var s := InitPlane(C);
            && CanAccept(C, s, fd, 0) && CanConnPush(Accept(s, fd, 0)) && CanIntake(ConnPush(C, Accept(s, fd, 0)), 0)
            && Intake(ConnPush(C, Accept(s, fd, 0)), 0)
               == Solo(Session(fd, false, 0, 0, [], []), NewLog(0, fd), EMPTY, NO_FRAMES, Idle)
  {
    InitIs();
    var s := InitPlane(C);
    var s1 := Accept(s, fd, 0);
    assert s1 == Plane(2, Holding(NewConn(fd, 1), 0), [[]], s.reactors, EMPTY, NO_FRAMES, map[1 := NewLog(0, fd)]);
    var conn := NewConn(fd, 1);
    var s2 := ConnPush(C, s1);
    assert s1.connQ[0] + [conn] == [conn] && s1.connQ[0 := [conn]] == [[conn]];
    assert s2 == s1.(listener := Waiting, connQ := [[conn]]);
    var R := Reactor(map[1 := Session(fd, false, 0, 0, [], [])], map[fd := 1], Idle);
    assert [conn][1..] == [] && s2.connQ[0 := []] == [[]] && s2.reactors[0 := R] == [R];
  }

  /** A client connects to a plane nobody has used yet. */
  lemma Connected(h: Hub, d: Dir, fd: int) returns (h': Hub)
    requires Reachable(C, h) && PlaneAt(h, d) == InitPlane(C)
    ensures Reachable(C, h')
    ensures h' == WithPlane(h, d, Solo(Session(fd, false, 0, 0, [], []), NewLog(0, fd), EMPTY, NO_FRAMES, Idle))
  {
    hide Reachable, CanAccept, Accept, ConnPush, Intake, InitPlane, Solo;
    ConnectSteps(fd);
    ThenPlane(h, d, AAccept(fd, 0));
    h' := WithPlane(h, d, Accept(InitPlane(C), fd, 0));
    ThenPlane(h', d, AConnPush);
    h' := WithPlane(h', d, ConnPush(C, PlaneAt(h', d)));
    ThenPlane(h', d, AIntake(0));
    h' := WithPlane(h', d, Intake(PlaneAt(h', d), 0));
  }

  // ---------- one frame from the client ----------

  /** The plane when the bytes of a frame have arrived. */
  lemma ReceiveSolo(x: Session, l: SessionLog, t: Tables, e: Egress, f: Frame)
    requires x.fb == [] && Fits(f)
    ensures var s, b := Solo(x, l, t, e, Idle), Encode(f);
            var s' := Solo(x.(fb := b), l.(received := l.received + b), t, e, Idle);
            && IsIdle(s, 0) && Has(s, 0, 1) && Receive(s, 0, 1, b) == s'
            && CanHandle(s', 0, 1) && Handle(C, s', 0, 1) == Perform(C, s', 0, 1, f, [])
  {
    hide Pop, Perform, Encode;
    var b := Encode(f);
    assert x.fb + b == b && b + [] == b;
    PopEncoded(f, []);
    UpdateSolo(x, l, t, e, Idle, x.(fb := b), l.(received := l.received + b), Idle);
  }

  /** A client sends a frame and the reactor handles it. */
  lemma Handled(h: Hub, d: Dir, x: Session, l: SessionLog, t: Tables, e: Egress, f: Frame) returns (h': Hub)
    requires Reachable(C, h) && PlaneAt(h, d) == Solo(x, l, t, e, Idle) && x.fb == [] && Fits(f)
    ensures Reachable(C, h')
    ensures var s := Solo(x.(fb := Encode(f)), l.(received := l.received + Encode(f)), t, e, Idle);
            Has(s, 0, 1) && h' == WithPlane(h, d, Perform(C, s, 0, 1, f, []))
  {
    hide Reachable, Solo, Perform, Encode, Receive, Handle, Pop;
    ReceiveSolo(x, l, t, e, f);
    ThenPlane(h, d, AReceive(0, 1, Encode(f)));
    h' := WithPlane(h, d, Receive(PlaneAt(h, d), 0, 1, Encode(f)));
    ThenPlane(h', d, AHandle(0, 1));
    h' := WithPlane(h', d, Handle(C, PlaneAt(h', d), 0, 1));
  }

  // ---------- logging in ----------

  /** An AUTH_REQ frame with empty user and password, which is what `C` asks for. */
  function LoginFrame(nid: U32): Frame {
    Frame(Auth.AUTH_REQ, nid, FLAG_SYS,
          Auth.PayloadBytes(Auth.AuthPayload(0, Auth.Padded([], Auth.USER_LEN), Auth.Padded([], Auth.PASS_LEN), nid)))
  }

  lemma LoginAccepted(nid: U32, authed: bool)
    ensures Fits(LoginFrame(nid)) && React(C, authed, LoginFrame(nid)) == Reaction.Login(Identity(0, nid))
  {
    var p := Auth.AuthPayload(0, Auth.Padded([], Auth.USER_LEN), Auth.Padded([], Auth.PASS_LEN), nid);
    Auth.DecodeEncoded(p, []);
    assert Auth.PayloadBytes(p) + [] == Auth.PayloadBytes(p);
    Auth.CStringPadded([], Auth.USER_LEN);
    Auth.CStringPadded([], Auth.PASS_LEN);
    hide Auth.PayloadBytes, Auth.DecodeAuthPayload, Auth.CString, Auth.Padded;
    assert Auth.CredentialsMatch([], [], p);
  }

  function AckBytes(a: Ack, nid: U32): seq<Byte> {
    Encode(ItemFrame(AckItem(a, nid)))
  }

  lemma LoginSolo(x: Session, l: SessionLog, t: Tables, e: Egress, nid: U32)
    ensures var f := LoginFrame(nid);
            var s := Solo(x, l, t, e, Idle);
            var x1 := x.(fb := [], authed := true, gid := 0, nid := nid);
            var l1 := l.(handled := l.handled + [f], auths := l.auths + [Identity(0, nid)],
                         granted := l.granted + {AuthAck});
            && Has(s, 0, 1)
            && Perform(C, s, 0, 1, f, []) == Solo(x1, l1, BindNid(t, nid, 1, 0), e, Acking(1, AuthAck))
  {
    hide React, LoginFrame, BindNid;
    LoginAccepted(nid, x.authed);
    var f := LoginFrame(nid);
    var x1 := x.(fb := [], authed := true, gid := 0, nid := nid);
    var l1 := l.(handled := l.handled + [f], auths := l.auths + [Identity(0, nid)], granted := l.granted + {AuthAck});
    UpdateSolo(x, l, BindNid(t, nid, 1, 0), e, Idle, x1, l1, Acking(1, AuthAck));
  }

  lemma AckSolo(x: Session, l: SessionLog, t: Tables, e: Egress, a: Ack)
    ensures var s := Solo(x, l, t, e, Acking(1, a));
            && CanAckAppend(s, 0)
            && AckAppend(s, 0) == Solo(x.(outbuf := x.outbuf + AckBytes(a, x.nid)),
                                       l.(stream := l.stream + [AckItem(a, x.nid)]), t, e, Idle)
  {
    hide Encode, ItemFrame;
    UpdateSolo(x, l, t, e, Acking(1, a), x.(outbuf := x.outbuf + AckBytes(a, x.nid)),
               l.(stream := l.stream + [AckItem(a, x.nid)]), Idle);
  }

  function LoggedIn(x: Session, nid: U32): Session {
    x.(fb := [], authed := true, gid := 0, nid := nid, outbuf := x.outbuf + AckBytes(AuthAck, nid))
  }

  function LogOfLogin(l: SessionLog, nid: U32): SessionLog {
    l.(received := l.received + Encode(LoginFrame(nid)), handled := l.handled + [LoginFrame(nid)],
       auths := l.auths + [Identity(0, nid)], granted := l.granted + {AuthAck},
       stream := l.stream + [AckItem(AuthAck, nid)])
  }

  lemma LogsIn(h: Hub, d: Dir, x: Session, l: SessionLog, t: Tables, e: Egress, nid: U32) returns (h': Hub)
    requires Reachable(C, h) && PlaneAt(h, d) == Solo(x, l, t, e, Idle) && x.fb == []
    ensures Reachable(C, h')
    ensures h' == WithPlane(h, d, Solo(LoggedIn(x, nid), LogOfLogin(l, nid), BindNid(t, nid, 1, 0), e, Idle))
  {
    hide Reachable, Solo, Encode, LoginFrame, BindNid, Perform, AckAppend, ItemFrame;
    LoginAccepted(nid, x.authed);
    h' := Handled(h, d, x, l, t, e, LoginFrame(nid));
    var x0, l0 := x.(fb := Encode(LoginFrame(nid))), l.(received := l.received + Encode(LoginFrame(nid)));
    LoginSolo(x0, l0, t, e, nid);
    var x1 := x.(fb := [], authed := true, gid := 0, nid := nid);
    var l1 := l0.(handled := l.handled + [LoginFrame(nid)], auths := l.auths + [Identity(0, nid)],
                  granted := l.granted + {AuthAck});
    AckSolo(x1, l1, BindNid(t, nid, 1, 0), e, AuthAck);
    ThenPlane(h', d, AAckAppend(0));
    h' := WithPlane(h', d, AckAppend(PlaneAt(h', d), 0));
  }

  // ---------- a route that outlives its session ----------

  lemma CloseSolo(x: Session, l: SessionLog, t: Tables, e: Egress)
    requires x.authed
    ensures var s := Solo(x, l, t, e, Idle);
            && IsIdle(s, 0) && Has(s, 0, 1)
            && Close(s, 0, 1).tables == RemoveSession(t, 1, x.nid)
            && 1 in Close(s, 0, 1).log && Close(s, 0, 1).log[1].closed
  {
    hide RemoveSession;
  }

  /** A client logs in under node id 1, then under node id 2, and goes away: node id 1 still routes
      to the closed session. */
  lemma StaleRouteRun() returns (h: Hub)
    ensures Reachable(C, h)
    ensures var s := h.forward;
            1 in s.tables.nids && s.tables.nids[1] == NidRoute(1, 0) && 1 in s.log && s.log[1].closed
  {
    hide Reachable, Solo, LoggedIn, LogOfLogin, InitPlane, Close;
    InitIs();
    h := Connected(Init(C), Forward, 3);
    var x, l := Session(3, false, 0, 0, [], []), NewLog(0, 3);
    h := LogsIn(h, Forward, x, l, EMPTY, NO_FRAMES, 1);
    var x1, l1, t1 := LoggedIn(x, 1), LogOfLogin(l, 1), BindNid(EMPTY, 1, 1, 0);
    assert x1.fb == [] by { LoginFields(x, 1); }
    h := LogsIn(h, Forward, x1, l1, t1, NO_FRAMES, 2);
    var x2, l2, t2 := LoggedIn(x1, 2), LogOfLogin(l1, 2), BindNid(t1, 2, 1, 0);
    LoginFields(x1, 2);
    CloseSolo(x2, l2, t2, NO_FRAMES);
    ThenPlane(h, Forward, AClose(0, 1));
    h := WithPlane(h, Forward, Close(h.forward, 0, 1));
  }

  lemma LoginFields(x: Session, nid: U32)
    ensures var y := LoggedIn(x, nid); y.fb == [] && y.authed && y.gid == 0 && y.nid == nid && y.fd == x.fd
  {
    hide AckBytes;
  }

  // ---------- subscribing ----------

  function SubFrame(cmd: U32): Frame {
    Frame(SUB_REQ, 0, FLAG_SYS, Be32(cmd))
  }

  lemma SubAccepted(cmd: U32)
    ensures Fits(SubFrame(cmd)) && React(C, true, SubFrame(cmd)) == Reaction.Sub(cmd)
  {
    Be32Inverse(cmd);
    assert Be32(cmd)[..4] == Be32(cmd);
    hide Be32, FromBe32;
  }

  lemma SubSolo(x: Session, l: SessionLog, t: Tables, e: Egress, cmd: U32)
    requires x.authed
    ensures var s := Solo(x, l, t, e, Idle);
            && Has(s, 0, 1)
            && Perform(C, s, 0, 1, SubFrame(cmd), [])
               == Solo(x.(fb := []), l.(handled := l.handled + [SubFrame(cmd)], granted := l.granted + {SubAck(cmd)}),
                       Subscribe(t, cmd, Subscriber(x.gid, 1, x.nid, 0)), e, Acking(1, SubAck(cmd)))
  {
    hide React, SubFrame, Subscribe;
    SubAccepted(cmd);
    UpdateSolo(x, l, Subscribe(t, cmd, Subscriber(x.gid, 1, x.nid, 0)), e, Idle, x.(fb := []),
               l.(handled := l.handled + [SubFrame(cmd)], granted := l.granted + {SubAck(cmd)}),
                 Acking(1, SubAck(cmd)));
  }

  lemma Subscribes(h: Hub, d: Dir, x: Session, l: SessionLog, t: Tables, e: Egress, cmd: U32)
    returns (h': Hub, x': Session, l': SessionLog)
    requires Reachable(C, h) && PlaneAt(h, d) == Solo(x, l, t, e, Idle) && x.fb == [] && x.authed
    ensures Reachable(C, h')
    ensures h' == WithPlane(h, d, Solo(x', l', Subscribe(t, cmd, Subscriber(x.gid, 1, x.nid, 0)), e, Idle))
    ensures x' == x.(outbuf := x.outbuf + AckBytes(SubAck(cmd), x.nid)) && |l'.handled| == |l.handled| + 1
  {
    hide Reachable, Solo, Encode, SubFrame, Subscribe, Perform, AckAppend, AckBytes;
    SubAccepted(cmd);
    h' := Handled(h, d, x, l, t, e, SubFrame(cmd));
    var x0, l0 := x.(fb := Encode(SubFrame(cmd))), l.(received := l.received + Encode(SubFrame(cmd)));
    SubSolo(x0, l0, t, e, cmd);
    var l1 := l0.(handled := l.handled + [SubFrame(cmd)], granted := l.granted + {SubAck(cmd)});
    AckSolo(x0.(fb := []), l1, Subscribe(t, cmd, Subscriber(x.gid, 1, x.nid, 0)), e, SubAck(cmd));
    ThenPlane(h', d, AAckAppend(0));
    x' := x0.(fb := [], outbuf := x.outbuf + AckBytes(SubAck(cmd), x.nid));
    l' := l1.(stream := l.stream + [AckItem(SubAck(cmd), x.nid)]);
    h' := WithPlane(h', d, AckAppend(PlaneAt(h', d), 0));
  }

  // ---------- sending a business frame ----------

  function BizFrame(cmd: U32, payload: seq<Byte>): Frame {
    Frame(cmd, 0, FLAG_EXP, payload)
  }

  function InboundOf(x: Session, f: Frame, n: nat): Inbound {
    Inbound(1, 0, x.gid, x.nid, f.typ, f.flag, f.payload, n, false)
  }

  lemma RelaySolo(x: Session, l: SessionLog, t: Tables, e: Egress, f: Frame)
    requires x.authed && f.flag != FLAG_SYS
    ensures var s := Solo(x, l, t, e, Idle);
            && Has(s, 0, 1)
            && Perform(C, s, 0, 1, f, [])
               == Solo(x.(fb := []), l.(handled := l.handled + [f]), t, e, Pushing(InboundOf(x, f, |l.handled|), 0))
  {
    UpdateSolo(x, l, t, e, Idle, x.(fb := []), l.(handled := l.handled + [f]),
               Pushing(InboundOf(x, f, |l.handled|), 0));
  }

  lemma Sends(h: Hub, d: Dir, x: Session, l: SessionLog, t: Tables, e: Egress, f: Frame)
    returns (h': Hub, l': SessionLog)
    requires Reachable(C, h) && PlaneAt(h, d) == Solo(x, l, t, e, Idle) && x.fb == [] && x.authed
    requires f.flag != FLAG_SYS && Fits(f)
    ensures Reachable(C, h') && l'.handled == l.handled + [f] && l'.stream == l.stream
    ensures h' == WithPlane(h, d, Solo(x, l', t, e, Pushing(InboundOf(x, f, |l.handled|), 0)))
  {
    hide Reachable, Solo, Encode, Perform;
    h' := Handled(h, d, x, l, t, e, f);
    var x0, l0 := x.(fb := Encode(f)), l.(received := l.received + Encode(f));
    RelaySolo(x0, l0, t, e, f);
    l' := l0.(handled := l.handled + [f]);
    assert x0.(fb := []) == x;
  }

  // ---------- through the link ----------

  lemma ThenLink(h: Hub, d: Dir, a: LinkAction)
    requires Reachable(C, h) && LinkEnabled(C, FlowAt(h, d), a)
    ensures Reachable(C, WithFlow(h, d, LinkStep(C, d, FlowAt(h, d), a)))
  {
    hide Reachable, LinkEnabled, LinkStep;
    Then(h, OnLink(d, a));
  }

  /** An attempt to push into the only worker's queue. */
  lemma PushStep(d: Dir, x: Session, l: SessionLog, t: Tables, e: Egress, m: Inbound, n: nat, link: Link, dst: Plane)
    requires n < MAX_RETRIES && |link.recvQ| == 1
    ensures var f := Flow(Solo(x, l, t, e, Pushing(m, n)), link, dst);
            && LinkEnabled(C, f, ARecvPush(0))
            && LinkStep(C, d, f, ARecvPush(0))
               == if link.recvQ == [[]]
                  then Flow(Solo(x, l, t, e, Idle), link.(recvQ := [[InboundAfterRetries(m, n)]]), dst)
                  else Flow(Solo(x, l, t, e, Pushing(m, n + 1)), link, dst)
  {
    hide InboundAfterRetries;
    var s := Solo(x, l, t, e, Pushing(m, n));
    assert PickWorker(C, m.sid) == 0;
    assert SetPc(s, 0, Idle) == Solo(x, l, t, e, Idle)
           && SetPc(s, 0, Pushing(m, n + 1)) == Solo(x, l, t, e, Pushing(m, n + 1));
    assert link.recvQ == [link.recvQ[0]];
    if link.recvQ[0] == [] {
      var y := InboundAfterRetries(m, n);
      assert link.recvQ[0] + [y] == [y] && link.recvQ[0 := [y]] == [[y]];
    }
  }

  lemma Pushes(h: Hub, d: Dir, x: Session, l: SessionLog, t: Tables, e: Egress, m: Inbound, n: nat) returns (h': Hub)
    requires Reachable(C, h) && n < MAX_RETRIES && |FlowAt(h, d).link.recvQ| == 1
    requires PlaneAt(h, d) == Solo(x, l, t, e, Pushing(m, n))
    ensures Reachable(C, h')
    ensures var f := FlowAt(h, d);
            h' == WithFlow(h, d,
                           if f.link.recvQ == [[]]
                           then Flow(Solo(x, l, t, e, Idle), f.link.(recvQ := [[InboundAfterRetries(m, n)]]), f.dst)
                           else Flow(Solo(x, l, t, e, Pushing(m, n + 1)), f.link, f.dst))
  {
    hide Reachable, Solo, LinkEnabled, LinkStep, InboundAfterRetries;
    PushStep(d, x, l, t, e, m, n, FlowAt(h, d).link, FlowAt(h, d).dst);
    ThenLink(h, d, ARecvPush(0));
    h' := WithFlow(h, d, LinkStep(C, d, FlowAt(h, d), ARecvPush(0)));
  }

  lemma Takes(h: Hub, d: Dir, m: Inbound) returns (h': Hub)
    requires Reachable(C, h) && FlowAt(h, d).link.recvQ == [[m]] && FlowAt(h, d).link.workers == [Free]
    ensures Reachable(C, h')
    ensures var f := FlowAt(h, d); h' == WithFlow(h, d, f.(link := f.link.(recvQ := [[]], workers := [Taken(m)])))
  {
    hide Reachable;
    var f := FlowAt(h, d);
    ThenLink(h, d, AWorkerPop(0));
    assert [m][1..] == [] && [[m]][0 := []] == [[]] && [Free][0 := Taken(m)] == [Taken(m)];
    assert LinkStep(C, d, f, AWorkerPop(0)) == f.(link := f.link.(recvQ := [[]], workers := [Taken(m)]));
    h' := WithFlow(h, d, LinkStep(C, d, f, AWorkerPop(0)));
  }

  lemma LooksUp(h: Hub, d: Dir, m: Inbound) returns (h': Hub)
    requires Reachable(C, h) && FlowAt(h, d).link.workers == [Taken(m)]
    ensures Reachable(C, h')
    ensures var f := FlowAt(h, d);
            var ts := Recipients(d, f.dst.tables, m);
            h' == WithFlow(h, d, f.(link := if ts == [] then Finish(f.link, 0, Finished(m, d.Forward?, [], 0))
                                            else f.link.(workers := [Fanout(m, d.Forward?, ts, 0, ts)])))
  {
    hide Reachable, Recipients;
    var f := FlowAt(h, d);
    var ts := Recipients(d, f.dst.tables, m);
    ThenLink(h, d, ALookup(0));
    assert [Taken(m)][0 := Fanout(m, d.Forward?, ts, 0, ts)] == [Fanout(m, d.Forward?, ts, 0, ts)];
    h' := WithFlow(h, d, LinkStep(C, d, f, ALookup(0)));
  }

  // ---------- out of the other plane ----------

  /** The frames of a plane when the first one has just been enqueued. */
  function ToDistribute(y: Outbound): Egress {
    NO_FRAMES.(distQ := [y], enqueued := [y])
  }

  lemma Publishes(h: Hub, d: Dir, m: Inbound, to: Target) returns (h': Hub)
    requires Reachable(C, h) && FlowAt(h, d).link.workers == [Fanout(m, d.Forward?, [to], 0, [to])]
    requires FlowAt(h, d).dst.egress == NO_FRAMES
    ensures Reachable(C, h')
    ensures var f := FlowAt(h, d);
            h' == WithFlow(h, d, f.(link := Finish(f.link, 0, Finished(m, d.Forward?, [to], 1)),
                                    dst := f.dst.(egress := ToDistribute(MakeFrame(m, d.Forward?, to, 0)))))
  {
    hide Reachable, MakeFrame;
    var y := MakeFrame(m, d.Forward?, to, 0);
    ThenLink(h, d, AWorkerPush(0));
    h' := WithFlow(h, d, LinkStep(C, d, FlowAt(h, d), AWorkerPush(0)));
    assert [] + [y] == [y];
  }

  /** The frames of a plane whose reactor is about to send one. */
  function ToSend(y: Outbound): Egress {
    NO_FRAMES.(sendQ := [[y]], enqueued := [y])
  }

  lemma DistributeSolo(y: Outbound)
    requires y.sid == 1 && y.reactor == 0
    ensures var e := ToDistribute(y);
            && CanDistPop(e) && CanDistPush(DistPop(e)) && DistPush(C, DistPop(e)) == ToSend(y)
  {
    var e := ToDistribute(y);
    var e1 := DistPop(e);
    assert e1 == e.(distQ := [], hand := Some(Held(y, 0)));
    assert [] + [y] == [y] && [[]][0 := [y]] == [[y]];
  }

  /** The frame in the distribution queue of a plane reaches the send queue of its reactor. */
  lemma Distributes(h: Hub, d: Dir, y: Outbound) returns (h': Hub)
    requires Reachable(C, h) && y.sid == 1 && y.reactor == 0 && PlaneAt(h, d).egress == ToDistribute(y)
    ensures Reachable(C, h') && h' == WithPlane(h, d, PlaneAt(h, d).(egress := ToSend(y)))
  {
    hide Reachable, DistPop, DistPush, ToSend, ToDistribute;
    DistributeSolo(y);
    ThenPlane(h, d, ADistPop);
    h' := WithPlane(h, d, PlaneAt(h, d).(egress := DistPop(PlaneAt(h, d).egress)));
    ThenPlane(h', d, ADistPush);
    h' := WithPlane(h', d, PlaneAt(h', d).(egress := DistPush(C, PlaneAt(h', d).egress)));
  }

  lemma DrainSolo(x: Session, l: SessionLog, t: Tables, y: Outbound)
    requires y.sid == 1 && y.bytes != []
    ensures var s := Solo(x, l, t, ToSend(y), Idle);
            && CanDrain(s, 0)
            && Drain(s, 0) == Solo(x.(outbuf := x.outbuf + y.bytes), l.(stream := l.stream + [BizItem(y)]), t,
                                   NO_FRAMES.(enqueued := [y]), Idle)
  {
    var e := NO_FRAMES.(enqueued := [y]);
    assert [y][1..] == [] && [[y]][0 := []] == [[]];
    UpdateSolo(x, l, t, e, Idle, x.(outbuf := x.outbuf + y.bytes), l.(stream := l.stream + [BizItem(y)]), Idle);
  }

  /** The frame in the send queue of a plane's reactor is appended to its session's output. */
  lemma Drains(h: Hub, d: Dir, x: Session, l: SessionLog, t: Tables, y: Outbound) returns (h': Hub)
    requires Reachable(C, h) && PlaneAt(h, d) == Solo(x, l, t, ToSend(y), Idle) && y.sid == 1 && y.bytes != []
    ensures Reachable(C, h')
    ensures PlaneAt(h', d) == Solo(x.(outbuf := x.outbuf + y.bytes), l.(stream := l.stream + [BizItem(y)]), t,
                                   NO_FRAMES.(enqueued := [y]), Idle)
    ensures h' == WithPlane(h, d, PlaneAt(h', d))
  {
    hide Reachable, Solo, ToSend, Drain;
    DrainSolo(x, l, t, y);
    ThenPlane(h, d, ADrain(0));
    h' := WithPlane(h, d, Drain(PlaneAt(h, d), 0));
  }

  // ---------- a frame on its way ----------

  /** The subscriber's session when it has logged in under node id 2 and subscribed. */
  const SUBSCRIBED: Session := Session(4, true, 0, 2, [], AckBytes(AuthAck, 2) + AckBytes(SubAck(9), 2))

  const SUBSCRIPTION: Tables := Subscribe(BindNid(EMPTY, 2, 1, 0), 9, Subscriber(0, 1, 2, 0))

  /** A client and a subscriber of command 9 that have logged in. */
  lemma BothReady() returns (h: Hub, x: Session, l: SessionLog, t: Tables, k: SessionLog)
    ensures Reachable(C, h) && x.authed && x.gid == 0 && x.nid == 1 && x.fb == [] && |l.handled| == 1
    ensures t == BindNid(EMPTY, 1, 1, 0) && |k.handled| == 2
    ensures x.outbuf == AckBytes(AuthAck, 1) && l.stream == [AckItem(AuthAck, 1)]
    ensures h == Hub(Solo(x, l, t, NO_FRAMES, Idle), Solo(SUBSCRIBED, k, SUBSCRIPTION, NO_FRAMES, Idle),
                     Link([[]], [Free], []), Link([[]], [Free], []))
  {
    hide Reachable, Solo, InitPlane, BindNid, Subscribe, Encode, LoginFrame, AckBytes;
    InitIs();
    assert InitLink(C) == Link([[]], [Free], []);
    h := Connected(Init(C), Forward, 3);
    var x0, y := Session(3, false, 0, 0, [], []), Session(4, false, 0, 0, [], []);
    x, l, t := LoggedIn(x0, 1), LogOfLogin(NewLog(0, 3), 1), BindNid(EMPTY, 1, 1, 0);
    h := LogsIn(h, Forward, x0, NewLog(0, 3), EMPTY, NO_FRAMES, 1);
    h := Connected(h, Backend, 4);
    h := LogsIn(h, Backend, y, NewLog(0, 4), EMPTY, NO_FRAMES, 2);
    y, k := LoggedIn(y, 2), LogOfLogin(NewLog(0, 4), 2);
    assert [] + AckBytes(AuthAck, 2) == AckBytes(AuthAck, 2);
    h, y, k := Subscribes(h, Backend, y, k, BindNid(EMPTY, 2, 1, 0), NO_FRAMES, 9);
  }

  lemma Audience(m: Inbound)
    ensures m.typ == 8 ==> Recipients(Forward, SUBSCRIPTION, m) == []
    ensures m.typ == 9 ==> Recipients(Forward, SUBSCRIPTION, m) == [Target(1, 0, 2)]
  {
  }

  /** The client's frame with payload [5], as it is sent to the subscriber. */
  function WholeFrame(): Outbound {
    MakeFrame(Inbound(1, 0, 0, 1, 9, FLAG_EXP, [5], 1, false), true, Target(1, 0, 2), 0)
  }

  /** A client sends payload [5]; the frame waits, whole, in the send queue of the subscriber's reactor. */
  lemma WaitingRun() returns (h: Hub, k: SessionLog)
    ensures Reachable(C, h) && h.backend == Solo(SUBSCRIBED, k, SUBSCRIPTION, ToSend(WholeFrame()), Idle)
  {
    hide Reachable, Recipients, EncodeFrame, ToSend, AckBytes, Solo;
    var x, l, t;
    h, x, l, t, k := BothReady();
    var m := InboundOf(x, BizFrame(9, [5]), 1);
    h, l := Sends(h, Forward, x, l, t, NO_FRAMES, BizFrame(9, [5]));
    h := Pushes(h, Forward, x, l, t, NO_FRAMES, m, 0);
    Audience(m);
    h := Takes(h, Forward, m);
    SoloParts(SUBSCRIBED, k, SUBSCRIPTION, NO_FRAMES, Idle);
    h := LooksUp(h, Forward, m);
    h := Publishes(h, Forward, m, Target(1, 0, 2));
    h := Distributes(h, Backend, WholeFrame());
    SoloWith(SUBSCRIBED, k, SUBSCRIPTION, NO_FRAMES, ToDistribute(WholeFrame()), ToSend(WholeFrame()));
  }

  lemma SoloParts(x: Session, l: SessionLog, t: Tables, e: Egress, pc: ReactorPc)
    ensures var s := Solo(x, l, t, e, pc); s.tables == t && s.egress == e && s.log == map[1 := l]
  {
  }

  lemma SoloWith(x: Session, l: SessionLog, t: Tables, e: Egress, e': Egress, e'': Egress)
    ensures Solo(x, l, t, e, Idle).(egress := e').egress == e'
    ensures Solo(x, l, t, e, Idle).(egress := e').(egress := e'') == Solo(x, l, t, e'', Idle)
  {
  }

  // ---------- down to a node ----------

  /** A payload of one byte under an IM header that names node 1. */
  function ForNode1(): seq<Byte> {
    ImHeader.PackPayload(8, 0, 1, 0, [7])
  }

  lemma ForNode1Is()
    ensures |ForNode1()| == 53 && ImHeader.ReadDestNid(ForNode1()) == 1
  {
    ImHeader.ReadPacked(8, 0, 1, 0, [7]);
  }

  lemma Addressee(m: Inbound)
    requires m.payload == ForNode1()
    ensures Recipients(Backend, BindNid(EMPTY, 1, 1, 0), m) == [Target(1, 0, 1)]
  {
    hide ForNode1, ImHeader.ReadDestNid;
    ForNode1Is();
  }

  /** A backend service sends a payload whose IM header names node 1. The client logged in as
      node 1 gets it, under its own node id and after the acknowledgement of its login. */
  lemma DownlinkRun() returns (h: Hub)
    ensures Reachable(C, h)
    ensures |h.forward.reactors| == 1 && 1 in h.forward.reactors[0].sessions && 1 in h.forward.log
    ensures h.forward.reactors[0].sessions[1].outbuf == AckBytes(AuthAck, 1) + EncodeFrame(8, 1, 1, ForNode1())
    ensures |h.forward.log[1].stream| == 2 && h.forward.log[1].stream[0] == AckItem(AuthAck, 1)
  {
    hide Reachable, Recipients, EncodeFrame, ToSend, AckBytes, ForNode1, Subscribe, BindNid, Solo;
    var x, l, t, k;
    h, x, l, t, k := BothReady();
    ForNode1Is();
    var f := BizFrame(8, ForNode1());
    var m := InboundOf(SUBSCRIBED, f, 2);
    h, k := Sends(h, Backend, SUBSCRIBED, k, SUBSCRIPTION, NO_FRAMES, f);
    h := Pushes(h, Backend, SUBSCRIBED, k, SUBSCRIPTION, NO_FRAMES, m, 0);
    h := Takes(h, Backend, m);
    Addressee(m);
    SoloParts(x, l, t, NO_FRAMES, Idle);
    h := LooksUp(h, Backend, m);
    var y := MakeFrame(m, false, Target(1, 0, 1), 0);
    h := Publishes(h, Backend, m, Target(1, 0, 1));
    SoloWith(x, l, t, NO_FRAMES, ToDistribute(y), ToSend(y));
    h := Distributes(h, Forward, y);
    h := Drains(h, Forward, x, l, t, y);
    SoloHolds(x.(outbuf := x.outbuf + y.bytes), l.(stream := l.stream + [BizItem(y)]), t, NO_FRAMES.(enqueued := [y]));
  }

  lemma SoloHolds(x: Session, l: SessionLog, t: Tables, e: Egress)
    ensures var s := Solo(x, l, t, e, Idle);
            && |s.reactors| == 1 && 1 in s.reactors[0].sessions && 1 in s.log
            && s.reactors[0].sessions[1] == x && s.log[1] == l
  {
  }

  // ---------- a payload lost ----------

  /** The first frame fills the worker's queue, so that the second is pushed at the second attempt. */
  lemma SecondRetried(h: Hub, x: Session, l: SessionLog, t: Tables) returns (h': Hub, l': SessionLog, m: Inbound)
    requires Reachable(C, h) && x.authed && x.fb == [] && |l.handled| == 1
    requires h.forward == Solo(x, l, t, NO_FRAMES, Idle) && h.up == Link([[]], [Free], [])
    ensures Reachable(C, h') && l'.handled == l.handled + [BizFrame(8, [])] + [BizFrame(9, [5])]
    ensures m == InboundOf(x, BizFrame(8, []), 1)
    ensures h' == h.(forward := Solo(x, l', t, NO_FRAMES, Idle),
                     up := Link([[InboundAfterRetries(InboundOf(x, BizFrame(9, [5]), 2), 1)]], [Taken(m)], []))
  {
    hide Reachable, Solo;
    m := InboundOf(x, BizFrame(8, []), 1);
    h', l' := Sends(h, Forward, x, l, t, NO_FRAMES, BizFrame(8, []));
    h' := Pushes(h', Forward, x, l', t, NO_FRAMES, m, 0);
    h', l' := Sends(h', Forward, x, l', t, NO_FRAMES, BizFrame(9, [5]));
    var m2 := InboundOf(x, BizFrame(9, [5]), 2);
    assert [[m]] != [[]] by { assert [[m]][0] != [[]][0]; }
    h' := Pushes(h', Forward, x, l', t, NO_FRAMES, m2, 0);
    h' := Takes(h', Forward, m);
    h' := Pushes(h', Forward, x, l', t, NO_FRAMES, m2, 1);
  }

  /** A client sends a frame nobody subscribed to and then one with payload [5]. The worker's queue
      is full at the first attempt to push the second and free at the next; the subscriber gets the
      second frame with an empty payload. */
  lemma PayloadLostRun() returns (h: Hub, j: nat)
    ensures Reachable(C, h)
    ensures 1 in h.backend.log && j < |h.backend.log[1].stream| && h.backend.log[1].stream[j].BizItem?
    ensures var z := h.backend.log[1].stream[j].frame;
            && z.meta.src == 1 && z.meta.frameNo == 2 && z.meta.emptied && z.meta.payload == []
            && 1 in h.forward.log && |h.forward.log[1].handled| == 3 && h.forward.log[1].handled[2].payload == [5]
  {
    hide Reachable, Recipients, EncodeFrame, ToSend, AckBytes, Solo;
    var x, l, t, k, m;
    h, x, l, t, k := BothReady();
    h, l, m := SecondRetried(h, x, l, t);
    assert l.handled[2] == BizFrame(9, [5]);
    var m2 := InboundAfterRetries(InboundOf(x, BizFrame(9, [5]), 2), 1);
    Audience(m);
    Audience(m2);
    SoloParts(SUBSCRIBED, k, SUBSCRIPTION, NO_FRAMES, Idle);
    h := LooksUp(h, Forward, m);
    assert [Taken(m)][0 := Free] == [Free];
    h := Takes(h, Forward, m2);
    h := LooksUp(h, Forward, m2);
    var to := Target(1, 0, 2);
    var y := MakeFrame(m2, true, to, 0);
    h := Publishes(h, Forward, m2, to);
    SoloWith(SUBSCRIBED, k, SUBSCRIPTION, NO_FRAMES, ToDistribute(y), ToSend(y));
    h := Distributes(h, Backend, y);
    h := Drains(h, Backend, SUBSCRIBED, k, SUBSCRIPTION, y);
    SoloHolds(SUBSCRIBED.(outbuf := SUBSCRIBED.outbuf + y.bytes), k.(stream := k.stream + [BizItem(y)]), SUBSCRIPTION,
              NO_FRAMES.(enqueued := [y]));
    SoloHolds(x, l, t, NO_FRAMES);
    j := |k.stream|;
  }
}
