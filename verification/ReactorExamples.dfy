/** One reactor object through a whole session: a subscriber connects, logs in and subscribes; other
    threads publish a client's frame to it; and the reactor sends that frame. */
module ReactorExamples {
  import opened Bytes
  import opened Wire
  import opened Routing
  import RouterObject
  import opened Queues
  import opened HubModel
  import opened HubInvariant
  import opened HubLink
  import opened HubTheorems
  import opened HubExamples
  import opened ReactorFacts
  import opened ReactorObject

  /** The accepted connection waits for the reactor. */
  lemma Offered() returns (s: Plane)
    ensures PlaneInv(C, map[], s) && s.connQ == [[NewConn(4, 1)]] && s.tables == EMPTY
    ensures s.reactors == [HubModel.Reactor(map[], map[], Idle)]
  {
    hide PlaneInv, LogGrows;
    InitIs();
    InitPlaneOk(C, map[]);
    ConnectSteps(4);
    PlaneStepKeeps(C, map[], InitPlane(C), AAccept(4, 0));
    PlaneStepKeeps(C, map[], Accept(InitPlane(C), 4, 0), AConnPush);
    var s0, conn := Accept(InitPlane(C), 4, 0), NewConn(4, 1);
    assert s0.connQ[0] + [conn] == [conn] && s0.connQ[0 := [conn]] == [[conn]];
    s := ConnPush(C, s0);
  }

  /** A socket that would block at once. */
  function Blocked(): Outside {
    Outside([], (_: nat) => [])
  }

  lemma BlockedSends(x: Session, data: seq<Byte>)
    ensures Sending(x, data, []) == Some(x.(outbuf := x.outbuf + data))
  {
  }

  /** Reading exactly one frame that answers and relays nothing. */
  lemma ReadsOne(x: Session, t: Tables, f: Frame, z: Session)
    requires x.fb == [] && Fits(f) && f.flag == FLAG_SYS && !Refused(C, x.authed, f)
    requires Answer(C, x, f, []) == Some(z)
    ensures ServeAll(C, Place(1, 0), x, t, [Data(Encode(f))], (_: nat) => Blocked(), 0, [])
            == Reading(Some(z), 1, [], Routed(C, Place(1, 0), x, t, f, Some(z)), Drained)
  {
    hide Answer, Routed, React, Encode, Pop;
    var out := (_: nat) => Blocked();
    var recvs := [Data(Encode(f))];
    assert x.fb + Encode(f) == Encode(f) && Encode(f) + [] == Encode(f);
    PopEncoded(f, []);
    assert Encode(f) != [] by { NotEmpty(f); }
    assert x.(fb := Encode(f)).(fb := []) == x;
    assert Pop([]) == NeedMore by { NothingToPop(); }
    ServeAllStep(C, Place(1, 0), x, t, recvs, out, 0, []);
    assert recvs[1..] == [];
    ServeAllStep(C, Place(1, 0), z, Routed(C, Place(1, 0), x, t, f, Some(z)), [], out, 1, []);
  }

  lemma NotEmpty(f: Frame)
    ensures Encode(f) != []
  {
    assert |Encode(f)| >= HEADER_SIZE;
  }

  lemma NothingToPop()
    ensures Pop([]) == NeedMore
  {
  }

  lemma LoginAnswer(x: Session)
    requires x == Session(4, false, 0, 0, [], [])
    ensures Fits(LoginFrame(2)) && LoginFrame(2).flag == FLAG_SYS && !Refused(C, x.authed, LoginFrame(2))
    ensures Answer(C, x, LoginFrame(2), []) == Some(LoggedIn(x, 2))
    ensures Routed(C, Place(1, 0), x, EMPTY, LoginFrame(2), Some(LoggedIn(x, 2))) == BindNid(EMPTY, 2, 1, 0)
  {
    LoginAccepted(2, false);
    assert LoginFrame(2).flag == FLAG_SYS;
    hide React, LoginFrame, Sending, EncodeFrame, BindNid;
    BlockedSends(x.(authed := true, gid := 0, nid := 2), EncodeFrame(AUTH_ACK, 2, FLAG_SYS, []));
  }

  lemma SubAnswer(x: Session)
    requires x == LoggedIn(Session(4, false, 0, 0, [], []), 2)
    ensures Fits(SubFrame(9)) && SubFrame(9).flag == FLAG_SYS && !Refused(C, x.authed, SubFrame(9))
    ensures Answer(C, x, SubFrame(9), []) == Some(SUBSCRIBED)
    ensures Routed(C, Place(1, 0), x, BindNid(EMPTY, 2, 1, 0), SubFrame(9), Some(SUBSCRIBED)) == SUBSCRIPTION
  {
    SubAccepted(9);
    assert SubFrame(9).flag == FLAG_SYS;
    hide React, SubFrame, Sending, EncodeFrame, BindNid, Subscribe;
    assert [] + AckBytes(AuthAck, 2) == AckBytes(AuthAck, 2);
    BlockedSends(x, EncodeFrame(SUB_ACK, 2, FLAG_SYS, []));
  }

  /** With one session the descriptor index is determined. */
  lemma OnlyIndex(c: Config, src: Log, s: Plane, x: Session)
    requires PlaneInv(c, src, s) && 0 < |s.reactors| && s.reactors[0].sessions == map[1 := x]
    ensures s.reactors[0].fdToSid == map[x.fd := 1]
  {
    hide LogsOk, FdsOk, ConnsOk, GrantsOk, LiveOk, TablesOk, EgressOk, AllHeld, PcOk;
    assert ReactorOk(c, s.log, 0, s.reactors[0]);
    var R := s.reactors[0];
    assert 1 in R.sessions;
    assert forall fd :: fd in R.fdToSid ==> R.fdToSid[fd] in R.sessions && fd == x.fd;
  }

  /** A reactor that holds just this session, with these tables. */
  ghost predicate Serving(r: ReactorObject.Reactor, x: Session, t: Tables)
    reads r, r.router
  {
    && r.Valid() && r.c == C && r.idx == 0 && r.sessions == map[1 := x] && r.fdToSid == map[x.fd := 1]
    && r.router.State() == t
  }

  /** The reactor starts, and takes in the connection the listener has accepted meanwhile. */
  method Connects() returns (r: ReactorObject.Reactor)
    ensures fresh(r) && fresh(r.router) && Serving(r, Session(4, false, 0, 0, [], []), EMPTY)
  {
    hide PlaneInv, InitPlane, ReactorObject.Reactor.Told, ReactorObject.Reactor.WatchedBut, SpscQueue.Contents,
         SpscQueue.Valid, WithConns;
    var router := new RouterObject.Router();
    InitIs();
    InitPlaneOk(C, map[]);
    r := new ReactorObject.Reactor(C, 0, router, map[], InitPlane(C));
    ghost var s := Offered();
    r.Meanwhile(s, map[]);
    var conns := new SpscQueue<NewConn>(1);
    var _ := conns.Push(NewConn(4, 1));
    assert [] + [NewConn(4, 1)] == [NewConn(4, 1)];
    FirstConn();
    r.DrainNewConnections(conns);
    OnlyIndex(C, r.peer, r.plane, Session(4, false, 0, 0, [], []));
  }

  lemma FirstConn()
    ensures WithConns(map[], [NewConn(4, 1)]) == map[1 := Session(4, false, 0, 0, [], [])]
  {
    assert [NewConn(4, 1)][1..] == [];
  }

  /** The subscriber sends one system frame, which is answered. */
  method Reads(r: ReactorObject.Reactor, f: Frame, ghost x: Session, ghost t: Tables, ghost z: Session)
    requires Serving(r, x, t) && x.fd == 4 && x.fb == [] && z.fd == 4
    requires Fits(f) && f.flag == FLAG_SYS && !Refused(C, x.authed, f) && Answer(C, x, f, []) == Some(z)
    modifies r, r.router
    ensures Serving(r, z, Routed(C, Place(1, 0), x, t, f, Some(z)))
  {
    hide PlaneInv, ReactorObject.Reactor.Told, ReactorObject.Reactor.WatchedBut, ServeAll, Routed, Answer, Refused,
         Encode;
    var queue := new MpscQueue<Message>(1);
    ReadsOne(x, t, f, z);
    r.HandleReadable(4, [Data(Encode(f))], [queue], (_: nat) => Blocked());
    OnlyIndex(C, r.peer, r.plane, z);
  }

  /** The plane when other threads have published the client's frame. */
  lemma Published() returns (s: Plane, peer: Log)
    ensures PlaneInv(C, peer, s) && s.tables == SUBSCRIPTION && s.egress.sendQ == [[WholeFrame()]]
    ensures s.reactors == [HubModel.Reactor(map[1 := SUBSCRIBED], map[4 := 1], Idle)]
  {
    hide PlaneInv, Reachable, WholeFrame, LinkOk;
    var h, k := WaitingRun();
    FlowFacts(C, h, Forward);
    s, peer := h.backend, h.forward.log;
  }

  lemma ServedView(blocked: nat -> seq<SendResult>)
    requires blocked(0) == []
    ensures var x := SUBSCRIBED.(outbuf := SUBSCRIBED.outbuf + WholeFrame().bytes);
            WithFrames(View(map[1 := SUBSCRIBED], SUBSCRIPTION), [WholeFrame()], blocked, 0)
            == View(map[1 := x], SUBSCRIPTION)
  {
    hide Sending, AckBytes, EncodeFrame, Subscribe;
    BlockedSends(SUBSCRIBED, WholeFrame().bytes);
    assert [WholeFrame()][1..] == [];
    assert map[1 := SUBSCRIBED][1 := SUBSCRIBED.(outbuf := SUBSCRIBED.outbuf + WholeFrame().bytes)]
           == map[1 := SUBSCRIBED.(outbuf := SUBSCRIBED.outbuf + WholeFrame().bytes)];
  }

  /** Other threads publish the client's frame, and the reactor appends it to the session's output. */
  method Serves(r: ReactorObject.Reactor)
    requires Serving(r, SUBSCRIBED, SUBSCRIPTION)
    modifies r, r.router
    ensures Serving(r, SUBSCRIBED.(outbuf := SUBSCRIBED.outbuf + WholeFrame().bytes), SUBSCRIPTION)
  {
    hide PlaneInv, ReactorObject.Reactor.Told, ReactorObject.Reactor.WatchedBut, SpscQueue.Contents, SpscQueue.Valid,
         WholeFrame, WithFrames, AckBytes, Subscribe, BindNid;
    ghost var s, peer := Published();
    r.Meanwhile(s, peer);
    var frames := new SpscQueue<Outbound>(1);
    var frame := WholeFrame();
    var _ := frames.Push(frame);
    assert [] + [frame] == [frame];
    var blocked := (_: nat) => [];
    ServedView(blocked);
    r.DrainSendQueue(frames, blocked);
    OnlyIndex(C, r.peer, r.plane, SUBSCRIBED.(outbuf := SUBSCRIBED.outbuf + frame.bytes));
  }

  /** The held session's output ends with the whole frame the client sent, and the session is
      watched for writability until the socket takes it. */
  method SubscriberIsServed() returns (r: ReactorObject.Reactor)
    ensures r.Valid() && 4 in r.writeWatched
    ensures r.sessions == map[1 := SUBSCRIBED.(outbuf := SUBSCRIBED.outbuf + WholeFrame().bytes)]
  {
    hide PlaneInv, ReactorObject.Reactor.Told, LoginFrame, SubFrame, Routed, Answer, Refused, EncodeFrame, Subscribe,
         BindNid,
         AckBytes;
    var x := Session(4, false, 0, 0, [], []);
    LoginAnswer(x);
    SubAnswer(LoggedIn(x, 2));
    r := Connects();
    Reads(r, LoginFrame(2), x, EMPTY, LoggedIn(x, 2));
    Reads(r, SubFrame(9), LoggedIn(x, 2), BindNid(EMPTY, 2, 1, 0), SUBSCRIBED);
    Serves(r);
    assert 1 in r.sessions;
  }
}
