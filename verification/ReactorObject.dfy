/** The reactor as an object whose handlers change its fields in place
    (src/hub/reactor.cpp). Each handler, loops included, is shown to perform a sequence of this
    reactor's own actions of the hub's step system and nothing else, the attempts to hand one
    message to a worker taken together, and to leave every held session watched for writability
    exactly when it has output pending. Other threads act between handlers (`Meanwhile`).

    What the sockets do is a parameter: a script of results, used up call by call. Work on a
    session ends when the session is closed. */
module ReactorObject {
  import opened Bytes
  import opened Wire
  import opened Routing
  import RouterObject
  import opened Queues
  import opened HubModel
  import opened HubInvariant
  import opened HubConnSteps
  import opened HubLink
  import opened Reassembly
  import opened HubMeaning
  import opened ReactorFacts
  import opened ReactorMeaning

  // ---------- the object ----------

  class Reactor {
    const c: Config
    const idx: nat
    const router: RouterObject.Router
    var sessions: map<nat, Session>
    var fdToSid: map<int, nat>
    /** The descriptors registered for writability. */
    var writeWatched: set<int>

    /** The history of the peer plane, where the plane was when this reactor last took over, what
        the reactor has done since, and where that has brought the plane. */
    ghost var peer: Log
    ghost var start: Plane
    ghost var acts: seq<Act>
    ghost var plane: Plane

    /** The acts are the reactor's own, and lead from the start to where the plane is. */
    ghost predicate Told()
      reads this`start, this`acts, this`plane
    {
      Trace(c, start, idx, acts) == Some(plane) && AllOwn(acts, idx)
    }

    /** The object is where the acts have brought the step system. */
    ghost predicate Coupled()
      reads this, router
    {
      && PlaneInv(c, peer, plane) && idx < |plane.reactors|
      && Told()
      && plane.reactors[idx].sessions == sessions && plane.reactors[idx].fdToSid == fdToSid
      && plane.tables == router.State()
    }

    ghost predicate AtRest()
      reads this, router
    {
      Coupled() && plane.reactors[idx].pc.Idle?
    }

    /** Write interest follows pending output, for all sessions but those with the given descriptor. */
    ghost predicate WatchedBut(fds: set<int>)
      reads this
    {
      && writeWatched <= fdToSid.Keys
      && forall sid :: sid in sessions && sessions[sid].fd !in fds ==>
           (sessions[sid].fd in writeWatched <==> sessions[sid].outbuf != [])
    }

    lemma WatchedAnyway(fd: int)
      requires WatchedBut({})
      ensures WatchedBut({fd})
    {
    }

    ghost predicate Valid()
      reads this, router
    {
      AtRest() && WatchedBut({})
    }

    /** A reactor starts with no session, on a plane that other threads may already use. */
    constructor (c: Config, idx: nat, router: RouterObject.Router, ghost peer: Log, ghost s: Plane)
      requires PlaneInv(c, peer, s) && idx < |s.reactors| && s.tables == router.State()
      requires s.reactors[idx] == HubModel.Reactor(map[], map[], Idle)
      ensures this.c == c && this.idx == idx && this.router == router && this.peer == peer
      ensures Valid() && sessions == map[] && plane == s && acts == []
    {
      this.c, this.idx, this.router := c, idx, router;
      sessions, fdToSid, writeWatched := map[], map[], {};
      this.peer, start, plane, acts := peer, s, s, [];
    }

    /** Other threads at work between two handlers: they may do anything to the plane, its tables and
        the peer's history, as long as the plane's invariant holds and this reactor's own part is
        left alone. */
    ghost method Meanwhile(t: Plane, peer': Log)
      requires idx < |plane.reactors| && WatchedBut({})
      requires plane.reactors[idx] == HubModel.Reactor(sessions, fdToSid, Idle)
      requires PlaneInv(c, peer', t) && idx < |t.reactors|
      requires t.reactors[idx] == plane.reactors[idx] && t.tables == router.State()
      modifies this`peer, this`start, this`acts, this`plane
      ensures Valid() && plane == t && peer == peer' && acts == []
    {
      peer, start, plane, acts := peer', t, t, [];
    }

    /** One action of the step system, of this reactor's own. */
    ghost method Do(a: PlaneAction)
      requires PlaneInv(c, peer, plane) && PlaneEnabled(c, plane, a) && Own(Does(a), idx)
      requires Told()
      modifies this`plane, this`acts
      ensures PlaneInv(c, peer, plane) && plane == PlaneStep(c, old(plane), a)
      ensures acts == old(acts) + [Does(a)] && Told()
      ensures |plane.reactors| == |old(plane).reactors|
    {
      hide PlaneInv, PlaneStep, PlaneEnabled, Trace;
      PlaneStepKeeps(c, peer, plane, a);
      SameReactors(c, peer, plane, PlaneStep(c, plane, a));
      TraceSnoc(c, start, idx, acts, Does(a));
      plane := PlaneStep(c, plane, a);
      acts := acts + [Does(a)];
    }

    method UpdateInterest(fd: int, wantWrite: bool)
      modifies this`writeWatched
      ensures writeWatched == if wantWrite then old(writeWatched) + {fd} else old(writeWatched) - {fd}
    {
      writeWatched := if wantWrite then writeWatched + {fd} else writeWatched - {fd};
    }

    /** Removes a held session's routes, both its index entries and its registration. */
    method Forget(sid: nat)
      requires sid in sessions && WatchedBut({sessions[sid].fd})
      requires forall id :: id in sessions && id != sid ==> sessions[id].fd != sessions[sid].fd
      modifies this`sessions, this`fdToSid, this`writeWatched, router
      ensures sessions == old(sessions) - {sid} && fdToSid == old(fdToSid) - {old(sessions)[sid].fd}
      ensures router.State() == var x := old(sessions)[sid];
                                if x.authed then RemoveSession(old(router.State()), sid, x.nid) else old(router.State())
      ensures WatchedBut({})
    {
      hide RemoveSession;
      var x := sessions[sid];
      if x.authed {
        router.RemoveSession(sid, x.nid);
      }
      fdToSid := fdToSid - {x.fd};
      writeWatched := writeWatched - {x.fd};
      sessions := sessions - {sid};
    }

    method CloseSession(sid: nat)
      requires AtRest() && (sid in sessions ==> WatchedBut({sessions[sid].fd})) && (sid !in sessions ==> WatchedBut({}))
      modifies this`sessions, this`fdToSid, this`writeWatched, this`acts, this`plane, router
      ensures Valid() && old(acts) <= acts
      ensures sessions == old(sessions) - {sid}
      ensures Calm(old(plane), plane)
      ensures sid in old(sessions) ==>
                && fdToSid == old(fdToSid) - {old(sessions)[sid].fd}
                && router.State() == Left(old(router.State()), sid, old(sessions)[sid], None)
      ensures sid !in old(sessions) ==>
                plane == old(plane) && fdToSid == old(fdToSid) && router.State() == old(router.State())
    {
      hide PlaneInv, Told, RemoveSession, Close;
      if sid !in sessions {
        return;
      }
      HeldInLog(c, peer, plane, idx, sid);
      IndexOf(c, peer, plane, idx, sid);
      CloseIs(plane, idx, sid);
      Forget(sid);
      Do(AClose(idx, sid));
    }

    /** The socket takes the first bytes of a session's output. */
    method SendOnce(sid: nat, n: nat)
      requires AtRest() && sid in sessions
      modifies this`sessions, this`plane, this`acts
      ensures AtRest() && old(acts) <= acts && Calm(old(plane), plane)
      ensures var x := old(sessions)[sid];
              sessions == old(sessions)[sid := x.(outbuf := x.outbuf[TakenBy(n, x.outbuf)..])]
    {
      hide PlaneInv, Told, SendSome;
      HeldInLog(c, peer, plane, idx, sid);
      var x := sessions[sid];
      var k := TakenBy(n, x.outbuf);
      SendSomeIs(plane, idx, sid, k);
      sessions := sessions[sid := x.(outbuf := x.outbuf[k..])];
      Do(ASendSome(idx, sid, k));
    }

    /** Sends until the output is empty, the socket would block, or the connection is broken. */
    method SendLoop(sid: nat, sends: seq<SendResult>) returns (broken: bool)
      requires AtRest() && sid in sessions
      modifies this`sessions, this`plane, this`acts
      ensures AtRest() && old(acts) <= acts && Calm(old(plane), plane)
      ensures sid in sessions && sessions == old(sessions)[sid := old(sessions)[sid].(outbuf := sessions[sid].outbuf)]
      ensures Flush(old(sessions)[sid].outbuf, sends) == if broken then None else Some(sessions[sid].outbuf)
    {
      hide AtRest, Flush, Calm;
      CalmRefl(plane);
      ghost var was := sessions;
      var todo := sends;
      while sessions[sid].outbuf != []
        invariant AtRest() && sid in sessions && old(acts) <= acts && Calm(old(plane), plane)
        invariant sessions == was[sid := was[sid].(outbuf := sessions[sid].outbuf)]
        invariant Flush(sessions[sid].outbuf, todo) == Flush(was[sid].outbuf, sends)
        decreases |sessions[sid].outbuf|
      {
        FlushStep(sessions[sid].outbuf, todo);
        var r := if todo != [] then todo[0] else WouldBlock;
        if !r.Sent? || r.n == 0 {
          return !r.WouldBlock?;
        }
        ghost var before := plane;
        SendOnce(sid, r.n);
        CalmTwice(old(plane), before, plane);
        todo := todo[1..];
      }
      FlushStep(sessions[sid].outbuf, todo);
      broken := false;
    }

    method HandleWritable(fd: int, sends: seq<SendResult>)
      requires AtRest() && WatchedBut({fd})
      modifies this`sessions, this`fdToSid, this`writeWatched, this`acts, this`plane, router
      ensures Valid() && old(acts) <= acts && Calm(old(plane), plane)
      ensures fd !in old(fdToSid) ==>
                sessions == old(sessions) && plane == old(plane) && router.State() == old(router.State())
      ensures fd in old(fdToSid) ==>
                && old(fdToSid)[fd] in old(sessions)
                && var sid := old(fdToSid)[fd];
                && var z := Sending(old(sessions)[sid], [], sends);
                && sessions == Updated(old(sessions), sid, z)
                && router.State() == Left(old(router.State()), sid, old(sessions)[sid], z)
    {
      hide PlaneInv, Told, Flush, Calm;
      CalmRefl(plane);
      if fd !in fdToSid {
        NoSession(c, peer, plane, idx, fd);
        return;
      }
      var sid := fdToSid[fd];
      IndexedSession(c, peer, plane, idx, fd);
      var broken := SendLoop(sid, sends);
      IndexOf(c, peer, plane, idx, sid);
      assert old(sessions)[sid].outbuf + [] == old(sessions)[sid].outbuf;
      if broken {
        ghost var before := plane;
        CloseSession(sid);
        CalmTwice(old(plane), before, plane);
      } else {
        UpdateInterest(fd, sessions[sid].outbuf != []);
      }
    }

    /** Appends to a session's output, by the given action of the step system, and tries to send. */
    method SendBytes(sid: nat, data: seq<Byte>, sends: seq<SendResult>, ghost a: PlaneAction)
      requires Coupled() && WatchedBut({}) && sid in sessions
      requires data == [] ==> AtRest()
      requires data != [] ==> PlaneEnabled(c, plane, a) && Own(Does(a), idx)
      requires data != [] ==> Appends(plane, PlaneStep(c, plane, a), idx, sid, data)
      modifies this`sessions, this`fdToSid, this`writeWatched, this`acts, this`plane, router
      ensures Valid() && old(acts) <= acts
      ensures data != [] ==> old(acts) + [Does(a)] <= acts && Calm(PlaneStep(c, old(plane), a), plane)
      ensures data == [] ==>
                sessions == old(sessions) && plane == old(plane) && router.State() == old(router.State())
      ensures data != [] ==>
                var z := Sending(old(sessions)[sid], data, sends);
                && sessions == Updated(old(sessions), sid, z)
                && router.State() == Left(old(router.State()), sid, old(sessions)[sid], z)
    {
      hide PlaneInv, Told, PlaneStep, PlaneEnabled, Sending, Updated, Calm, RemoveSession;
      if data == [] {
        return;
      }
      IndexOf(c, peer, plane, idx, sid);
      var x := sessions[sid];
      var y := x.(outbuf := x.outbuf + data);
      SendingLater(x, data, sends);
      UpdatedTwice(sessions, sid, y, Sending(x, data, sends));
      sessions := sessions[sid := y];
      Do(a);
      UpdateInterest(x.fd, true);
      HandleWritable(x.fd, sends);
    }

    // ---------- the two queues ----------

    /** Takes over one accepted connection. */
    method Register(conn: NewConn)
      requires Valid() && idx < |plane.connQ| && plane.connQ[idx] != [] && plane.connQ[idx][0] == conn
      modifies this`sessions, this`fdToSid, this`writeWatched, this`acts, this`plane
      ensures Valid() && acts == old(acts) + [Does(AIntake(idx))]
      ensures plane.connQ == old(plane).connQ[idx := old(plane).connQ[idx][1..]]
      ensures conn.sid !in old(sessions)
      ensures sessions == old(sessions)[conn.sid := Session(conn.fd, false, 0, 0, [], [])]
    {
      hide PlaneInv, Told, Intake;
      IntakeIs(c, peer, plane, idx);
      fdToSid := fdToSid[conn.fd := conn.sid];
      sessions := sessions[conn.sid := Session(conn.fd, false, 0, 0, [], [])];
      Do(AIntake(idx));
    }

    /** Registers every queued connection, in order. */
    method DrainNewConnections(q: SpscQueue<NewConn>)
      requires Valid() && q.Valid() && idx < |plane.connQ| && plane.connQ[idx] == q.Contents()
      modifies this`sessions, this`fdToSid, this`writeWatched, this`acts, this`plane, q`head
      ensures Valid() && old(acts) <= acts && q.Valid() && q.Contents() == []
      ensures idx < |plane.connQ| && plane.connQ[idx] == []
      ensures sessions == WithConns(old(sessions), old(q.Contents()))
    {
      hide AtRest, WatchedBut, SpscQueue.Contents, SpscQueue.Valid;
      ghost var was, all := sessions, q.Contents();
      var next := q.Pop();
      while next.Some?
        invariant Valid() && old(acts) <= acts && q.Valid() && idx < |plane.connQ|
        invariant plane.connQ[idx] == (if next.Some? then [next.value] else []) + q.Contents()
                  && (next.None? ==> q.Contents() == [])
        invariant WithConns(sessions, plane.connQ[idx]) == WithConns(was, all)
        decreases |plane.connQ[idx]|
      {
        Register(next.value);
        next := q.Pop();
      }
    }

    /** Appends every queued frame to its session, in order; a frame whose session is gone is dropped. */
    method DrainSendQueue(q: SpscQueue<Outbound>, sends: nat -> seq<SendResult>)
      requires Valid() && q.Valid() && idx < |plane.egress.sendQ| && plane.egress.sendQ[idx] == q.Contents()
      modifies this`sessions, this`fdToSid, this`writeWatched, this`acts, this`plane, router, q`head
      ensures Valid() && old(acts) <= acts && q.Valid() && q.Contents() == []
      ensures idx < |plane.egress.sendQ| && plane.egress.sendQ[idx] == []
      ensures View(sessions, router.State())
              == WithFrames(View(old(sessions), old(router.State())), old(q.Contents()), sends, 0)
    {
      hide *;
      ghost var was, all := View(sessions, router.State()), q.Contents();
      var next := q.Pop();
      var i := 0;
      while next.Some?
        invariant Valid() && old(acts) <= acts && q.Valid() && idx < |plane.egress.sendQ|
        invariant plane.egress.sendQ[idx] == (if next.Some? then [next.value] else []) + q.Contents()
                  && (next.None? ==> q.Contents() == [])
        invariant WithFrames(View(sessions, router.State()), plane.egress.sendQ[idx], sends, i)
                  == WithFrames(was, all, sends, 0)
        decreases |plane.egress.sendQ[idx]|
      {
        WithFramesStep(View(sessions, router.State()), plane.egress.sendQ[idx], sends, i);
        DrainOne(next.value, sends(i));
        next := q.Pop();
        i := i + 1;
      }
      WithFramesStep(View(sessions, router.State()), [], sends, i);
    }

    /** One popped frame. */
    method DrainOne(item: Outbound, sends: seq<SendResult>)
      requires Valid() && idx < |plane.egress.sendQ| && plane.egress.sendQ[idx] != []
               && plane.egress.sendQ[idx][0] == item
      modifies this`sessions, this`fdToSid, this`writeWatched, this`acts, this`plane, router
      ensures Valid() && old(acts) + [Does(ADrain(idx))] <= acts
      ensures plane.egress.sendQ == old(plane).egress.sendQ[idx := old(plane).egress.sendQ[idx][1..]]
      ensures View(sessions, router.State()) == WithFrame(View(old(sessions), old(router.State())), item, sends)
    {
      hide PlaneInv, Told, Drain, Flush;
      DrainIs(c, peer, plane, idx);
      if item.sid !in sessions || item.bytes == [] {
        Do(ADrain(idx));
        return;
      }
      SendBytes(item.sid, item.bytes, sends, ADrain(idx));
    }

    // ---------- one frame from a peer ----------

    /** One queue per worker, each of the configured capacity. */
    predicate Fitting(queues: seq<MpscQueue<Message>>) {
      ValidConfig(c) && |queues| == c.workers && forall i :: 0 <= i < |queues| ==> queues[i].capacity == c.capacity
    }

    /** The frame has left the session's buffer and nothing else has happened yet. */
    ghost predicate Popped(sid: nat, f: Frame, rest: seq<Byte>)
      reads this, router
    {
      && PlaneInv(c, peer, plane) && Told() && IsIdle(plane, idx)
      && plane.reactors[idx].fdToSid == fdToSid && plane.tables == router.State() && WatchedBut({})
      && sid in plane.reactors[idx].sessions
      && var x := plane.reactors[idx].sessions[sid];
      && Pop(x.fb) == Got(f, rest)
      && sessions == plane.reactors[idx].sessions[sid := x.(fb := rest)]
    }

    /** The fields are what the step for this frame makes them, with the reactor at `pc`. */
    ghost predicate Ready(sid: nat, pc: ReactorPc)
      reads this, router
    {
      && PlaneInv(c, peer, plane) && Told() && WatchedBut({})
      && CanHandle(plane, idx, sid)
      && var t := Handle(c, plane, idx, sid);
      && Calm(plane, t) && Becomes(t, idx, sessions, fdToSid, pc, router.State())
    }

    /** Acknowledges a request whose effect on the session and the tables is in place. */
    method Reply(sid: nat, a: Ack, sends: seq<SendResult>)
      requires Ready(sid, Acking(sid, a)) && sid in sessions
      modifies this`sessions, this`fdToSid, this`writeWatched, this`acts, this`plane, router
      ensures Valid() && Calm(old(plane), plane)
      ensures old(acts) + [Does(AHandle(idx, sid)), Does(AAckAppend(idx))] <= acts
      ensures var x := old(sessions)[sid];
              var z := Sending(x, EncodeFrame(AckType(a), x.nid, FLAG_SYS, []), sends);
              && sessions == Updated(old(sessions), sid, z)
              && router.State() == Left(old(router.State()), sid, x, z)
    {
      hide PlaneInv, Told, Handle, Flush, EncodeFrame, AckAppend, Calm, Left;
      ghost var first := plane;
      Do(AHandle(idx, sid));
      ghost var second := plane;
      AckAppendIs(c, peer, plane, idx, sid, a);
      SendBytes(sid, EncodeFrame(AckType(a), sessions[sid].nid, FLAG_SYS, []), sends, AAckAppend(idx));
      CalmTwice(second, AckAppend(second, idx), plane);
      CalmTwice(first, second, plane);
    }

    /** Closes the session because of the frame just popped. */
    method Kick(sid: nat, f: Frame, rest: seq<Byte>)
      requires Popped(sid, f, rest) && React(c, sessions[sid].authed, f).Kick?
      modifies this`sessions, this`fdToSid, this`writeWatched, this`acts, this`plane, router
      ensures Valid() && Calm(old(plane), plane)
      ensures acts == old(acts) + [Does(AHandle(idx, sid))]
      ensures sid in old(sessions) && sessions == Updated(old(sessions), sid, None)
      ensures router.State() == Left(old(router.State()), sid, old(sessions)[sid], None)
    {
      hide PlaneInv, Told, Handle, React, RemoveSession, Calm, Pop;
      HandleIs(c, peer, plane, idx, sid, f, rest);
      IndexOf(c, peer, plane, idx, sid);
      Forget(sid);
      Do(AHandle(idx, sid));
    }

    /** Stores the identity, binds the node id to this session, and acknowledges. */
    method Login(sid: nat, f: Frame, rest: seq<Byte>, who: Identity, sends: seq<SendResult>)
      requires Popped(sid, f, rest) && React(c, sessions[sid].authed, f) == HubModel.Login(who)
      modifies this`sessions, this`fdToSid, this`writeWatched, this`acts, this`plane, router
      ensures Valid() && Calm(old(plane), plane) && old(acts) + [Does(AHandle(idx, sid))] <= acts
      ensures sid in old(sessions)
      ensures var x := old(sessions)[sid];
              && sessions == Updated(old(sessions), sid, Answer(c, x, f, sends))
              && router.State() == Routed(c, Place(sid, idx), x, old(router.State()), f, Answer(c, x, f, sends))
    {
      hide PlaneInv, Told, Handle, React, BindNid, Calm, Pop, EncodeFrame, Sending, Updated;
      HandleIs(c, peer, plane, idx, sid, f, rest);
      var y := sessions[sid].(authed := true, gid := who.gid, nid := who.nid);
      UpdatedTwice(sessions, sid, y, Sending(y, EncodeFrame(AUTH_ACK, y.nid, FLAG_SYS, []), sends));
      sessions := sessions[sid := y];
      router.BindNid(who.nid, sid, idx);
      Reply(sid, AuthAck, sends);
    }

    method TryLogin(sid: nat, f: Frame, rest: seq<Byte>, sends: seq<SendResult>) returns (ok: bool)
      requires Popped(sid, f, rest) && f.flag == FLAG_SYS && f.typ == Auth.AUTH_REQ
      modifies this`sessions, this`fdToSid, this`writeWatched, this`acts, this`plane, router
      ensures Valid() && Calm(old(plane), plane) && old(acts) + [Does(AHandle(idx, sid))] <= acts
      ensures sid in old(sessions)
      ensures var x := old(sessions)[sid];
              && sessions == Updated(old(sessions), sid, Answer(c, x, f, sends))
              && router.State() == Routed(c, Place(sid, idx), x, old(router.State()), f, Answer(c, x, f, sends))
      ensures ok <==> React(c, old(sessions)[sid].authed, f).Login?
    {
      hide PlaneInv, Told, Handle, Calm, Pop, EncodeFrame, Sending, Updated, Auth.DecodeAuthPayload,
           Auth.CredentialsMatch;
      var auth := Auth.DecodeAuthPayload(f.payload);
      if auth.None? {
        Kick(sid, f, rest);
        return false;
      }
      if !Auth.CredentialsMatch(c.user, c.pass, auth.value) {
        Kick(sid, f, rest);
        return false;
      }
      Login(sid, f, rest, Identity(auth.value.gid, auth.value.nid), sends);
      ok := true;
    }

    /** Accepts the configured user and password only; then the session has the identity in the
        payload, and its node id is routed to it. Otherwise the session is closed. */
    method HandleAuth(sid: nat, f: Frame, rest: seq<Byte>, sends: seq<SendResult>) returns (ok: bool)
      requires Popped(sid, f, rest) && f.flag == FLAG_SYS && f.typ == Auth.AUTH_REQ
      modifies this`sessions, this`fdToSid, this`writeWatched, this`acts, this`plane, router
      ensures Valid() && Calm(old(plane), plane) && old(acts) + [Does(AHandle(idx, sid))] <= acts
      ensures sid in old(sessions)
      ensures var x := old(sessions)[sid];
              && sessions == Updated(old(sessions), sid, Answer(c, x, f, sends))
              && router.State() == Routed(c, Place(sid, idx), x, old(router.State()), f, Answer(c, x, f, sends))
      ensures ok <==> React(c, old(sessions)[sid].authed, f).Login?
      ensures ok <==> |f.payload| >= 56
                      && Auth.CString(f.payload[4..36]) == c.user && Auth.CString(f.payload[36..52]) == c.pass
      ensures !ok ==> sid !in sessions
      ensures ok && sid in sessions ==>
                var gid, nid := Word(f.payload, 0), Word(f.payload, 52);
                && sessions[sid].authed && sessions[sid].gid == gid && sessions[sid].nid == nid
                && router.subTable == old(router.subTable)
                && router.nidMap == old(router.nidMap)[nid := NidRoute(sid, idx)]
    {
      hide AtRest, PlaneInv, Told, Calm, Pop, React, Answer, Routed, Word, Auth.CString, FindSubscribers, Without;
      ReactIs(c, sessions[sid].authed, f);
      LoginMeaning(c, Place(sid, idx), sessions[sid], router.State(), f, sends);
      ok := TryLogin(sid, f, rest, sends);
    }

    method TrySubscribe(sid: nat, f: Frame, rest: seq<Byte>, sends: seq<SendResult>) returns (ok: bool)
      requires Popped(sid, f, rest) && f.flag == FLAG_SYS && f.typ == SUB_REQ
      modifies this`sessions, this`fdToSid, this`writeWatched, this`acts, this`plane, router
      ensures Valid() && Calm(old(plane), plane) && old(acts) + [Does(AHandle(idx, sid))] <= acts
      ensures sid in old(sessions)
      ensures var x := old(sessions)[sid];
              && sessions == Updated(old(sessions), sid, Answer(c, x, f, sends))
              && router.State() == Routed(c, Place(sid, idx), x, old(router.State()), f, Answer(c, x, f, sends))
      ensures ok <==> React(c, old(sessions)[sid].authed, f).Sub?
    {
      hide PlaneInv, Told, Handle, RemoveSession, Subscribe, Calm, Pop, EncodeFrame, Sending, FromBe32;
      HandleIs(c, peer, plane, idx, sid, f, rest);
      var x := sessions[sid];
      if !x.authed || |f.payload| < 4 {
        Kick(sid, f, rest);
        return false;
      }
      var cmd := FromBe32(f.payload[..4]);
      router.Subscribe(cmd, Subscriber(x.gid, sid, x.nid, idx));
      Reply(sid, SubAck(cmd), sends);
      ok := true;
    }

    /** Lists a session that has logged in under the command in the payload; any other is closed. */
    method HandleSub(sid: nat, f: Frame, rest: seq<Byte>, sends: seq<SendResult>) returns (ok: bool)
      requires Popped(sid, f, rest) && f.flag == FLAG_SYS && f.typ == SUB_REQ
      modifies this`sessions, this`fdToSid, this`writeWatched, this`acts, this`plane, router
      ensures Valid() && Calm(old(plane), plane) && old(acts) + [Does(AHandle(idx, sid))] <= acts
      ensures sid in old(sessions)
      ensures var x := old(sessions)[sid];
              && sessions == Updated(old(sessions), sid, Answer(c, x, f, sends))
              && router.State() == Routed(c, Place(sid, idx), x, old(router.State()), f, Answer(c, x, f, sends))
      ensures ok <==> React(c, old(sessions)[sid].authed, f).Sub?
      ensures ok <==> old(sessions)[sid].authed && |f.payload| >= 4
      ensures !ok ==> sid !in sessions
      ensures ok && sid in sessions ==>
                var cmd, x := Word(f.payload, 0), old(sessions)[sid];
                var list, list' := FindSubscribers(old(router.State()), cmd), FindSubscribers(router.State(), cmd);
                && Subscriber(x.gid, sid, x.nid, idx) in list' && Without(list', sid) == Without(list, sid)
                && router.nidMap == old(router.nidMap)
                && forall k :: k != cmd ==>
                     FindSubscribers(router.State(), k) == FindSubscribers(old(router.State()), k)
    {
      hide AtRest, PlaneInv, Told, Calm, Pop, React, Answer, Routed, Word, Auth.CString, FindSubscribers, Without;
      ReactIs(c, sessions[sid].authed, f);
      SubMeaning(c, Place(sid, idx), sessions[sid], router.State(), f, sends);
      ok := TrySubscribe(sid, f, rest, sends);
    }

    /** A request that is short or comes before the login is ignored, but ends this round of reading. */
    method TryUnsubscribe(sid: nat, f: Frame, rest: seq<Byte>, sends: seq<SendResult>) returns (ok: bool)
      requires Popped(sid, f, rest) && f.flag == FLAG_SYS && f.typ == UNSUB_REQ
      modifies this`sessions, this`fdToSid, this`writeWatched, this`acts, this`plane, router
      ensures Valid() && Calm(old(plane), plane) && old(acts) + [Does(AHandle(idx, sid))] <= acts
      ensures sid in old(sessions)
      ensures var x := old(sessions)[sid];
              && sessions == Updated(old(sessions), sid, Answer(c, x, f, sends))
              && router.State() == Routed(c, Place(sid, idx), x, old(router.State()), f, Answer(c, x, f, sends))
      ensures ok <==> React(c, old(sessions)[sid].authed, f).Unsub?
    {
      hide PlaneInv, Told, Handle, RemoveSession, Unsubscribe, Calm, Pop, EncodeFrame, Sending, FromBe32;
      HandleIs(c, peer, plane, idx, sid, f, rest);
      var x := sessions[sid];
      if !x.authed || |f.payload| < 4 {
        Do(AHandle(idx, sid));
        return false;
      }
      var cmd := FromBe32(f.payload[..4]);
      var _ := router.Unsubscribe(cmd, sid);
      Reply(sid, UnsubAck(cmd), sends);
      ok := true;
    }

    /** Takes a session that has logged in off the list of the command in the payload. */
    method HandleUnsub(sid: nat, f: Frame, rest: seq<Byte>, sends: seq<SendResult>) returns (ok: bool)
      requires Popped(sid, f, rest) && f.flag == FLAG_SYS && f.typ == UNSUB_REQ
      modifies this`sessions, this`fdToSid, this`writeWatched, this`acts, this`plane, router
      ensures Valid() && Calm(old(plane), plane) && old(acts) + [Does(AHandle(idx, sid))] <= acts
      ensures sid in old(sessions)
      ensures var x := old(sessions)[sid];
              && sessions == Updated(old(sessions), sid, Answer(c, x, f, sends))
              && router.State() == Routed(c, Place(sid, idx), x, old(router.State()), f, Answer(c, x, f, sends))
      ensures ok <==> React(c, old(sessions)[sid].authed, f).Unsub?
      ensures ok <==> old(sessions)[sid].authed && |f.payload| >= 4
      ensures ok ==>
                var cmd, was, now := Word(f.payload, 0), old(router.State()), router.State();
                && (forall i :: 0 <= i < |FindSubscribers(now, cmd)| ==> FindSubscribers(now, cmd)[i].sid != sid)
                && (forall k :: Without(FindSubscribers(now, k), sid) == Without(FindSubscribers(was, k), sid))
                && (sid in sessions ==>
                      && router.nidMap == old(router.nidMap)
                      && forall k :: k != cmd ==> FindSubscribers(now, k) == FindSubscribers(was, k))
    {
      hide AtRest, PlaneInv, Told, Calm, Pop, React, Answer, Routed, Word, Auth.CString, FindSubscribers, Without;
      ReactIs(c, sessions[sid].authed, f);
      UnsubMeaning(c, Place(sid, idx), sessions[sid], router.State(), f, sends);
      ok := TryUnsubscribe(sid, f, rest, sends);
    }

    method HandleSystem(sid: nat, f: Frame, rest: seq<Byte>, sends: seq<SendResult>) returns (ok: bool)
      requires Popped(sid, f, rest) && f.flag == FLAG_SYS
      modifies this`sessions, this`fdToSid, this`writeWatched, this`acts, this`plane, router
      ensures Valid() && Calm(old(plane), plane) && old(acts) + [Does(AHandle(idx, sid))] <= acts
      ensures sid in old(sessions)
      ensures var x := old(sessions)[sid];
              && sessions == Updated(old(sessions), sid, Answer(c, x, f, sends))
              && router.State() == Routed(c, Place(sid, idx), x, old(router.State()), f, Answer(c, x, f, sends))
      ensures ok <==> !React(c, old(sessions)[sid].authed, f).Kick? && !Refused(c, old(sessions)[sid].authed, f)
      ensures ok <==> && (f.typ == 1 ==> Credentials(c, f))
                      && (f.typ == 5 || f.typ == 7 ==> old(sessions)[sid].authed && |f.payload| >= 4)
      ensures f.typ !in {1, 3, 5, 7} ==> sessions == old(sessions) && router.State() == old(router.State())
    {
      hide PlaneInv, Told, Handle, Calm, Pop, EncodeFrame, Sending, FromBe32;
      if f.typ == Auth.AUTH_REQ {
        ok := HandleAuth(sid, f, rest, sends);
      } else if f.typ == SUB_REQ {
        ok := HandleSub(sid, f, rest, sends);
      } else if f.typ == UNSUB_REQ {
        ok := HandleUnsub(sid, f, rest, sends);
      } else {
        HandleIs(c, peer, plane, idx, sid, f, rest);
        if f.typ == KPALIVE_REQ {
          Reply(sid, KpaliveAck, sends);
        } else {
          Do(AHandle(idx, sid));
        }
        ok := true;
      }
    }

    /** The attempts to hand the message over have ended. */
    ghost method HandOver()
      requires PlaneInv(c, peer, plane) && Told()
      requires idx < |plane.reactors| && plane.reactors[idx].pc.Pushing?
      modifies this`plane, this`acts
      ensures PlaneInv(c, peer, plane) && Told()
      ensures plane == SetPc(old(plane), idx, Idle) && acts == old(acts) + [HandsOver]
    {
      hide PlaneInv, Trace;
      PushedOnKeeps(c, peer, plane, idx, Idle);
      TraceSnoc(c, start, idx, acts, HandsOver);
      plane := SetPc(plane, idx, Idle);
      acts := acts + [HandsOver];
    }

    /** Pushes a business frame to the worker that serves the session; before the login it
        closes the session instead. */
    method EnqueueInbound(sid: nat, f: Frame, rest: seq<Byte>, queues: seq<MpscQueue<Message>>,
                          inbox: nat -> seq<Inbound>)
      requires Popped(sid, f, rest) && f.flag != FLAG_SYS && Fitting(queues)
      modifies this`sessions, this`fdToSid, this`writeWatched, this`acts, this`plane, router
      modifies queues[PickWorker(c, sid)]
      ensures Valid() && Calm(old(plane), plane) && old(acts) + [Does(AHandle(idx, sid))] <= acts
      ensures sid in old(sessions)
      ensures sessions
              == Updated(old(sessions), sid, if old(sessions)[sid].authed then Some(old(sessions)[sid]) else None)
      ensures router.State() == old(router.State())
      ensures var q := queues[PickWorker(c, sid)];
              && q.pushed == old(q.pushed) + Relayed(c, Place(sid, idx), old(sessions)[sid], f, inbox)
              && q.pushed == old(q.pushed)
                             + (var x, k := old(sessions)[sid], Admitted(inbox, c.capacity, 1000001);
                                if !x.authed || k.None? then []
                                else [Message(sid, idx, x.gid, x.nid, f.typ, f.flag,
                                              if k.value == 0 then f.payload else [])])
              && (!old(sessions)[sid].authed ==> q.queue == old(q.queue))
              && (old(sessions)[sid].authed ==>
                    && Relays(c, old(plane), idx, sid, MessageOf(Place(sid, idx), old(sessions)[sid], f))
                    && HandsOverTo(c, Handle(c, old(plane), idx, sid), plane, idx, inbox, q.queue))
    {
      hide PlaneInv, Told, Handle, Calm, Pop, HandsOverTo, Plains, Admitted, PickWorker;
      var x := sessions[sid];
      if !x.authed {
        Kick(sid, f, rest);
        return;
      }
      var q := queues[PickWorker(c, sid)];
      var m := MessageOf(Place(sid, idx), x, f);
      var _ := PushMessage(q, m, inbox);
      Hand(sid, f, rest, inbox, q.queue);
    }

    /** The retrying push of a message, with what other threads leave in the queue given as inbound messages. */
    method PushMessage(q: MpscQueue<Message>, m: Message, inbox: nat -> seq<Inbound>) returns (ok: bool)
      modifies q
      ensures match Admitted(inbox, q.capacity, MAX_RETRIES + 1)
              case None => q.queue == Plains(inbox(MAX_RETRIES)) && q.pushed == old(q.pushed)
              case Some(k) =>
                var arrived := if k == 0 then m else m.(payload := []);
                q.queue == Plains(inbox(k)) + [arrived] && q.pushed == old(q.pushed) + [arrived]
    {
      hide Plains, Admitted;
      var others := (i: nat) => Plains(inbox(i));
      AdmittedPlain(inbox, others, q.capacity, MAX_RETRIES + 1);
      ok := PushWithBackoff(q, m, (v: Message) => v.(payload := []), others, MAX_RETRIES);
    }

    /** The steps of the plane for a relayed frame. */
    ghost method Hand(sid: nat, f: Frame, rest: seq<Byte>, inbox: nat -> seq<Inbound>, queue: seq<Message>)
      requires Popped(sid, f, rest) && f.flag != FLAG_SYS && sessions[sid].authed && ValidConfig(c)
      requires var m := MessageOf(Place(sid, idx), sessions[sid], f);
               queue == match Admitted(inbox, c.capacity, MAX_RETRIES + 1)
                        case None => Plains(inbox(MAX_RETRIES))
                        case Some(k) => Plains(inbox(k)) + [if k == 0 then m else m.(payload := [])]
      modifies this`plane, this`acts
      ensures Valid() && Calm(old(plane), plane) && acts == old(acts) + [Does(AHandle(idx, sid)), HandsOver]
      ensures Relays(c, old(plane), idx, sid, MessageOf(Place(sid, idx), sessions[sid], f))
      ensures HandsOverTo(c, Handle(c, old(plane), idx, sid), plane, idx, inbox, queue)
    {
      hide PlaneInv, Told, Handle, Calm, Pop, HandsOverTo, Plains, Admitted;
      HandleIs(c, peer, plane, idx, sid, f, rest);
      Do(AHandle(idx, sid));
      ghost var pushing := plane;
      HandsOverIs(c, plane, idx, plane.reactors[idx].pc.msg, inbox, queue);
      HandOver();
      CalmPc(old(plane), pushing, idx);
    }

    // ---------- reading ----------

    /** What the session's frame buffer yields, and what it keeps. */
    method NextFrame(fb: seq<Byte>) returns (f: Option<Frame>, rest: seq<Byte>)
      ensures match Pop(fb)
              case NeedMore => f == None && rest == fb
              case Bad => f == None && rest == []
              case Got(frame, tail) => f == Some(frame) && rest == tail
    {
      hide Pop, Word;
      var buffer := new FrameBuffer();
      buffer.Append(fb);
      assert [] + fb == fb;
      f := buffer.TryPopFrame();
      rest := buffer.buf;
    }

    /** Handles the next frame in the buffer, if it is complete; `more` says to go on. */
    method HandleNext(sid: nat, queues: seq<MpscQueue<Message>>, out: nat -> Outside, n: nat, sent: seq<Message>)
      returns (r: Reading, more: bool)
      requires Valid() && sid in sessions && Fitting(queues)
      modifies this`sessions, this`fdToSid, this`writeWatched, this`acts, this`plane, router
      modifies queues[PickWorker(c, sid)]
      ensures Valid() && Calm(old(plane), plane) && old(acts) <= acts
      ensures sessions == Updated(old(sessions), sid, r.session) && router.State() == r.tables
      ensures var q := queues[PickWorker(c, sid)]; sent <= r.relayed && q.pushed == old(q.pushed) + r.relayed[|sent|..]
      ensures var all := Serve(c, Place(sid, idx), old(sessions)[sid], old(router.State()), out, n, sent);
              && (!more ==> r == all)
              && (more ==>
                    && r.session.Some? && |r.session.value.fb| < |old(sessions)[sid].fb|
                    && Serve(c, Place(sid, idx), r.session.value, r.tables, out, r.used, r.relayed) == all)
    {
      hide PlaneInv, Told, Handle, Calm, WatchedBut, React, Sending, Relayed, PickWorker;
      CalmRefl(plane);
      var x := sessions[sid];
      var tables := router.State();
      var f, rest := NextFrame(x.fb);
      if f == None {
        Keep(sid, rest);
        return Reading(Some(x.(fb := rest)), n, sent, tables, Drained), false;
      }
      var z, ok := HandleFrame(sid, f.value, rest, queues, out(n));
      var sent' := sent + Relayed(c, Place(sid, idx), x.(fb := rest), f.value, out(n).inbox);
      if z.None? {
        return Reading(None, n + 1, sent', router.State(), Gone), false;
      }
      more := ok;
      r := Reading(z, n + 1, sent', router.State(), Halted);
    }

    /** What is left when no frame could be popped: all of it, or nothing after a wrong checksum. */
    method Keep(sid: nat, rest: seq<Byte>)
      requires Valid() && sid in sessions && !Pop(sessions[sid].fb).Got?
      requires rest == if Pop(sessions[sid].fb).Bad? then [] else sessions[sid].fb
      modifies this`sessions, this`fdToSid, this`writeWatched, this`acts, this`plane
      ensures Valid() && Calm(old(plane), plane) && old(acts) <= acts
      ensures sessions == old(sessions)[sid := old(sessions)[sid].(fb := rest)]
    {
      hide PlaneInv, Told, Handle, Calm;
      CalmRefl(plane);
      if Pop(sessions[sid].fb).Bad? {
        DiscardIs(c, peer, plane, idx, sid);
        sessions := sessions[sid := sessions[sid].(fb := rest)];
        Do(AHandle(idx, sid));
      } else {
        assert sessions == sessions[sid := sessions[sid].(fb := rest)];
      }
    }

    /** Takes a complete frame out of the buffer and handles it. */
    method HandleFrame(sid: nat, f: Frame, rest: seq<Byte>, queues: seq<MpscQueue<Message>>, out: Outside)
      returns (z: Option<Session>, ok: bool)
      requires Valid() && sid in sessions && Fitting(queues)
      requires Pop(sessions[sid].fb) == Got(f, rest)
      modifies this`sessions, this`fdToSid, this`writeWatched, this`acts, this`plane, router
      modifies queues[PickWorker(c, sid)]
      ensures Valid() && Calm(old(plane), plane) && old(acts) <= acts
      ensures z == Answer(c, old(sessions)[sid].(fb := rest), f, out.sends)
      ensures z.Some? ==> (ok <==> !Refused(c, old(sessions)[sid].authed, f))
      ensures sessions == Updated(old(sessions), sid, z)
      ensures router.State() == Routed(c, Place(sid, idx), old(sessions)[sid].(fb := rest), old(router.State()), f, z)
      ensures var q := queues[PickWorker(c, sid)];
              q.pushed == old(q.pushed) + Relayed(c, Place(sid, idx), old(sessions)[sid].(fb := rest), f, out.inbox)
    {
      hide PlaneInv, Told, Calm, Pop, React, Answer, Routed, PickWorker, HandsOverTo, Relays, Admitted;
      var x := sessions[sid].(fb := rest);
      AnswerFacts(c, Place(sid, idx), x, router.State(), f, out.sends);
      UpdatedTwice(sessions, sid, x, Answer(c, x, f, out.sends));
      sessions := sessions[sid := x];
      if f.flag == FLAG_SYS {
        ok := HandleSystem(sid, f, rest, out.sends);
      } else {
        EnqueueInbound(sid, f, rest, queues, out.inbox);
        ok := true;
      }
      z := if sid in sessions then Some(sessions[sid]) else None;
    }

    /** Handles the complete frames in the buffer. */
    method HandleFrames(sid: nat, queues: seq<MpscQueue<Message>>, out: nat -> Outside, n: nat, sent: seq<Message>)
      returns (r: Reading)
      requires Valid() && sid in sessions && Fitting(queues)
      modifies this`sessions, this`fdToSid, this`writeWatched, this`acts, this`plane, router
      modifies queues[PickWorker(c, sid)]
      ensures Valid() && Calm(old(plane), plane) && old(acts) <= acts
      ensures r == Serve(c, Place(sid, idx), old(sessions)[sid], old(router.State()), out, n, sent)
      ensures sessions == Updated(old(sessions), sid, r.session) && router.State() == r.tables
      ensures var q := queues[PickWorker(c, sid)]; sent <= r.relayed && q.pushed == old(q.pushed) + r.relayed[|sent|..]
    {
      hide Valid, Calm, Serve, PickWorker;
      CalmRefl(plane);
      ghost var was, first, q := sessions, plane, queues[PickWorker(c, sid)];
      ghost var pushed, all := q.pushed, Serve(c, Place(sid, idx), was[sid], router.State(), out, n, sent);
      var more := true;
      r := Reading(Some(sessions[sid]), n, sent, router.State(), Drained);
      assert was == Updated(was, sid, r.session);
      while more
        invariant Valid() && Calm(first, plane) && old(acts) <= acts
        invariant sessions == Updated(was, sid, r.session) && router.State() == r.tables
        invariant more ==>
                    && r.session.Some?
                    && Serve(c, Place(sid, idx), r.session.value, r.tables, out, r.used, r.relayed) == all
        invariant !more ==> r == all
        invariant sent <= r.relayed && q.pushed == pushed + r.relayed[|sent|..]
        decreases more, if r.session.Some? then |r.session.value.fb| else 0
      {
        ghost var before, x, earlier := plane, r.session.value, r.relayed;
        r, more := HandleNext(sid, queues, out, r.used, r.relayed);
        RelayedOn(pushed, sent, earlier, r.relayed);
        CalmTwice(first, before, plane);
        UpdatedTwice(was, sid, x, r.session);
      }
    }

    /** One successful read. */
    method Receive(sid: nat, chunk: seq<Byte>)
      requires Valid() && sid in sessions
      modifies this`sessions, this`fdToSid, this`writeWatched, this`acts, this`plane
      ensures Valid() && acts == old(acts) + [Does(AReceive(idx, sid, chunk))]
      ensures var x := old(sessions)[sid]; sessions == old(sessions)[sid := x.(fb := x.fb + chunk)]
      ensures sid in old(plane).log && sid in plane.log
      ensures plane.log[sid].received == old(plane).log[sid].received + chunk
    {
      hide PlaneInv, Told, HubModel.Receive;
      ReceiveIs(c, peer, plane, idx, sid, chunk);
      var x := sessions[sid];
      sessions := sessions[sid := x.(fb := x.fb + chunk)];
      Do(AReceive(idx, sid, chunk));
    }

    /** Reads until the socket has nothing more, the session is gone, or a frame ends the round.
        When the socket is drained, every complete frame the peer has sent was handled. */
    method HandleReadable(fd: int, recvs: seq<RecvResult>, queues: seq<MpscQueue<Message>>, out: nat -> Outside)
      requires Valid() && Fitting(queues)
      modifies this`sessions, this`fdToSid, this`writeWatched, this`acts, this`plane, router
      modifies if fd in fdToSid then {queues[PickWorker(c, fdToSid[fd])]} else {}
      ensures Valid() && old(acts) <= acts
      ensures fd !in old(fdToSid) ==>
                sessions == old(sessions) && plane == old(plane) && router.State() == old(router.State())
      ensures fd in old(fdToSid) ==>
                var sid := old(fdToSid)[fd];
                && sid in old(sessions) && sid in old(plane).log && sid in plane.log
                && var r := ServeAll(c, Place(sid, idx), old(sessions)[sid], old(router.State()), recvs, out, 0, []);
                && var q := queues[PickWorker(c, sid)];
                && sessions == Updated(old(sessions), sid, r.session) && router.State() == r.tables
                && q.pushed == old(q.pushed) + r.relayed
                && (r.stop.Drained? ==> plane.log[sid].received == old(plane).log[sid].received + BytesOf(recvs))
                && (&& r.stop.Drained? && (Pop(old(sessions)[sid].fb).NeedMore? || BytesOf(recvs) != [])
                    && !plane.log[sid].garbled ==>
                      plane.log[sid].handled == Parse(plane.log[sid].received).frames)
    {
      hide PlaneInv, Told, WatchedBut, Serve, ServeAll, BytesOf, Pop, Parse, PickWorker;
      if fd !in fdToSid {
        return;
      }
      var sid := fdToSid[fd];
      IndexedSession(c, peer, plane, idx, fd);
      HeldInLog(c, peer, plane, idx, sid);
      ServeAllDrained(c, Place(sid, idx), sessions[sid], router.State(), recvs, out, 0, []);
      ReadLoop(sid, recvs, queues, out);
      if sid in sessions && Pop(sessions[sid].fb).NeedMore? {
        AllFramesHandled(c, peer, plane, idx, sid);
      }
    }

    /** One read and the frames it completes. */
    method ReadOnce(sid: nat, chunk: seq<Byte>, queues: seq<MpscQueue<Message>>, out: nat -> Outside, n: nat,
                    sent: seq<Message>)
      returns (r: Reading)
      requires Valid() && sid in sessions && sid in plane.log && Fitting(queues)
      modifies this`sessions, this`fdToSid, this`writeWatched, this`acts, this`plane, router
      modifies queues[PickWorker(c, sid)]
      ensures Valid() && old(acts) <= acts && sid in plane.log
      ensures plane.log[sid].received == old(plane).log[sid].received + chunk
      ensures var x := old(sessions)[sid];
              r == Serve(c, Place(sid, idx), x.(fb := x.fb + chunk), old(router.State()), out, n, sent)
      ensures sessions == Updated(old(sessions), sid, r.session) && router.State() == r.tables
      ensures var q := queues[PickWorker(c, sid)]; sent <= r.relayed && q.pushed == old(q.pushed) + r.relayed[|sent|..]
    {
      hide AtRest, WatchedBut, Serve, PickWorker, Updated;
      var x := sessions[sid];
      Receive(sid, chunk);
      ghost var y := sessions[sid];
      r := HandleFrames(sid, queues, out, n, sent);
      UpdatedTwice(old(sessions), sid, y, r.session);
    }

    /** The peer has gone away. */
    method LoseSession(sid: nat)
      requires Valid() && sid in sessions && sid in plane.log
      modifies this`sessions, this`fdToSid, this`writeWatched, this`acts, this`plane, router
      ensures Valid() && old(acts) <= acts && sessions == Updated(old(sessions), sid, None)
      ensures router.State() == Left(old(router.State()), sid, old(sessions)[sid], None)
      ensures sid in plane.log && plane.log[sid].received == old(plane).log[sid].received
    {
      hide AtRest, WatchedBut, RemoveSession;
      WatchedAnyway(sessions[sid].fd);
      CloseSession(sid);
    }

    method ReadLoop(sid: nat, recvs: seq<RecvResult>, queues: seq<MpscQueue<Message>>, out: nat -> Outside)
      requires Valid() && sid in sessions && sid in plane.log && Fitting(queues)
      modifies this`sessions, this`fdToSid, this`writeWatched, this`acts, this`plane, router
      modifies queues[PickWorker(c, sid)]
      ensures Valid() && old(acts) <= acts && sid in plane.log
      ensures var r := ServeAll(c, Place(sid, idx), old(sessions)[sid], old(router.State()), recvs, out, 0, []);
              var q := queues[PickWorker(c, sid)];
              && sessions == Updated(old(sessions), sid, r.session) && router.State() == r.tables
                && q.pushed == old(q.pushed) + r.relayed
              && (r.stop.Drained? ==> plane.log[sid].received == old(plane).log[sid].received + BytesOf(recvs))
    {
      hide Valid, Serve, ServeAll, BytesOf, Pop, PickWorker;
      ghost var was, start, q := sessions, plane.log[sid].received, queues[PickWorker(c, sid)];
      ghost var pushed, all := q.pushed, ServeAll(c, Place(sid, idx), was[sid], router.State(), recvs, out, 0, []);
      var x, todo, n, sent := sessions[sid], recvs, 0, [];
      assert was == Updated(was, sid, Some(x));
      while todo != []
        invariant Valid() && old(acts) <= acts && sid in plane.log
        invariant sessions == Updated(was, sid, Some(x))
        invariant ServeAll(c, Place(sid, idx), x, router.State(), todo, out, n, sent) == all
        invariant q.pushed == pushed + sent
        invariant plane.log[sid].received + BytesOf(todo) == start + BytesOf(recvs)
        decreases todo
      {
        ServeAllStep(c, Place(sid, idx), x, router.State(), todo, out, n, sent);
        BytesOfStep(todo);
        UpdatedTwice(was, sid, x, None);
        if todo[0].NothingYet? {
          break;
        }
        if todo[0].Lost? || todo[0].chunk == [] {
          LoseSession(sid);
          return;
        }
        var r := ReadOnce(sid, todo[0].chunk, queues, out, n, sent);
        RelayedOn(pushed, [], sent, r.relayed);
        UpdatedTwice(was, sid, x, r.session);
        if !r.stop.Drained? {
          return;
        }
        x, n, sent, todo := r.session.value, r.used, r.relayed, todo[1..];
      }
      ServeAllStep(c, Place(sid, idx), x, router.State(), todo, out, n, sent);
      BytesOfStep(todo);
    }
  }
}
