/** The running hub as a step system: two planes, the threads of each, and the
    queues between them. One action is one atomic piece of one thread: an
    operation under a mutex, a pop or push of a single-producer queue, or work
    on state only that thread touches. A run is any sequence of enabled
    actions, so it covers every interleaving of the threads.

    Nothing here is bounded: sessions come and go, frames arrive in any chunks,
    sockets take any part of the output, and every queue may be full.

    The `log` of a plane, `enqueued`, `dropped` and the `Meta` of a frame are
    histories. They record what happened and no action reads them to decide
    what to do. */
module HubModel {
  import opened Bytes
  import opened Wire
  import ImHeader
  import Auth
  import opened Routing

  // ---------- configuration and constants ----------

  datatype Config = Config(reactors: nat, workers: nat, capacity: nat, user: seq<Byte>, pass: seq<Byte>)

  /** At least one reactor and one worker are started whatever is configured. */
  predicate ValidConfig(c: Config) {
    c.reactors >= 1 && c.workers >= 1
  }

  const MAX_RETRIES: nat := 1000000

  const AUTH_ACK: U32 := 0x0002
  const KPALIVE_REQ: U32 := 0x0003
  const KPALIVE_ACK: U32 := 0x0004
  const SUB_REQ: U32 := 0x0005
  const SUB_ACK: U32 := 0x0006
  const UNSUB_REQ: U32 := 0x0007
  const UNSUB_ACK: U32 := 0x0008

  // ---------- messages ----------

  /** A business frame on its way to a worker. `frameNo` is its position among
      all frames popped from the session; `retried` says an earlier push attempt
      failed, which leaves the moved-from payload empty. */
  datatype Inbound = Inbound(sid: nat, reactor: int, gid: U32, nid: U32, typ: U32, flag: U32, payload: seq<Byte>,
                             frameNo: nat, retried: bool)

  /** Where a frame comes from and what befell it. `emptied`: the message it was made from had
      lost its payload to a retried push of the receive queue. `retried`: a later push of the
      frame itself had to be retried, which leaves its bytes empty. */
  datatype Meta = Meta(src: nat, frameNo: nat, cmd: U32, nid: U32, payload: seq<Byte>, published: bool,
                       emptied: bool, retried: bool)

  datatype Outbound = Outbound(sid: nat, reactor: int, bytes: seq<Byte>, meta: Meta)

  datatype Ack = AuthAck | SubAck(cmd: U32) | UnsubAck(cmd: U32) | KpaliveAck

  function AckType(a: Ack): U32 {
    match a
    case AuthAck => AUTH_ACK
    case SubAck(_) => SUB_ACK
    case UnsubAck(_) => UNSUB_ACK
    case KpaliveAck => KPALIVE_ACK
  }

  /** One frame appended to a session's output. */
  datatype Item = AckItem(ack: Ack, nid: U32) | BizItem(frame: Outbound)

  function ItemFrame(i: Item): Frame {
    match i
    case AckItem(a, nid) => Frame(AckType(a), nid, FLAG_SYS, [])
    case BizItem(x) => Frame(x.meta.cmd, x.meta.nid, FLAG_EXP, x.meta.payload)
  }

  // ---------- one attempt to push into a bounded queue ----------

  datatype Attempt = Pushed | Retry | GiveUp

  /** Attempts are numbered from 0; the retry loop makes `MAX_RETRIES` of them and then one more. */
  function TryPush(length: nat, capacity: nat, attempt: nat): Attempt {
    if length < capacity then Pushed
    else if attempt < MAX_RETRIES then Retry
    else GiveUp
  }

  // ---------- per-session state and history ----------

  datatype Identity = Identity(gid: U32, nid: U32)

  datatype Session = Session(fd: int, authed: bool, gid: U32, nid: U32, fb: seq<Byte>, outbuf: seq<Byte>)

  /** `granted`: acknowledgements whose effect on the tables has happened.
      `handled`: frames popped so far. `garbled`: a wrong checksum was seen.
      `stream`: frames appended to the output. `sent`: bytes the socket took. */
  datatype SessionLog = SessionLog(
    reactor: int, fd: int, closed: bool, auths: seq<Identity>, granted: set<Ack>,
    received: seq<Byte>, handled: seq<Frame>, garbled: bool, stream: seq<Item>, sent: seq<Byte>)

  type Log = map<nat, SessionLog>

  datatype ReactorPc =
    | Idle
    | Acking(sid: nat, ack: Ack)
    | Pushing(msg: Inbound, attempt: nat)

  datatype Reactor = Reactor(sessions: map<nat, Session>, fdToSid: map<int, nat>, pc: ReactorPc)

  datatype NewConn = NewConn(fd: int, sid: nat)
  datatype Listener = Waiting | Holding(conn: NewConn, reactor: int)

  // ---------- the way out of a plane ----------

  datatype Why = BadReactor | SendQueueFull | SessionGone | Emptied
  datatype Drop = Drop(frame: Outbound, why: Why)
  datatype Held = Held(frame: Outbound, attempt: nat)

  /** Distribution queue, the frame in the distributor's hand, the send queues,
      and the frames ever enqueued and dropped. */
  datatype Egress = Egress(
    distQ: seq<Outbound>, hand: Option<Held>, sendQ: seq<seq<Outbound>>,
    enqueued: seq<Outbound>, dropped: seq<Drop>)

  datatype Plane = Plane(
    nextSid: nat, listener: Listener, connQ: seq<seq<NewConn>>, reactors: seq<Reactor>,
    tables: Tables, egress: Egress, log: Log)

  // ---------- the way from one plane to its peer ----------

  datatype Target = Target(sid: nat, reactor: int, nid: U32)

  /** `all` is the history of the lookup: the recipients it found, of which `todo` are left. */
  datatype WorkerPc =
    | Free
    | Taken(msg: Inbound)
    | Fanout(msg: Inbound, published: bool, todo: seq<Target>, attempt: nat, all: seq<Target>)

  /** A message a worker is done with: of the recipients looked up, the first `served` got a frame. */
  datatype Finished = Finished(msg: Inbound, published: bool, all: seq<Target>, served: nat)

  datatype Link = Link(recvQ: seq<seq<Inbound>>, workers: seq<WorkerPc>, finished: seq<Finished>)

  datatype Dir = Forward | Backend

  datatype Hub = Hub(forward: Plane, backend: Plane, up: Link, down: Link)

  // ---------- small updates ----------

  /** Changes one session, its history and the reactor's control point. */
  function Update(s: Plane, r: nat, sid: nat, x: Session, l: SessionLog, pc: ReactorPc): Plane
    requires r < |s.reactors|
  {
    s.(reactors := s.reactors[r := s.reactors[r].(sessions := s.reactors[r].sessions[sid := x], pc := pc)],
       log := s.log[sid := l])
  }

  function SetPc(s: Plane, r: nat, pc: ReactorPc): Plane
    requires r < |s.reactors|
  {
    s.(reactors := s.reactors[r := s.reactors[r].(pc := pc)])
  }

  // ---------- listener ----------

  ghost predicate FdOpen(log: Log, fd: int) {
    exists sid :: sid in log && !log[sid].closed && log[sid].fd == fd
  }

  /** The operating system hands out no descriptor that is still open. */
  ghost predicate CanAccept(c: Config, s: Plane, fd: int, r: nat) {
    s.listener.Waiting? && r < c.reactors && !FdOpen(s.log, fd)
  }

  function NewLog(r: nat, fd: int): SessionLog {
    SessionLog(r, fd, false, [], {}, [], [], false, [], [])
  }

  /** Any reactor may be picked: the round-robin counter is shared by both planes. */
  function Accept(s: Plane, fd: int, r: nat): Plane {
    s.(nextSid := s.nextSid + 1,
       listener := Holding(NewConn(fd, s.nextSid), r),
       log := s.log[s.nextSid := NewLog(r, fd)])
  }

  predicate CanConnPush(s: Plane) {
    s.listener.Holding? && 0 <= s.listener.reactor < |s.connQ| && s.listener.conn.sid in s.log
  }

  /** A full connection queue closes the new socket. */
  function ConnPush(c: Config, s: Plane): Plane
    requires CanConnPush(s)
  {
    var conn, r := s.listener.conn, s.listener.reactor;
    if |s.connQ[r]| < c.capacity then
      s.(listener := Waiting, connQ := s.connQ[r := s.connQ[r] + [conn]])
    else
      s.(listener := Waiting, log := s.log[conn.sid := s.log[conn.sid].(closed := true)])
  }

  // ---------- reactor ----------

  predicate IsIdle(s: Plane, r: nat) {
    r < |s.reactors| && s.reactors[r].pc.Idle?
  }

  predicate Has(s: Plane, r: nat, sid: nat) {
    r < |s.reactors| && sid in s.reactors[r].sessions && sid in s.log
  }

  predicate CanIntake(s: Plane, r: nat) {
    IsIdle(s, r) && r < |s.connQ| && s.connQ[r] != []
  }

  function Intake(s: Plane, r: nat): Plane
    requires CanIntake(s, r)
  {
    var conn, R := s.connQ[r][0], s.reactors[r];
    s.(connQ := s.connQ[r := s.connQ[r][1..]],
       reactors := s.reactors[r := R.(fdToSid := R.fdToSid[conn.fd := conn.sid],
                                      sessions := R.sessions[conn.sid := Session(conn.fd, false, 0, 0, [], [])])])
  }

  function Receive(s: Plane, r: nat, sid: nat, chunk: seq<Byte>): Plane
    requires Has(s, r, sid)
  {
    var x, l := s.reactors[r].sessions[sid], s.log[sid];
    Update(s, r, sid, x.(fb := x.fb + chunk), l.(received := l.received + chunk), Idle)
  }

  /** What a popped frame makes the reactor do. */
  datatype Reaction = Login(who: Identity) | Sub(cmd: U32) | Unsub(cmd: U32) | Keepalive | Ignore | Kick | Relay

  function GoodAuth(c: Config, f: Frame): Option<Identity> {
    if f.flag == FLAG_SYS && f.typ == Auth.AUTH_REQ then
      match Auth.DecodeAuthPayload(f.payload)
      case None => None
      case Some(p) => if Auth.CredentialsMatch(c.user, c.pass, p) then Some(Identity(p.gid, p.nid)) else None
    else None
  }

  function React(c: Config, authed: bool, f: Frame): Reaction {
    if f.flag != FLAG_SYS then (if authed then Relay else Kick)
    else if f.typ == Auth.AUTH_REQ then
      match GoodAuth(c, f)
      case None => Kick
      case Some(who) => Login(who)
    else if f.typ == SUB_REQ then
      if !authed || |f.payload| < 4 then Kick else Sub(FromBe32(f.payload[..4]))
    else if f.typ == UNSUB_REQ then
      if !authed || |f.payload| < 4 then Ignore else Unsub(FromBe32(f.payload[..4]))
    else if f.typ == KPALIVE_REQ then Keepalive
    else Ignore
  }

  /** Routes are removed only for an authenticated session, and only its latest node id is named. */
  function Close(s: Plane, r: nat, sid: nat): Plane
    requires Has(s, r, sid)
  {
    var R, x := s.reactors[r], s.reactors[r].sessions[sid];
    s.(tables := if x.authed then RemoveSession(s.tables, sid, x.nid) else s.tables,
       reactors := s.reactors[r := R.(sessions := R.sessions - {sid}, fdToSid := R.fdToSid - {x.fd})],
       log := s.log[sid := s.log[sid].(closed := true)])
  }

  /** Appends the granted acknowledgement to the history and makes the reactor owe it. */
  function Grant(s: Plane, r: nat, sid: nat, x: Session, l: SessionLog, a: Ack): Plane
    requires r < |s.reactors|
  {
    Update(s, r, sid, x, l.(granted := l.granted + {a}), Acking(sid, a))
  }

  /** Reacts to a frame that leaves `rest` in the session's buffer. A login stores the
      identity and binds the node id, a subscription changes the tables; in both cases the
      acknowledgement is appended by a later action. */
  function Perform(c: Config, s: Plane, r: nat, sid: nat, f: Frame, rest: seq<Byte>): Plane
    requires Has(s, r, sid)
  {
    var x := s.reactors[r].sessions[sid].(fb := rest);
    var l := s.log[sid].(handled := s.log[sid].handled + [f]);
    match React(c, x.authed, f)
    case Login(who) =>
      Grant(s.(tables := BindNid(s.tables, who.nid, sid, r)), r, sid,
            x.(authed := true, gid := who.gid, nid := who.nid), l.(auths := l.auths + [who]), AuthAck)
    case Sub(cmd) =>
      Grant(s.(tables := Subscribe(s.tables, cmd, Subscriber(x.gid, sid, x.nid, r))), r, sid, x, l, SubAck(cmd))
    case Unsub(cmd) =>
      Grant(s.(tables := Unsubscribe(s.tables, cmd, sid)), r, sid, x, l, UnsubAck(cmd))
    case Keepalive => Grant(s, r, sid, x, l, KpaliveAck)
    case Ignore => Update(s, r, sid, x, l, Idle)
    case Kick => Close(Update(s, r, sid, x, l, Idle), r, sid)
    case Relay =>
      Update(s, r, sid, x, l,
             Pushing(Inbound(sid, r, x.gid, x.nid, f.typ, f.flag, f.payload, |l.handled| - 1, false), 0))
  }

  predicate CanHandle(s: Plane, r: nat, sid: nat) {
    IsIdle(s, r) && Has(s, r, sid) && !Pop(s.reactors[r].sessions[sid].fb).NeedMore?
  }

  /** Pops the next frame of a session and reacts to it; a wrong checksum discards the buffer. */
  function Handle(c: Config, s: Plane, r: nat, sid: nat): Plane
    requires CanHandle(s, r, sid)
  {
    var x := s.reactors[r].sessions[sid];
    match Pop(x.fb)
    case Bad => Update(s, r, sid, x.(fb := []), s.log[sid].(garbled := true), Idle)
    case Got(f, rest) => Perform(c, s, r, sid, f, rest)
  }

  predicate CanAckAppend(s: Plane, r: nat) {
    r < |s.reactors| && s.reactors[r].pc.Acking? && Has(s, r, s.reactors[r].pc.sid)
  }

  /** Appends to the session's output and leaves the reactor idle. */
  function AppendItem(s: Plane, r: nat, sid: nat, i: Item, bytes: seq<Byte>): Plane
    requires Has(s, r, sid)
  {
    var x, l := s.reactors[r].sessions[sid], s.log[sid];
    Update(s, r, sid, x.(outbuf := x.outbuf + bytes), l.(stream := l.stream + [i]), Idle)
  }

  function AckAppend(s: Plane, r: nat): Plane
    requires CanAckAppend(s, r)
  {
    var sid, a := s.reactors[r].pc.sid, s.reactors[r].pc.ack;
    var i := AckItem(a, s.reactors[r].sessions[sid].nid);
    AppendItem(s, r, sid, i, Encode(ItemFrame(i)))
  }

  predicate CanSendSome(s: Plane, r: nat, sid: nat, n: nat) {
    IsIdle(s, r) && Has(s, r, sid) && n <= |s.reactors[r].sessions[sid].outbuf|
  }

  /** The socket takes any number of pending bytes. */
  function SendSome(s: Plane, r: nat, sid: nat, n: nat): Plane
    requires CanSendSome(s, r, sid, n)
  {
    var x, l := s.reactors[r].sessions[sid], s.log[sid];
    Update(s, r, sid, x.(outbuf := x.outbuf[n..]), l.(sent := l.sent + x.outbuf[..n]), Idle)
  }

  predicate CanDrain(s: Plane, r: nat) {
    IsIdle(s, r) && r < |s.egress.sendQ| && s.egress.sendQ[r] != []
  }

  /** Pops one frame from the reactor's send queue. Empty bytes append nothing. */
  function Drain(s: Plane, r: nat): Plane
    requires CanDrain(s, r)
  {
    var e, x := s.egress, s.egress.sendQ[r][0];
    var e' := e.(sendQ := e.sendQ[r := e.sendQ[r][1..]]);
    if !Has(s, r, x.sid) then s.(egress := e'.(dropped := e.dropped + [Drop(x, SessionGone)]))
    else if x.bytes == [] then s.(egress := e'.(dropped := e.dropped + [Drop(x, Emptied)]))
    else AppendItem(s.(egress := e'), r, x.sid, BizItem(x), x.bytes)
  }

  // ---------- distributor ----------

  predicate CanDistPop(e: Egress) {
    e.hand.None? && e.distQ != []
  }

  function DistPop(e: Egress): Egress
    requires CanDistPop(e)
  {
    e.(distQ := e.distQ[1..], hand := Some(Held(e.distQ[0], 0)))
  }

  predicate CanDistPush(e: Egress) {
    e.hand.Some? && e.hand.value.frame.reactor < |e.sendQ|
  }

  /** What later attempts push: the bytes were moved out by the first one. */
  function AfterRetries(x: Outbound, attempt: nat): Outbound {
    if attempt == 0 then x else x.(bytes := [], meta := x.meta.(retried := true))
  }

  function DistPush(c: Config, e: Egress): Egress
    requires CanDistPush(e)
  {
    var x, n := e.hand.value.frame, e.hand.value.attempt;
    if x.reactor < 0 then e.(hand := None, dropped := e.dropped + [Drop(x, BadReactor)])
    else
      match TryPush(|e.sendQ[x.reactor]|, c.capacity, n)
      case Pushed => e.(hand := None, sendQ := e.sendQ[x.reactor := e.sendQ[x.reactor] + [AfterRetries(x, n)]])
      case Retry => e.(hand := Some(Held(x, n + 1)))
      case GiveUp => e.(hand := None, dropped := e.dropped + [Drop(x, SendQueueFull)])
  }

  // ---------- from a reactor to a worker, and through the bridge ----------

  function PickWorker(c: Config, sid: nat): (w: nat)
    requires ValidConfig(c)
    ensures w < c.workers
  {
    sid % c.workers
  }

  predicate CanRecvPush(c: Config, src: Plane, link: Link, r: nat)
    requires ValidConfig(c)
  {
    r < |src.reactors| && src.reactors[r].pc.Pushing? && PickWorker(c, src.reactors[r].pc.msg.sid) < |link.recvQ|
  }

  function RecvOutcome(c: Config, src: Plane, link: Link, r: nat): Attempt
    requires ValidConfig(c) && CanRecvPush(c, src, link, r)
  {
    TryPush(|link.recvQ[PickWorker(c, src.reactors[r].pc.msg.sid)]|, c.capacity, src.reactors[r].pc.attempt)
  }

  function RecvPushPlane(c: Config, src: Plane, link: Link, r: nat): Plane
    requires ValidConfig(c) && CanRecvPush(c, src, link, r)
  {
    var pc := src.reactors[r].pc;
    SetPc(src, r, if RecvOutcome(c, src, link, r).Retry? then Pushing(pc.msg, pc.attempt + 1) else Idle)
  }

  function InboundAfterRetries(m: Inbound, attempt: nat): Inbound {
    if attempt == 0 then m else m.(payload := [], retried := true)
  }

  function RecvPushLink(c: Config, src: Plane, link: Link, r: nat): Link
    requires ValidConfig(c) && CanRecvPush(c, src, link, r)
  {
    var pc := src.reactors[r].pc;
    var w := PickWorker(c, pc.msg.sid);
    if RecvOutcome(c, src, link, r).Pushed?
    then link.(recvQ := link.recvQ[w := link.recvQ[w] + [InboundAfterRetries(pc.msg, pc.attempt)]])
    else link
  }

  predicate CanWorkerPop(link: Link, w: nat) {
    w < |link.workers| && w < |link.recvQ| && link.workers[w].Free? && link.recvQ[w] != []
  }

  function WorkerPop(link: Link, w: nat): Link
    requires CanWorkerPop(link, w)
  {
    link.(recvQ := link.recvQ[w := link.recvQ[w][1..]], workers := link.workers[w := Taken(link.recvQ[w][0])])
  }

  predicate CanLookup(link: Link, w: nat) {
    w < |link.workers| && link.workers[w].Taken?
  }

  function Targets(list: seq<Subscriber>): seq<Target> {
    seq(|list|, i requires 0 <= i < |list| => Target(list[i].sid, list[i].reactor, list[i].nid))
  }

  /** Whom the default bridge handler of the plane sends a message to: an
      uplink message to every subscriber of its command, a downlink message to
      the session its IM header names. */
  function Recipients(dir: Dir, t: Tables, m: Inbound): seq<Target> {
    if dir.Forward? then Targets(FindSubscribers(t, m.typ))
    else
      var dest := ImHeader.ReadDestNid(m.payload);
      if dest == 0 then []
      else match FindNidRoute(t, dest)
           case None => []
           case Some(route) => [Target(route.sid, route.reactor, dest)]
  }

  function Finish(link: Link, w: nat, x: Finished): Link
    requires w < |link.workers|
  {
    link.(workers := link.workers[w := Free], finished := link.finished + [x])
  }

  function Lookup(dir: Dir, link: Link, w: nat, t: Tables): Link
    requires CanLookup(link, w)
  {
    var m := link.workers[w].msg;
    var todo := Recipients(dir, t, m);
    if todo == [] then Finish(link, w, Finished(m, dir.Forward?, [], 0))
    else link.(workers := link.workers[w := Fanout(m, dir.Forward?, todo, 0, todo)])
  }

  /** The frame for one recipient, as the given attempt pushes it. */
  function MakeFrame(m: Inbound, published: bool, t: Target, attempt: nat): Outbound {
    AfterRetries(
      Outbound(t.sid, t.reactor, EncodeFrame(m.typ, t.nid, FLAG_EXP, m.payload),
               Meta(m.sid, m.frameNo, m.typ, t.nid, m.payload, published, m.retried, false)),
      attempt)
  }

  predicate CanWorkerPush(link: Link, w: nat) {
    w < |link.workers| && link.workers[w].Fanout? && link.workers[w].todo != []
  }

  function WorkerOutcome(c: Config, link: Link, w: nat, e: Egress): Attempt
    requires CanWorkerPush(link, w)
  {
    TryPush(|e.distQ|, c.capacity, link.workers[w].attempt)
  }

  /** The number of recipients that have been served. */
  function Done(k: WorkerPc): nat
    requires k.Fanout?
  {
    if |k.todo| <= |k.all| then |k.all| - |k.todo| else 0
  }

  /** A failed publish abandons the recipients that are left. */
  function WorkerPushLink(c: Config, link: Link, w: nat, e: Egress): Link
    requires CanWorkerPush(link, w)
  {
    var k := link.workers[w];
    match WorkerOutcome(c, link, w, e)
    case Pushed =>
      if |k.todo| == 1 then Finish(link, w, Finished(k.msg, k.published, k.all, Done(k) + 1))
      else link.(workers := link.workers[w := k.(todo := k.todo[1..], attempt := 0)])
    case Retry => link.(workers := link.workers[w := k.(attempt := k.attempt + 1)])
    case GiveUp => Finish(link, w, Finished(k.msg, k.published, k.all, Done(k)))
  }

  function Enqueue(e: Egress, x: Outbound): Egress {
    e.(distQ := e.distQ + [x], enqueued := e.enqueued + [x])
  }

  function WorkerPushEgress(c: Config, link: Link, w: nat, e: Egress): Egress
    requires CanWorkerPush(link, w)
  {
    var k := link.workers[w];
    if WorkerOutcome(c, link, w, e).Pushed? then Enqueue(e, MakeFrame(k.msg, k.published, k.todo[0], k.attempt)) else e
  }

  // ---------- actions and runs ----------

  datatype PlaneAction =
    | AAccept(fd: int, r: nat)
    | AConnPush
    | AIntake(r: nat)
    | AReceive(r: nat, sid: nat, chunk: seq<Byte>)
    | AHandle(r: nat, sid: nat)
    | AAckAppend(r: nat)
    | ASendSome(r: nat, sid: nat, n: nat)
    | AClose(r: nat, sid: nat)
    | ADrain(r: nat)
    | ADistPop
    | ADistPush

  datatype LinkAction =
    | ARecvPush(r: nat)
    | AWorkerPop(w: nat)
    | ALookup(w: nat)
    | AWorkerPush(w: nat)

  datatype Action = OnPlane(dir: Dir, p: PlaneAction) | OnLink(dir: Dir, k: LinkAction)

  ghost predicate PlaneEnabled(c: Config, s: Plane, a: PlaneAction) {
    match a
    case AAccept(fd, r) => CanAccept(c, s, fd, r)
    case AConnPush => CanConnPush(s)
    case AIntake(r) => CanIntake(s, r)
    case AReceive(r, sid, _) => IsIdle(s, r) && Has(s, r, sid)
    case AHandle(r, sid) => CanHandle(s, r, sid)
    case AAckAppend(r) => CanAckAppend(s, r)
    case ASendSome(r, sid, n) => CanSendSome(s, r, sid, n)
    case AClose(r, sid) => IsIdle(s, r) && Has(s, r, sid)
    case ADrain(r) => CanDrain(s, r)
    case ADistPop => CanDistPop(s.egress)
    case ADistPush => CanDistPush(s.egress)
  }

  ghost function PlaneStep(c: Config, s: Plane, a: PlaneAction): Plane
    requires PlaneEnabled(c, s, a)
  {
    match a
    case AAccept(fd, r) => Accept(s, fd, r)
    case AConnPush => ConnPush(c, s)
    case AIntake(r) => Intake(s, r)
    case AReceive(r, sid, chunk) => Receive(s, r, sid, chunk)
    case AHandle(r, sid) => Handle(c, s, r, sid)
    case AAckAppend(r) => AckAppend(s, r)
    case ASendSome(r, sid, n) => SendSome(s, r, sid, n)
    case AClose(r, sid) => Close(s, r, sid)
    case ADrain(r) => Drain(s, r)
    case ADistPop => s.(egress := DistPop(s.egress))
    case ADistPush => s.(egress := DistPush(c, s.egress))
  }

  /** One direction through the hub: the plane messages come from, the link,
      and the plane they leave by. */
  datatype Flow = Flow(src: Plane, link: Link, dst: Plane)

  ghost predicate LinkEnabled(c: Config, f: Flow, a: LinkAction)
    requires ValidConfig(c)
  {
    match a
    case ARecvPush(r) => CanRecvPush(c, f.src, f.link, r)
    case AWorkerPop(w) => CanWorkerPop(f.link, w)
    case ALookup(w) => CanLookup(f.link, w)
    case AWorkerPush(w) => CanWorkerPush(f.link, w)
  }

  ghost function LinkStep(c: Config, dir: Dir, f: Flow, a: LinkAction): Flow
    requires ValidConfig(c) && LinkEnabled(c, f, a)
  {
    match a
    case ARecvPush(r) =>
      f.(src := RecvPushPlane(c, f.src, f.link, r), link := RecvPushLink(c, f.src, f.link, r))
    case AWorkerPop(w) => f.(link := WorkerPop(f.link, w))
    case ALookup(w) => f.(link := Lookup(dir, f.link, w, f.dst.tables))
    case AWorkerPush(w) =>
      f.(link := WorkerPushLink(c, f.link, w, f.dst.egress),
         dst := f.dst.(egress := WorkerPushEgress(c, f.link, w, f.dst.egress)))
  }

  function PlaneAt(h: Hub, d: Dir): Plane {
    if d.Forward? then h.forward else h.backend
  }

  function FlowAt(h: Hub, d: Dir): Flow {
    if d.Forward? then Flow(h.forward, h.up, h.backend) else Flow(h.backend, h.down, h.forward)
  }

  function WithPlane(h: Hub, d: Dir, s: Plane): Hub {
    if d.Forward? then h.(forward := s) else h.(backend := s)
  }

  function WithFlow(h: Hub, d: Dir, f: Flow): Hub {
    if d.Forward? then h.(forward := f.src, up := f.link, backend := f.dst)
    else h.(backend := f.src, down := f.link, forward := f.dst)
  }

  ghost predicate Enabled(c: Config, h: Hub, a: Action)
    requires ValidConfig(c)
  {
    match a
    case OnPlane(d, p) => PlaneEnabled(c, PlaneAt(h, d), p)
    case OnLink(d, k) => LinkEnabled(c, FlowAt(h, d), k)
  }

  ghost function Step(c: Config, h: Hub, a: Action): Hub
    requires ValidConfig(c) && Enabled(c, h, a)
  {
    match a
    case OnPlane(d, p) => WithPlane(h, d, PlaneStep(c, PlaneAt(h, d), p))
    case OnLink(d, k) => WithFlow(h, d, LinkStep(c, d, FlowAt(h, d), k))
  }

  function InitPlane(c: Config): Plane {
    Plane(1, Waiting, seq(c.reactors, _ => []), seq(c.reactors, _ => Reactor(map[], map[], Idle)),
          EMPTY, Egress([], None, seq(c.reactors, _ => []), [], []), map[])
  }

  function InitLink(c: Config): Link {
    Link(seq(c.workers, _ => []), seq(c.workers, _ => Free), [])
  }

  function Init(c: Config): Hub {
    Hub(InitPlane(c), InitPlane(c), InitLink(c), InitLink(c))
  }

  /** The state after the given actions, if each was enabled in its turn. */
  ghost function Run(c: Config, actions: seq<Action>): Option<Hub>
    requires ValidConfig(c)
  {
    if actions == [] then Some(Init(c))
    else
      match Run(c, actions[..|actions| - 1])
      case None => None
      case Some(h) =>
        if Enabled(c, h, actions[|actions| - 1]) then Some(Step(c, h, actions[|actions| - 1])) else None
  }

  /** `h` is a state of some run. */
  ghost predicate Reachable(c: Config, h: Hub)
    requires ValidConfig(c)
  {
    exists actions :: Run(c, actions) == Some(h)
  }
}
