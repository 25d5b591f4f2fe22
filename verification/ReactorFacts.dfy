/** What the handlers of a reactor may do, in terms of the hub's step system, and what they
    need to know about a plane that satisfies its invariant. */
module ReactorFacts {
  import opened Bytes
  import opened Wire
  import opened Routing
  import opened Queues
  import opened HubModel
  import opened HubInvariant
  import opened HubConnSteps
  import opened HubHandOver

  // ---------- what a handler did ----------

  /** A step of the plane, or a run of `ARecvPush` actions: all attempts to hand a message to a
      worker, which `PushRunIs` shows to leave the plane as `HandsOver` says. */
  datatype Act = Does(a: PlaneAction) | HandsOver

  ghost predicate CanAct(c: Config, s: Plane, r: nat, x: Act) {
    match x
    case Does(a) => PlaneEnabled(c, s, a)
    case HandsOver => r < |s.reactors| && s.reactors[r].pc.Pushing?
  }

  ghost function Acted(c: Config, s: Plane, r: nat, x: Act): Plane
    requires CanAct(c, s, r, x)
  {
    match x
    case Does(a) => PlaneStep(c, s, a)
    case HandsOver => SetPc(s, r, Idle)
  }

  /** The plane after the acts of reactor `r`, if each was possible in its turn. */
  ghost function Trace(c: Config, s: Plane, r: nat, acts: seq<Act>): Option<Plane> {
    if acts == [] then Some(s)
    else
      match Trace(c, s, r, acts[..|acts| - 1])
      case None => None
      case Some(t) => if CanAct(c, t, r, acts[|acts| - 1]) then Some(Acted(c, t, r, acts[|acts| - 1])) else None
  }

  /** An act of this reactor's own thread. */
  predicate Own(x: Act, r: nat) {
    match x
    case HandsOver => true
    case Does(a) =>
      match a
      case AIntake(k) => k == r
      case AReceive(k, _, _) => k == r
      case AHandle(k, _) => k == r
      case AAckAppend(k) => k == r
      case ASendSome(k, _, _) => k == r
      case AClose(k, _) => k == r
      case ADrain(k) => k == r
      case AAccept(_, _) => false
      case AConnPush => false
      case ADistPop => false
      case ADistPush => false
  }

  ghost predicate AllOwn(acts: seq<Act>, r: nat) {
    forall i :: 0 <= i < |acts| ==> Own(acts[i], r)
  }

  lemma TraceSnoc(c: Config, s: Plane, r: nat, acts: seq<Act>, x: Act)
    requires Trace(c, s, r, acts).Some? && CanAct(c, Trace(c, s, r, acts).value, r, x)
    ensures Trace(c, s, r, acts + [x]) == Some(Acted(c, Trace(c, s, r, acts).value, r, x))
  {
    hide CanAct, Acted;
    assert (acts + [x])[..|acts|] == acts;
  }

  // ---------- socket results ----------

  datatype SendResult = Sent(n: nat) | WouldBlock | Broken

  /** What is left of the output after the socket took what the script says; `None` when the
      connection turns out broken (a send of zero bytes included). A script that ends is
      taken as would-block. */
  function Flush(outbuf: seq<Byte>, sends: seq<SendResult>): (rest: Option<seq<Byte>>)
    ensures rest.Some? ==> |rest.value| <= |outbuf| && rest.value == outbuf[|outbuf| - |rest.value|..]
  {
    if outbuf == [] then Some([])
    else if sends == [] then Some(outbuf)
    else
      match sends[0]
      case WouldBlock => Some(outbuf)
      case Broken => None
      case Sent(n) => if n == 0 then None else Flush(outbuf[TakenBy(n, outbuf)..], sends[1..])
  }

  function TakenBy(n: nat, outbuf: seq<Byte>): (k: nat)
    ensures k <= |outbuf|
  {
    if n < |outbuf| then n else |outbuf|
  }

  /** The sessions when one of them was changed, or closed. */
  function Updated(before: map<nat, Session>, sid: nat, x: Option<Session>): map<nat, Session> {
    match x
    case None => before - {sid}
    case Some(y) => before[sid := y]
  }

  /** The tables when a session was changed, or closed: a closed session that had logged in is removed. */
  function Left(t: Tables, sid: nat, x: Session, z: Option<Session>): Tables {
    if z.None? && x.authed then RemoveSession(t, sid, x.nid) else t
  }

  lemma UpdatedTwice(before: map<nat, Session>, sid: nat, y: Session, x: Option<Session>)
    ensures Updated(before[sid := y], sid, x) == Updated(before, sid, x)
  {
  }

  /** A session after bytes were appended to its output and sent as far as the socket took
      them; a broken connection closes it. */
  function Sending(x: Session, data: seq<Byte>, sends: seq<SendResult>): (r: Option<Session>)
    ensures r.Some? ==> r.value.fb == x.fb
  {
    match Flush(x.outbuf + data, sends)
    case None => None
    case Some(rest) => Some(x.(outbuf := rest))
  }

  lemma SendingLater(x: Session, data: seq<Byte>, sends: seq<SendResult>)
    ensures Sending(x.(outbuf := x.outbuf + data), [], sends) == Sending(x, data, sends)
  {
    assert x.outbuf + data + [] == x.outbuf + data;
  }

  // ---------- what reading from a session amounts to ----------

  /** What one frame makes of its session. */
  function Answer(c: Config, x: Session, f: Frame, sends: seq<SendResult>): (r: Option<Session>)
    ensures r.Some? ==> r.value.fb == x.fb
  {
    match React(c, x.authed, f)
    case Login(who) =>
      Sending(x.(authed := true, gid := who.gid, nid := who.nid), EncodeFrame(AUTH_ACK, who.nid, FLAG_SYS, []), sends)
    case Sub(_) => Sending(x, EncodeFrame(SUB_ACK, x.nid, FLAG_SYS, []), sends)
    case Unsub(_) => Sending(x, EncodeFrame(UNSUB_ACK, x.nid, FLAG_SYS, []), sends)
    case Keepalive => Sending(x, EncodeFrame(KPALIVE_ACK, x.nid, FLAG_SYS, []), sends)
    case Ignore => Some(x)
    case Kick => None
    case Relay => Some(x)
  }

  /** What one frame, which leaves `z` of its session, makes of the tables. */
  function Routed(c: Config, p: Place, x: Session, t: Tables, f: Frame, z: Option<Session>): Tables {
    match React(c, x.authed, f)
    case Login(who) => Left(BindNid(t, who.nid, p.sid, p.reactor), p.sid, x.(authed := true, nid := who.nid), z)
    case Sub(cmd) => Left(Subscribe(t, cmd, Subscriber(x.gid, p.sid, x.nid, p.reactor)), p.sid, x, z)
    case Unsub(cmd) => Left(Unsubscribe(t, cmd, p.sid), p.sid, x, z)
    case Keepalive => Left(t, p.sid, x, z)
    case Ignore => t
    case Kick => Left(t, p.sid, x, z)
    case Relay => t
  }

  /** An unsubscription that is short or comes before the login ends the round of reading. */
  predicate Refused(c: Config, authed: bool, f: Frame) {
    f.flag == FLAG_SYS && f.typ == UNSUB_REQ && React(c, authed, f).Ignore?
  }

  /** An inbound message as the code builds it, without its history. */
  datatype Message = Message(sid: nat, reactor: int, gid: U32, nid: U32, typ: U32, flag: U32, payload: seq<Byte>)

  function Plain(m: Inbound): Message {
    Message(m.sid, m.reactor, m.gid, m.nid, m.typ, m.flag, m.payload)
  }

  function Plains(q: seq<Inbound>): (r: seq<Message>)
    ensures |r| == |q|
  {
    seq(|q|, i requires 0 <= i < |q| => Plain(q[i]))
  }

  /** What the outside does while one frame is handled: the socket when the answer is sent, and
      what other threads leave in the worker's queue before each push attempt. */
  datatype Outside = Outside(sends: seq<SendResult>, inbox: nat -> seq<Inbound>)

  /** The session being read and the reactor reading it. */
  datatype Place = Place(sid: nat, reactor: int)

  function MessageOf(p: Place, x: Session, f: Frame): Message {
    Message(p.sid, p.reactor, x.gid, x.nid, f.typ, f.flag, f.payload)
  }

  /** What one frame adds to the worker's queue: a business frame of a session that has logged in,
      whole if the first attempt finds room and emptied if a later one does. */
  function Relayed(c: Config, p: Place, x: Session, f: Frame, inbox: nat -> seq<Inbound>): seq<Message> {
    if f.flag == FLAG_SYS || !x.authed then []
    else
      match Admitted(inbox, c.capacity, MAX_RETRIES + 1)
      case None => []
      case Some(k) => [if k == 0 then MessageOf(p, x, f) else MessageOf(p, x, f).(payload := [])]
  }

  datatype Stop = Drained | Halted | Gone

  /** Where reading left the session, how many frames were handled, what was relayed to the
      worker, what became of the tables, and why it stopped. */
  datatype Reading = Reading(session: Option<Session>, used: nat, relayed: seq<Message>, tables: Tables, stop: Stop)

  /** Handles the complete frames in a session's buffer, after `n` others that relayed `sent`;
      `out(i)` goes with the i-th frame. */
  function Serve(c: Config, p: Place, x: Session, t: Tables, out: nat -> Outside, n: nat,
                 sent: seq<Message>): (r: Reading)
    ensures r.stop.Gone? <==> r.session.None?
    ensures r.stop.Drained? ==> Pop(r.session.value.fb).NeedMore?
    decreases |x.fb|
  {
    match Pop(x.fb)
    case NeedMore => Reading(Some(x), n, sent, t, Drained)
    case Bad => Reading(Some(x.(fb := [])), n, sent, t, Drained)
    case Got(f, rest) =>
      var y := x.(fb := rest);
      var sent' := sent + Relayed(c, p, y, f, out(n).inbox);
      var z := Answer(c, y, f, out(n).sends);
      var t' := Routed(c, p, y, t, f, z);
      if z.None? then Reading(None, n + 1, sent', t', Gone)
      else if Refused(c, x.authed, f) then Reading(z, n + 1, sent', t', Halted)
      else Serve(c, p, z.value, t', out, n + 1, sent')
  }

  datatype RecvResult = Data(chunk: seq<Byte>) | NothingYet | Lost

  /** Reads until the socket has nothing more. End of file, a read of no bytes, and an error
      close the session. A script that ends is taken as nothing-yet. */
  function ServeAll(c: Config, p: Place, x: Session, t: Tables, recvs: seq<RecvResult>, out: nat -> Outside, n: nat,
                    sent: seq<Message>): (r: Reading)
    ensures r.stop.Gone? <==> r.session.None?
    decreases recvs
  {
    if recvs == [] || recvs[0].NothingYet? then Reading(Some(x), n, sent, t, Drained)
    else if recvs[0].Lost? || recvs[0].chunk == [] then Reading(None, n, sent, Left(t, p.sid, x, None), Gone)
    else
      var r := Serve(c, p, x.(fb := x.fb + recvs[0].chunk), t, out, n, sent);
      if r.stop.Drained? then ServeAll(c, p, r.session.value, r.tables, recvs[1..], out, r.used, r.relayed) else r
  }

  /** The bytes a script of reads delivers. */
  function BytesOf(recvs: seq<RecvResult>): seq<Byte>
    decreases recvs
  {
    if recvs == [] || !recvs[0].Data? || recvs[0].chunk == [] then [] else recvs[0].chunk + BytesOf(recvs[1..])
  }

  lemma ServeAllStep(c: Config, p: Place, x: Session, t: Tables, recvs: seq<RecvResult>, out: nat -> Outside, n: nat,
                     sent: seq<Message>)
    ensures var all := ServeAll(c, p, x, t, recvs, out, n, sent);
            && (recvs == [] || recvs[0].NothingYet? ==> all == Reading(Some(x), n, sent, t, Drained))
            && (recvs != [] && (recvs[0].Lost? || recvs[0] == Data([])) ==>
                  all == Reading(None, n, sent, Left(t, p.sid, x, None), Gone))
            && (recvs != [] && recvs[0].Data? && recvs[0].chunk != [] ==>
                  var r := Serve(c, p, x.(fb := x.fb + recvs[0].chunk), t, out, n, sent);
                  && (r.stop.Drained? ==>
                        all == ServeAll(c, p, r.session.value, r.tables, recvs[1..], out, r.used, r.relayed))
                  && (!r.stop.Drained? ==> all == r))
  {
    hide Serve;
  }

  /** A drained session has no complete frame left in its buffer, except when none arrived and
      an earlier round had stopped short. */
  lemma {:induction false} ServeAllDrained(c: Config, p: Place, x: Session, t: Tables, recvs: seq<RecvResult>,
                                           out: nat -> Outside, n: nat, sent: seq<Message>)
    ensures var r := ServeAll(c, p, x, t, recvs, out, n, sent);
            r.stop.Drained? ==>
              (Pop(r.session.value.fb).NeedMore? <==> Pop(x.fb).NeedMore? || BytesOf(recvs) != [])
    decreases recvs
  {
    hide Serve, Pop;
    if recvs != [] && recvs[0].Data? && recvs[0].chunk != [] {
      var r := Serve(c, p, x.(fb := x.fb + recvs[0].chunk), t, out, n, sent);
      if r.stop.Drained? {
        ServeAllDrained(c, p, r.session.value, r.tables, recvs[1..], out, r.used, r.relayed);
      }
    }
  }

  lemma AnswerFacts(c: Config, p: Place, x: Session, t: Tables, f: Frame, sends: seq<SendResult>)
    ensures React(c, x.authed, f).Kick? ==> Answer(c, x, f, sends) == None
    ensures f.flag != FLAG_SYS ==> Answer(c, x, f, sends) == if x.authed then Some(x) else None
    ensures f.flag != FLAG_SYS ==> Routed(c, p, x, t, f, Answer(c, x, f, sends)) == t
  {
    hide Sending, EncodeFrame, RemoveSession;
  }

  /** Pushing what was relayed since `b` after what was relayed from `a` to `b`. */
  lemma RelayedOn(pushed: seq<Message>, a: seq<Message>, b: seq<Message>, d: seq<Message>)
    requires a <= b <= d
    ensures pushed + b[|a|..] + d[|b|..] == pushed + d[|a|..] && a <= d
    ensures pushed + [] == pushed
  {
  }

  lemma BytesOfStep(recvs: seq<RecvResult>)
    ensures recvs == [] || recvs[0].NothingYet? ==> BytesOf(recvs) == []
    ensures recvs != [] && recvs[0].Data? && recvs[0].chunk != [] ==>
              BytesOf(recvs) == recvs[0].chunk + BytesOf(recvs[1..])
  {
  }

  /** The step appends `data` to the session's output and leaves the reactor idle. */
  ghost predicate Appends(s: Plane, t: Plane, r: nat, sid: nat, data: seq<Byte>) {
    && r < |s.reactors| && r < |t.reactors| && sid in s.reactors[r].sessions
    && var R, x := s.reactors[r], s.reactors[r].sessions[sid];
    && t.reactors[r] == R.(sessions := R.sessions[sid := x.(outbuf := x.outbuf + data)], pc := Idle)
    && t.tables == s.tables
  }

  // ---------- facts the object needs about the plane ----------

  lemma SameReactors(c: Config, src: Log, s: Plane, t: Plane)
    requires PlaneInv(c, src, s) && PlaneInv(c, src, t)
    ensures |s.reactors| == |t.reactors|
  {
  }

  lemma CloseIs(s: Plane, r: nat, sid: nat)
    requires Has(s, r, sid)
    ensures var t, R, x := Close(s, r, sid), s.reactors[r], s.reactors[r].sessions[sid];
            && |t.reactors| == |s.reactors|
            && t.reactors[r] == R.(sessions := R.sessions - {sid}, fdToSid := R.fdToSid - {x.fd})
            && t.tables == (if x.authed then RemoveSession(s.tables, sid, x.nid) else s.tables)
            && Calm(s, t)
  {
  }

  /** Nothing but sessions and their output changed: queues and received bytes are the same. */
  ghost predicate Calm(s: Plane, t: Plane) {
    && t.egress == s.egress && t.connQ == s.connQ
    && forall sid :: sid in s.log ==> sid in t.log && t.log[sid].received == s.log[sid].received
  }

  lemma CalmRefl(s: Plane)
    ensures Calm(s, s)
  {
  }

  lemma CalmTwice(a: Plane, b: Plane, d: Plane)
    requires Calm(a, b) && Calm(b, d)
    ensures Calm(a, d)
  {
  }

  lemma CalmPc(a: Plane, b: Plane, r: nat)
    requires Calm(a, b) && r < |b.reactors|
    ensures Calm(a, SetPc(b, r, Idle))
  {
  }

  lemma SendSomeIs(s: Plane, r: nat, sid: nat, n: nat)
    requires CanSendSome(s, r, sid, n)
    ensures var t, R, x := SendSome(s, r, sid, n), s.reactors[r], s.reactors[r].sessions[sid];
            && |t.reactors| == |s.reactors| && t.tables == s.tables
            && t.reactors[r] == R.(sessions := R.sessions[sid := x.(outbuf := x.outbuf[n..])], pc := Idle)
            && Calm(s, t)
  {
  }

  lemma FlushStep(outbuf: seq<Byte>, sends: seq<SendResult>)
    ensures outbuf == [] || sends == [] || sends[0].WouldBlock? ==> Flush(outbuf, sends) == Some(outbuf)
    ensures outbuf != [] && sends != [] && (sends[0].Broken? || sends[0] == Sent(0)) ==> Flush(outbuf, sends) == None
    ensures outbuf != [] && sends != [] && sends[0].Sent? && sends[0].n > 0 ==>
              Flush(outbuf, sends)
              == Flush(if sends[0].n < |outbuf| then outbuf[sends[0].n..] else [], sends[1..])
  {
    if outbuf != [] && sends != [] && sends[0].Sent? && sends[0].n >= |outbuf| {
      assert outbuf[|outbuf|..] == [];
    }
  }

  lemma IndexedSession(c: Config, src: Log, s: Plane, r: nat, fd: int)
    requires PlaneInv(c, src, s) && r < |s.reactors| && fd in s.reactors[r].fdToSid
    ensures var R := s.reactors[r]; R.fdToSid[fd] in R.sessions && R.sessions[R.fdToSid[fd]].fd == fd
  {
    hide LogsOk, FdsOk, ConnsOk, GrantsOk, LiveOk, TablesOk, EgressOk, AllHeld, PcOk;
    assert ReactorOk(c, s.log, r, s.reactors[r]);
  }

  lemma NoSession(c: Config, src: Log, s: Plane, r: nat, fd: int)
    requires PlaneInv(c, src, s) && r < |s.reactors| && fd !in s.reactors[r].fdToSid
    ensures forall sid :: sid in s.reactors[r].sessions ==> s.reactors[r].sessions[sid].fd != fd
  {
    hide LogsOk, FdsOk, ConnsOk, GrantsOk, LiveOk, TablesOk, EgressOk, AllHeld, PcOk;
    assert ReactorOk(c, s.log, r, s.reactors[r]);
  }

  lemma HeldInLog(c: Config, src: Log, s: Plane, r: nat, sid: nat)
    requires PlaneInv(c, src, s) && r < |s.reactors| && sid in s.reactors[r].sessions
    ensures Has(s, r, sid)
  {
    hide LogsOk, FdsOk, ConnsOk, GrantsOk, LiveOk, TablesOk, EgressOk, IndexOk, PcOk, SessionOk;
    assert ReactorOk(c, s.log, r, s.reactors[r]);
  }

  /** No two held sessions share a descriptor. */
  lemma IndexOf(c: Config, src: Log, s: Plane, r: nat, sid: nat)
    requires PlaneInv(c, src, s) && r < |s.reactors| && sid in s.reactors[r].sessions
    ensures var R := s.reactors[r];
            && R.sessions[sid].fd in R.fdToSid && R.fdToSid[R.sessions[sid].fd] == sid
            && forall id :: id in R.sessions && id != sid ==> R.sessions[id].fd != R.sessions[sid].fd
  {
    hide LogsOk, FdsOk, ConnsOk, GrantsOk, LiveOk, TablesOk, EgressOk, AllHeld, PcOk;
    assert ReactorOk(c, s.log, r, s.reactors[r]);
  }

  /** The sessions after the queued connections were registered. */
  function WithConns(sessions: map<nat, Session>, conns: seq<NewConn>): map<nat, Session>
    decreases conns
  {
    if conns == [] then sessions
    else WithConns(sessions[conns[0].sid := Session(conns[0].fd, false, 0, 0, [], [])], conns[1..])
  }

  /** Sessions that are not in the queue are as before. */
  lemma {:induction false} OthersAsBefore(sessions: map<nat, Session>, conns: seq<NewConn>, sid: nat)
    requires forall i :: 0 <= i < |conns| ==> conns[i].sid != sid
    ensures var now := WithConns(sessions, conns);
            (sid in now <==> sid in sessions) && (sid in now ==> now[sid] == sessions[sid])
    decreases conns
  {
    if conns != [] {
      OthersAsBefore(sessions[conns[0].sid := Session(conns[0].fd, false, 0, 0, [], [])], conns[1..], sid);
    }
  }

  /** A registered connection is a session that has not logged in, with nothing received and
      nothing to send. */
  lemma {:induction false} ConnRegistered(sessions: map<nat, Session>, conns: seq<NewConn>, i: nat)
    requires i < |conns| && forall j :: i < j < |conns| ==> conns[j].sid != conns[i].sid
    ensures var now := WithConns(sessions, conns);
            conns[i].sid in now && now[conns[i].sid] == Session(conns[i].fd, false, 0, 0, [], [])
    decreases conns
  {
    var next, rest := sessions[conns[0].sid := Session(conns[0].fd, false, 0, 0, [], [])], conns[1..];
    if i == 0 {
      OthersAsBefore(next, rest, conns[0].sid);
    } else {
      assert rest[i - 1] == conns[i];
      ConnRegistered(next, rest, i - 1);
    }
  }

  datatype View = View(sessions: map<nat, Session>, tables: Tables)

  /** Sessions and tables after one frame from the send queue. */
  function WithFrame(v: View, x: Outbound, sends: seq<SendResult>): View {
    if x.sid in v.sessions && x.bytes != [] then
      var z := Sending(v.sessions[x.sid], x.bytes, sends);
      View(Updated(v.sessions, x.sid, z), Left(v.tables, x.sid, v.sessions[x.sid], z))
    else v
  }

  /** Sessions and tables after the queued frames; `sends(i)` goes with the i-th frame. */
  function WithFrames(v: View, frames: seq<Outbound>, sends: nat -> seq<SendResult>, i: nat): View
    decreases frames
  {
    if frames == [] then v else WithFrames(WithFrame(v, frames[0], sends(i)), frames[1..], sends, i + 1)
  }

  lemma WithFramesStep(v: View, frames: seq<Outbound>, sends: nat -> seq<SendResult>, i: nat)
    ensures frames == [] ==> WithFrames(v, frames, sends, i) == v
    ensures frames != [] ==>
              WithFrames(v, frames, sends, i)
              == WithFrames(WithFrame(v, frames[0], sends(i)), frames[1..], sends, i + 1)
  {
  }

  // ---------- one frame ----------

  function RelayedMessage(l: SessionLog, sid: nat, r: nat, x: Session, f: Frame): Inbound {
    Inbound(sid, r, x.gid, x.nid, f.typ, f.flag, f.payload, |l.handled|, false)
  }

  /** What handling a popped frame does to the reactor and the tables, reaction by reaction. */
  lemma HandleIs(c: Config, src: Log, s: Plane, r: nat, sid: nat, f: Frame, rest: seq<Byte>)
    requires PlaneInv(c, src, s) && IsIdle(s, r) && sid in s.reactors[r].sessions
    requires Pop(s.reactors[r].sessions[sid].fb) == Got(f, rest)
    ensures CanHandle(s, r, sid)
    ensures var R, y := s.reactors[r], s.reactors[r].sessions[sid].(fb := rest);
            var t := Handle(c, s, r, sid);
            && |t.reactors| == |s.reactors| && Calm(s, t)
            && match React(c, y.authed, f)
               case Login(who) =>
                 Becomes(t, r, R.sessions[sid := y.(authed := true, gid := who.gid, nid := who.nid)], R.fdToSid,
                         Acking(sid, AuthAck), BindNid(s.tables, who.nid, sid, r))
               case Sub(cmd) =>
                 Becomes(t, r, R.sessions[sid := y], R.fdToSid, Acking(sid, SubAck(cmd)),
                         Subscribe(s.tables, cmd, Subscriber(y.gid, sid, y.nid, r)))
               case Unsub(cmd) =>
                 Becomes(t, r, R.sessions[sid := y], R.fdToSid, Acking(sid, UnsubAck(cmd)),
                         Unsubscribe(s.tables, cmd, sid))
               case Keepalive => Becomes(t, r, R.sessions[sid := y], R.fdToSid, Acking(sid, KpaliveAck), s.tables)
               case Ignore => Becomes(t, r, R.sessions[sid := y], R.fdToSid, Idle, s.tables)
               case Kick =>
                 Becomes(t, r, R.sessions - {sid}, R.fdToSid - {y.fd}, Idle,
                         if y.authed then RemoveSession(s.tables, sid, y.nid) else s.tables)
               case Relay =>
                 Becomes(t, r, R.sessions[sid := y], R.fdToSid,
                         Pushing(RelayedMessage(s.log[sid], sid, r, y, f), 0), s.tables)
  {
    hide PlaneInv, React, Subscribe, Unsubscribe, BindNid, RemoveSession, Update, Close, Calm, Becomes;
    HeldInLog(c, src, s, r, sid);
    var y, l := s.reactors[r].sessions[sid].(fb := rest), s.log[sid].(handled := s.log[sid].handled + [f]);
    match React(c, y.authed, f)
    case Login(who) =>
      var t := BindNid(s.tables, who.nid, sid, r);
      UpdateIs(s, t, r, sid, y.(authed := true, gid := who.gid, nid := who.nid),
               l.(auths := l.auths + [who], granted := l.granted + {AuthAck}), Acking(sid, AuthAck));
    case Sub(cmd) =>
      var t := Subscribe(s.tables, cmd, Subscriber(y.gid, sid, y.nid, r));
      UpdateIs(s, t, r, sid, y, l.(granted := l.granted + {SubAck(cmd)}), Acking(sid, SubAck(cmd)));
    case Unsub(cmd) =>
      var t := Unsubscribe(s.tables, cmd, sid);
      UpdateIs(s, t, r, sid, y, l.(granted := l.granted + {UnsubAck(cmd)}), Acking(sid, UnsubAck(cmd)));
    case Keepalive =>
      UpdateIs(s, s.tables, r, sid, y, l.(granted := l.granted + {KpaliveAck}), Acking(sid, KpaliveAck));
    case Ignore => UpdateIs(s, s.tables, r, sid, y, l, Idle);
    case Kick => KickIs(s, r, sid, y, l);
    case Relay => UpdateIs(s, s.tables, r, sid, y, l, Pushing(RelayedMessage(s.log[sid], sid, r, y, f), 0));
  }

  /** A change of one session, of the tables and of the control point. */
  lemma UpdateIs(s: Plane, tables: Tables, r: nat, sid: nat, x: Session, l: SessionLog, pc: ReactorPc)
    requires Has(s, r, sid) && l.received == s.log[sid].received
    ensures var t := Update(s.(tables := tables), r, sid, x, l, pc);
            && |t.reactors| == |s.reactors| && Calm(s, t)
            && Becomes(t, r, s.reactors[r].sessions[sid := x], s.reactors[r].fdToSid, pc, tables)
    ensures s.(tables := s.tables) == s
  {
  }

  lemma KickIs(s: Plane, r: nat, sid: nat, x: Session, l: SessionLog)
    requires Has(s, r, sid) && l.received == s.log[sid].received
    ensures var u := Update(s, r, sid, x, l, Idle);
            var R, t := s.reactors[r], Close(u, r, sid);
            && Has(u, r, sid) && |t.reactors| == |s.reactors| && Calm(s, t)
            && Becomes(t, r, R.sessions - {sid}, R.fdToSid - {x.fd}, Idle,
                       if x.authed then RemoveSession(s.tables, sid, x.nid) else s.tables)
  {
    hide RemoveSession;
    var R := s.reactors[r];
    assert R.sessions[sid := x] - {sid} == R.sessions - {sid};
  }

  ghost predicate Becomes(t: Plane, r: nat, sessions: map<nat, Session>, fdToSid: map<int, nat>, pc: ReactorPc,
                          tables: Tables) {
    r < |t.reactors| && t.reactors[r] == Reactor(sessions, fdToSid, pc) && t.tables == tables
  }

  /** The step system's message for a relayed frame is the given one. */
  ghost predicate Relays(c: Config, s: Plane, r: nat, sid: nat, m: Message) {
    && CanHandle(s, r, sid)
    && var t := Handle(c, s, r, sid);
    && r < |t.reactors| && t.reactors[r].pc.Pushing? && Plain(t.reactors[r].pc.msg) == m
  }

  // ---------- handing a message over ----------

  lemma {:induction false} AdmittedPlain(inbox: nat -> seq<Inbound>, others: nat -> seq<Message>, capacity: nat, n: nat)
    requires forall i :: others(i) == Plains(inbox(i))
    ensures Admitted(others, capacity, n) == Admitted(inbox, capacity, n)
  {
    if n > 0 {
      AdmittedPlain(inbox, others, capacity, n - 1);
    }
  }

  lemma PlainsSnoc(q: seq<Inbound>, m: Inbound)
    ensures Plains(q + [m]) == Plains(q) + [Plain(m)]
  {
  }

  /** From the pushing plane `s`, whatever link and peer plane surround it, the run of `ARecvPush`
      actions ends in the plane `t` and in a worker queue that holds the messages `queue`. */
  ghost predicate HandsOverTo(c: Config, s: Plane, t: Plane, r: nat, inbox: nat -> seq<Inbound>, queue: seq<Message>)
    requires ValidConfig(c)
  {
    forall dir: Dir, f: Flow ::
      f.src == s && CanRecvPush(c, f.src, f.link, r) && s.reactors[r].pc.attempt == 0 ==>
        var g := PushRun(c, dir, f, r, inbox, 0);
        g.src == t && g.dst == f.dst
        && |g.link.recvQ| == |f.link.recvQ| && Plains(g.link.recvQ[PickWorker(c, s.reactors[r].pc.msg.sid)]) == queue
  }

  lemma HandsOverIs(c: Config, s: Plane, r: nat, m: Inbound, inbox: nat -> seq<Inbound>, queue: seq<Message>)
    requires ValidConfig(c) && r < |s.reactors| && s.reactors[r].pc == Pushing(m, 0)
    requires queue == match Admitted(inbox, c.capacity, MAX_RETRIES + 1)
                      case None => Plains(inbox(MAX_RETRIES))
                      case Some(k) => Plains(inbox(k)) + [if k == 0 then Plain(m) else Plain(m).(payload := [])]
    ensures HandsOverTo(c, s, SetPc(s, r, Idle), r, inbox, queue)
  {
    hide PickWorker, Plains, Admitted, PushRun;
    var k := Admitted(inbox, c.capacity, MAX_RETRIES + 1);
    if k.Some? {
      PlainsSnoc(inbox(k.value), InboundAfterRetries(m, k.value));
    }
    assert Admitted(inbox, c.capacity, 0) == None by { NoneAdmitted(inbox, c.capacity); }
    forall dir: Dir, f: Flow | f.src == s && CanRecvPush(c, f.src, f.link, r)
      ensures var g := PushRun(c, dir, f, r, inbox, 0);
              && g.src == SetPc(s, r, Idle) && g.dst == f.dst
              && |g.link.recvQ| == |f.link.recvQ| && Plains(g.link.recvQ[PickWorker(c, m.sid)]) == queue
    {
      PushRunIs(c, dir, f, r, inbox, 0);
    }
  }

  // ---------- the other steps of a reactor ----------

  lemma IntakeIs(c: Config, src: Log, s: Plane, r: nat)
    requires PlaneInv(c, src, s) && CanIntake(s, r)
    ensures var t, R, conn := Intake(s, r), s.reactors[r], s.connQ[r][0];
            && conn.sid !in R.sessions && conn.fd !in R.fdToSid
            && (forall sid :: sid in R.sessions ==> R.sessions[sid].fd != conn.fd)
            && Becomes(t, r, R.sessions[conn.sid := Session(conn.fd, false, 0, 0, [], [])],
                       R.fdToSid[conn.fd := conn.sid], Idle, s.tables)
            && t.connQ == s.connQ[r := s.connQ[r][1..]] && t.egress == s.egress
  {
    hide PlaneInv;
    NewConnIsNew(c, src, s, r);
    NoSession(c, src, s, r, s.connQ[r][0].fd);
  }

  lemma ReceiveIs(c: Config, src: Log, s: Plane, r: nat, sid: nat, chunk: seq<Byte>)
    requires PlaneInv(c, src, s) && IsIdle(s, r) && sid in s.reactors[r].sessions
    ensures Has(s, r, sid)
    ensures var t, R, x := Receive(s, r, sid, chunk), s.reactors[r], s.reactors[r].sessions[sid];
            && Becomes(t, r, R.sessions[sid := x.(fb := x.fb + chunk)], R.fdToSid, Idle, s.tables)
            && t.egress == s.egress && t.connQ == s.connQ
            && sid in t.log && t.log[sid].received == s.log[sid].received + chunk
  {
    hide PlaneInv;
    HeldInLog(c, src, s, r, sid);
  }

  lemma DiscardIs(c: Config, src: Log, s: Plane, r: nat, sid: nat)
    requires PlaneInv(c, src, s) && IsIdle(s, r) && sid in s.reactors[r].sessions
    requires Pop(s.reactors[r].sessions[sid].fb).Bad?
    ensures CanHandle(s, r, sid)
    ensures var t, R, x := Handle(c, s, r, sid), s.reactors[r], s.reactors[r].sessions[sid];
            Calm(s, t) && Becomes(t, r, R.sessions[sid := x.(fb := [])], R.fdToSid, Idle, s.tables)
  {
    hide PlaneInv;
    HeldInLog(c, src, s, r, sid);
  }

  lemma AckAppendIs(c: Config, src: Log, s: Plane, r: nat, sid: nat, a: Ack)
    requires PlaneInv(c, src, s) && r < |s.reactors| && s.reactors[r].pc == Acking(sid, a)
    ensures CanAckAppend(s, r) && Calm(s, AckAppend(s, r))
    ensures Appends(s, AckAppend(s, r), r, sid, EncodeFrame(AckType(a), s.reactors[r].sessions[sid].nid, FLAG_SYS, []))
  {
    hide LogsOk, FdsOk, ConnsOk, GrantsOk, LiveOk, TablesOk, EgressOk, IndexOk, SessionOk, EncodeFrame;
    assert ReactorOk(c, s.log, r, s.reactors[r]);
  }

  /** A drained frame is appended to its session, or changes no session at all. */
  lemma DrainIs(c: Config, src: Log, s: Plane, r: nat)
    requires PlaneInv(c, src, s) && CanDrain(s, r)
    ensures var t, x, R := Drain(s, r), s.egress.sendQ[r][0], s.reactors[r];
            && |t.reactors| == |s.reactors| && t.connQ == s.connQ
            && t.egress.sendQ == s.egress.sendQ[r := s.egress.sendQ[r][1..]]
            && if x.sid in R.sessions && x.bytes != [] then Appends(s, t, r, x.sid, x.bytes)
               else Becomes(t, r, R.sessions, R.fdToSid, Idle, s.tables)
  {
    hide PlaneInv;
    var x := s.egress.sendQ[r][0];
    if x.sid in s.reactors[r].sessions {
      HeldInLog(c, src, s, r, x.sid);
    }
  }

  /** Every complete frame among the bytes received has been handled, if no checksum was wrong
      and what is left in the buffer is not a frame. */
  lemma AllFramesHandled(c: Config, src: Log, s: Plane, r: nat, sid: nat)
    requires PlaneInv(c, src, s) && r < |s.reactors| && sid in s.reactors[r].sessions
    requires Pop(s.reactors[r].sessions[sid].fb).NeedMore?
    ensures sid in s.log
    ensures !s.log[sid].garbled ==> s.log[sid].handled == Parse(s.log[sid].received).frames
  {
    hide FdsOk, ConnsOk, GrantsOk, LiveOk, TablesOk, EgressOk, IndexOk, PcOk, StreamOk, Pop, Encode, EncodeAll;
    assert ReactorOk(c, s.log, r, s.reactors[r]);
    assert HeldOk(s.log, r, sid, s.reactors[r].sessions[sid]);
    ParseEncoded(s.log[sid].handled, s.reactors[r].sessions[sid].fb);
  }
}
