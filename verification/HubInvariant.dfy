/** What every reachable state of one plane satisfies. */
module HubInvariant {
  import opened Bytes
  import opened Wire
  import ImHeader
  import opened Routing
  import opened HubModel

  // ---------- histories of one session ----------

  /** The identities presented with matching credentials, in order. */
  function GoodAuths(c: Config, fs: seq<Frame>): seq<Identity> {
    if fs == [] then []
    else
      var front := GoodAuths(c, fs[..|fs| - 1]);
      match GoodAuth(c, fs[|fs| - 1])
      case None => front
      case Some(who) => front + [who]
  }

  /** All bytes of the frames appended to a session's output. */
  function StreamBytes(st: seq<Item>): seq<Byte> {
    if st == [] then [] else StreamBytes(st[..|st| - 1]) + Encode(ItemFrame(st[|st| - 1]))
  }

  ghost predicate AckedIn(st: seq<Item>, a: Ack) {
    exists i :: 0 <= i < |st| && st[i].AckItem? && st[i].ack == a
  }

  ghost predicate HasNid(auths: seq<Identity>, nid: U32) {
    exists k :: 0 <= k < |auths| && auths[k].nid == nid
  }

  // ---------- a frame on its way out ----------

  /** The frame against its destination: the owning reactor, a node id the session
      authenticated as, and only after the acknowledged operations. Its bytes are
      exact, or empty if some push had to be retried. */
  ghost predicate FrameFits(l: SessionLog, x: Outbound) {
    && x.reactor == l.reactor
    && HasNid(l.auths, x.meta.nid)
    && AuthAck in l.granted
    && (x.meta.published ==> SubAck(x.meta.cmd) in l.granted)
    && |x.meta.payload| < TWO_32
    && x.bytes == if x.meta.retried then [] else EncodeFrame(x.meta.cmd, x.meta.nid, FLAG_EXP, x.meta.payload)
  }

  /** The frame against its source: it carries a business frame the source session sent. */
  ghost predicate SourceFits(l: SessionLog, m: Meta) {
    && m.frameNo < |l.handled|
    && var f := l.handled[m.frameNo];
    && f.flag != FLAG_SYS && m.cmd == f.typ
    && m.payload == (if m.emptied then [] else f.payload)
    && (!m.published ==> m.payload == f.payload && m.nid == ImHeader.ReadDestNid(f.payload) && m.nid != 0)
  }

  ghost predicate FrameOk(src: Log, dst: Log, x: Outbound) {
    && x.sid in dst && x.meta.src in src
    && FrameFits(dst[x.sid], x)
    && SourceFits(src[x.meta.src], x.meta)
  }

  ghost predicate FramesOk(src: Log, dst: Log, q: seq<Outbound>) {
    forall i :: 0 <= i < |q| ==> FrameOk(src, dst, q[i])
  }

  // ---------- one session ----------

  /** Every business frame in a session's output follows the acknowledgements
      that let it be sent, and has its exact bytes. */
  ghost predicate ItemOk(src: Log, sid: nat, l: SessionLog, j: nat)
    requires j < |l.stream|
  {
    l.stream[j].BizItem? ==>
      var x := l.stream[j].frame;
      && x.sid == sid && x.meta.src in src && FrameFits(l, x) && SourceFits(src[x.meta.src], x.meta)
      && !x.meta.retried
      && AckedIn(l.stream[..j], AuthAck)
      && (x.meta.published ==> AckedIn(l.stream[..j], SubAck(x.meta.cmd)))
  }

  ghost predicate StreamOk(src: Log, sid: nat, l: SessionLog) {
    forall j :: 0 <= j < |l.stream| ==> ItemOk(src, sid, l, j)
  }

  ghost predicate LogOk(c: Config, l: SessionLog) {
    && 0 <= l.reactor < c.reactors
    && l.auths == GoodAuths(c, l.handled)
    && AllFit(l.handled)
    && (l.auths != [] ==> AuthAck in l.granted)
    && l.sent <= StreamBytes(l.stream)
    && (!l.garbled ==> EncodeAll(l.handled) <= l.received)
  }

  ghost predicate SessionOk(l: SessionLog, x: Session) {
    && x.fd == l.fd
    && (x.authed <==> l.auths != [])
    && (x.authed ==> Identity(x.gid, x.nid) == l.auths[|l.auths| - 1])
    && StreamBytes(l.stream) == l.sent + x.outbuf
    && (!l.garbled ==> EncodeAll(l.handled) + x.fb == l.received)
  }

  /** An inbound message is a business frame of its session, under the identity of
      the latest login before it. */
  ghost predicate MsgOk(c: Config, l: SessionLog, m: Inbound) {
    && m.reactor == l.reactor
    && m.frameNo < |l.handled|
    && var f := l.handled[m.frameNo];
    && var logins := GoodAuths(c, l.handled[..m.frameNo]);
    && f.flag != FLAG_SYS && m.typ == f.typ && m.flag == f.flag
    && m.payload == (if m.retried then [] else f.payload)
    && logins != [] && Identity(m.gid, m.nid) == logins[|logins| - 1]
  }

  // ---------- the parts of a plane ----------

  ghost predicate LogsOk(c: Config, src: Log, log: Log, nextSid: nat) {
    forall sid :: sid in log ==> sid < nextSid && LogOk(c, log[sid]) && StreamOk(src, sid, log[sid])
  }

  /** Two sessions that are not closed never share a descriptor. */
  ghost predicate FdsOk(log: Log) {
    forall a, b :: a in log && b in log && a != b && !log[a].closed && !log[b].closed ==> log[a].fd != log[b].fd
  }

  /** The two session indexes of a reactor are inverse to each other. */
  ghost predicate IndexOk(R: Reactor) {
    && (forall fd :: fd in R.fdToSid ==> R.fdToSid[fd] in R.sessions && R.sessions[R.fdToSid[fd]].fd == fd)
    && (forall sid :: sid in R.sessions ==> R.sessions[sid].fd in R.fdToSid && R.fdToSid[R.sessions[sid].fd] == sid)
  }

  ghost predicate HeldOk(log: Log, r: nat, sid: nat, x: Session) {
    sid in log && log[sid].reactor == r && !log[sid].closed && SessionOk(log[sid], x)
  }

  ghost predicate AllHeld(log: Log, r: nat, sessions: map<nat, Session>) {
    forall sid :: sid in sessions ==> HeldOk(log, r, sid, sessions[sid])
  }

  ghost predicate PcOk(c: Config, log: Log, R: Reactor) {
    match R.pc
    case Idle => true
    case Acking(sid, a) => sid in R.sessions && sid in log && a in log[sid].granted
    case Pushing(m, n) =>
      m.sid in R.sessions && m.sid in log && MsgOk(c, log[m.sid], m) && !m.retried
      && m.frameNo == |log[m.sid].handled| - 1
  }

  ghost predicate ReactorOk(c: Config, log: Log, r: nat, R: Reactor) {
    && AllHeld(log, r, R.sessions)
    && IndexOk(R)
    && PcOk(c, log, R)
  }

  ghost predicate ReactorsOk(c: Config, log: Log, rs: seq<Reactor>) {
    forall r :: 0 <= r < |rs| ==> ReactorOk(c, log, r, rs[r])
  }

  /** Nothing has happened on the session yet. */
  ghost predicate Blank(l: SessionLog) {
    l == NewLog(if l.reactor >= 0 then l.reactor else 0, l.fd) && l.reactor >= 0
  }

  ghost predicate ConnOk(log: Log, rs: seq<Reactor>, r: nat, conn: NewConn) {
    && conn.sid in log && Blank(log[conn.sid]) && log[conn.sid].reactor == r && log[conn.sid].fd == conn.fd
    && r < |rs| && conn.sid !in rs[r].sessions
  }

  ghost predicate QueueOk(log: Log, rs: seq<Reactor>, r: nat, q: seq<NewConn>) {
    && (forall i :: 0 <= i < |q| ==> ConnOk(log, rs, r, q[i]))
    && (forall i, j :: 0 <= i < j < |q| ==> q[i].sid != q[j].sid)
  }

  ghost predicate ConnsOk(log: Log, rs: seq<Reactor>, connQ: seq<seq<NewConn>>, listener: Listener) {
    && |connQ| == |rs|
    && (forall r :: 0 <= r < |connQ| ==> QueueOk(log, rs, r, connQ[r]))
    && (listener.Holding? ==>
          && 0 <= listener.reactor < |connQ|
          && ConnOk(log, rs, listener.reactor, listener.conn)
          && forall i :: 0 <= i < |connQ[listener.reactor]| ==> connQ[listener.reactor][i].sid != listener.conn.sid)
  }

  /** A granted acknowledgement is in the output, or the owning reactor is about to append it. */
  ghost predicate GrantOk(rs: seq<Reactor>, sid: nat, l: SessionLog) {
    forall a :: a in l.granted ==>
      AckedIn(l.stream, a) || (0 <= l.reactor < |rs| && rs[l.reactor].pc == Acking(sid, a))
  }

  ghost predicate GrantsOk(log: Log, rs: seq<Reactor>) {
    forall sid :: sid in log ==> GrantOk(rs, sid, log[sid])
  }

  /** An authenticated session is held by its reactor until it closes. */
  ghost predicate LiveOk(log: Log, rs: seq<Reactor>) {
    forall sid :: sid in log && log[sid].auths != [] && !log[sid].closed ==>
      0 <= log[sid].reactor < |rs| && sid in rs[log[sid].reactor].sessions
  }

  /** A subscription entry names an open session that authenticated as the entry's node id. */
  ghost predicate SubOk(log: Log, cmd: U32, sub: Subscriber) {
    && sub.sid in log
    && var l := log[sub.sid];
    && l.reactor == sub.reactor && !l.closed && HasNid(l.auths, sub.nid)
    && AuthAck in l.granted && SubAck(cmd) in l.granted
  }

  /** A route names a session that authenticated as the node id; if that session has
      closed, it had moved on to another node id. */
  ghost predicate RouteOk(log: Log, nid: U32, route: NidRoute) {
    && route.sid in log
    && var l := log[route.sid];
    && l.reactor == route.reactor && HasNid(l.auths, nid) && AuthAck in l.granted
    && (l.closed ==> l.auths[|l.auths| - 1].nid != nid)
  }

  ghost predicate ListOk(log: Log, cmd: U32, list: seq<Subscriber>) {
    Unique(list) && forall i :: 0 <= i < |list| ==> SubOk(log, cmd, list[i])
  }

  ghost predicate TablesOk(log: Log, t: Tables) {
    && (forall cmd :: cmd in t.subs ==> ListOk(log, cmd, t.subs[cmd]))
    && (forall nid :: nid in t.nids ==> RouteOk(log, nid, t.nids[nid]))
  }

  ghost predicate DropOk(src: Log, dst: Log, d: Drop) {
    && FrameOk(src, dst, d.frame)
    && d.why != BadReactor
    && (d.why == SessionGone ==> dst[d.frame.sid].closed)
    && (d.why == Emptied ==> d.frame.meta.retried)
  }

  ghost predicate SendQOk(src: Log, dst: Log, r: nat, q: seq<Outbound>) {
    FramesOk(src, dst, q) && forall i :: 0 <= i < |q| ==> q[i].reactor == r
  }

  ghost predicate EgressOk(c: Config, src: Log, dst: Log, e: Egress) {
    && |e.sendQ| == c.reactors
    && FramesOk(src, dst, e.distQ)
    && (e.hand.Some? ==> FrameOk(src, dst, e.hand.value.frame) && e.hand.value.attempt <= MAX_RETRIES)
    && (forall r :: 0 <= r < |e.sendQ| ==> SendQOk(src, dst, r, e.sendQ[r]))
    && (forall i :: 0 <= i < |e.dropped| ==> DropOk(src, dst, e.dropped[i]))
  }

  /** The invariant of one plane; `src` is the history of the peer plane. */
  ghost predicate PlaneInv(c: Config, src: Log, s: Plane) {
    && |s.reactors| == c.reactors
    && LogsOk(c, src, s.log, s.nextSid)
    && FdsOk(s.log)
    && ReactorsOk(c, s.log, s.reactors)
    && ConnsOk(s.log, s.reactors, s.connQ, s.listener)
    && GrantsOk(s.log, s.reactors)
    && LiveOk(s.log, s.reactors)
    && TablesOk(s.log, s.tables)
    && EgressOk(c, src, s.log, s.egress)
  }

  // ---------- histories only grow ----------

  ghost predicate Grows(l: SessionLog, m: SessionLog) {
    && l.reactor == m.reactor && l.fd == m.fd
    && (l.closed ==> m.closed && m.auths == l.auths)
    && l.auths <= m.auths && l.granted <= m.granted && l.handled <= m.handled && l.stream <= m.stream
  }

  ghost predicate LogGrows(a: Log, b: Log) {
    forall sid :: sid in a ==> sid in b && Grows(a[sid], b[sid])
  }

  lemma FrameFitsGrows(l: SessionLog, m: SessionLog, x: Outbound)
    requires FrameFits(l, x) && Grows(l, m)
    ensures FrameFits(m, x)
  {
    hide EncodeFrame;
    var k :| 0 <= k < |l.auths| && l.auths[k].nid == x.meta.nid;
    assert m.auths[k] == l.auths[k];
  }

  lemma SourceFitsGrows(l: SessionLog, m: SessionLog, t: Meta)
    requires SourceFits(l, t) && Grows(l, m)
    ensures SourceFits(m, t)
  {
    assert m.handled[t.frameNo] == l.handled[t.frameNo];
  }

  lemma FrameOkGrows(src: Log, src': Log, dst: Log, dst': Log, x: Outbound)
    requires FrameOk(src, dst, x) && LogGrows(src, src') && LogGrows(dst, dst')
    ensures FrameOk(src', dst', x)
  {
    FrameFitsGrows(dst[x.sid], dst'[x.sid], x);
    SourceFitsGrows(src[x.meta.src], src'[x.meta.src], x.meta);
  }

  lemma FramesOkGrow(src: Log, src': Log, dst: Log, dst': Log, q: seq<Outbound>)
    requires FramesOk(src, dst, q) && LogGrows(src, src') && LogGrows(dst, dst')
    ensures FramesOk(src', dst', q)
  {
    hide FrameOk;
    forall i | 0 <= i < |q|
      ensures FrameOk(src', dst', q[i])
    {
      FrameOkGrows(src, src', dst, dst', q[i]);
    }
  }

  lemma EgressOkGrows(c: Config, src: Log, src': Log, dst: Log, dst': Log, e: Egress)
    requires EgressOk(c, src, dst, e) && LogGrows(src, src') && LogGrows(dst, dst')
    ensures EgressOk(c, src', dst', e)
  {
    hide FrameOk, FramesOk;
    FramesOkGrow(src, src', dst, dst', e.distQ);
    if e.hand.Some? {
      FrameOkGrows(src, src', dst, dst', e.hand.value.frame);
    }
    forall r | 0 <= r < |e.sendQ|
      ensures SendQOk(src', dst', r, e.sendQ[r])
    {
      FramesOkGrow(src, src', dst, dst', e.sendQ[r]);
    }
    forall i | 0 <= i < |e.dropped|
      ensures DropOk(src', dst', e.dropped[i])
    {
      DropOkGrows(src, src', dst, dst', e.dropped[i]);
    }
  }

  lemma DropOkGrows(src: Log, src': Log, dst: Log, dst': Log, d: Drop)
    requires DropOk(src, dst, d) && LogGrows(src, src') && LogGrows(dst, dst')
    ensures DropOk(src', dst', d)
  {
    FrameOkGrows(src, src', dst, dst', d.frame);
  }

  lemma ItemOkGrows(src: Log, src': Log, sid: nat, l: SessionLog, m: SessionLog, j: nat)
    requires j < |l.stream| && ItemOk(src, sid, l, j) && LogGrows(src, src') && Grows(l, m)
    ensures ItemOk(src', sid, m, j)
  {
    hide FrameFits, SourceFits;
    assert m.stream[j] == l.stream[j] && m.stream[..j] == l.stream[..j];
    if l.stream[j].BizItem? {
      var x := l.stream[j].frame;
      FrameFitsGrows(l, m, x);
      SourceFitsGrows(src[x.meta.src], src'[x.meta.src], x.meta);
    }
  }

  /** A session history that grows without appending to the output keeps its output in order. */
  lemma StreamOkGrows(src: Log, src': Log, sid: nat, l: SessionLog, m: SessionLog)
    requires StreamOk(src, sid, l) && LogGrows(src, src') && Grows(l, m) && l.stream == m.stream
    ensures StreamOk(src', sid, m)
  {
    hide ItemOk;
    forall j | 0 <= j < |m.stream|
      ensures ItemOk(src', sid, m, j)
    {
      ItemOkGrows(src, src', sid, l, m, j);
    }
  }

  lemma LogGrowsRefl(a: Log)
    ensures LogGrows(a, a)
  {
  }

  /** The peer's history growing keeps a plane's invariant. */
  lemma PeerGrows(c: Config, src: Log, src': Log, s: Plane)
    requires PlaneInv(c, src, s) && LogGrows(src, src')
    ensures PlaneInv(c, src', s)
  {
    hide StreamOk, LogOk, EgressOk, TablesOk, ReactorsOk, ConnsOk, GrantsOk, LiveOk, FdsOk, LogGrows, Grows;
    LogGrowsRefl(s.log);
    EgressOkGrows(c, src, src', s.log, s.log, s.egress);
    forall sid | sid in s.log
      ensures StreamOk(src', sid, s.log[sid])
    {
      GrowsRefl(s.log[sid]);
      StreamOkGrows(src, src', sid, s.log[sid], s.log[sid]);
    }
  }

  lemma GrowsRefl(l: SessionLog)
    ensures Grows(l, l)
  {
  }
}
