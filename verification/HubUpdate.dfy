/** Changing one session of a plane keeps the plane's invariant, given what has to
    hold of that session alone. */
module HubUpdate {
  import opened Bytes
  import opened Routing
  import opened HubModel
  import opened HubInvariant

  /** The new state of the session, its history and the reactor is sound by itself. */
  ghost predicate LocalOk(c: Config, src: Log, s: Plane, r: nat, sid: nat, x: Session, l: SessionLog, pc: ReactorPc)
    requires Has(s, r, sid)
  {
    && (s.reactors[r].pc.Idle? || (s.reactors[r].pc.Acking? && s.reactors[r].pc.sid == sid))
    && Grows(s.log[sid], l) && !l.closed
    && LogOk(c, l) && StreamOk(src, sid, l) && SessionOk(l, x)
    && PcFits(c, sid, l, pc)
    && forall a :: a in l.granted ==> AckedIn(l.stream, a) || pc == Acking(sid, a)
  }

  ghost predicate PcFits(c: Config, sid: nat, l: SessionLog, pc: ReactorPc) {
    match pc
    case Idle => true
    case Acking(id, a) => id == sid && a in l.granted
    case Pushing(m, n) => m.sid == sid && MsgOk(c, l, m) && !m.retried && m.frameNo == |l.handled| - 1
  }

  /** What the invariant says of a session a reactor holds. */
  lemma Holds(c: Config, src: Log, s: Plane, r: nat, sid: nat)
    requires PlaneInv(c, src, s) && Has(s, r, sid)
    ensures ReactorOk(c, s.log, r, s.reactors[r])
    ensures s.log[sid].reactor == r && !s.log[sid].closed && SessionOk(s.log[sid], s.reactors[r].sessions[sid])
    ensures LogOk(c, s.log[sid]) && StreamOk(src, sid, s.log[sid]) && GrantOk(s.reactors, sid, s.log[sid])
  {
    hide StreamOk, LogOk, SessionOk, GrantOk;
    assert ReactorOk(c, s.log, r, s.reactors[r]);
    assert HeldOk(s.log, r, sid, s.reactors[r].sessions[sid]);
  }

  lemma UpdateGrows(s: Plane, r: nat, sid: nat, x: Session, l: SessionLog, pc: ReactorPc)
    requires Has(s, r, sid) && Grows(s.log[sid], l)
    ensures LogGrows(s.log, Update(s, r, sid, x, l, pc).log)
  {
  }

  lemma UpdateLogs(c: Config, src: Log, s: Plane, r: nat, sid: nat, x: Session, l: SessionLog, pc: ReactorPc)
    requires PlaneInv(c, src, s) && Has(s, r, sid) && LocalOk(c, src, s, r, sid, x, l, pc)
    ensures LogsOk(c, src, Update(s, r, sid, x, l, pc).log, s.nextSid)
  {
    hide StreamOk, LogOk, SessionOk, MsgOk;
  }

  lemma UpdateFds(c: Config, src: Log, s: Plane, r: nat, sid: nat, x: Session, l: SessionLog, pc: ReactorPc)
    requires PlaneInv(c, src, s) && Has(s, r, sid) && LocalOk(c, src, s, r, sid, x, l, pc)
    ensures FdsOk(Update(s, r, sid, x, l, pc).log)
  {
    hide StreamOk, LogOk, SessionOk, MsgOk;
    assert HeldOk(s.log, r, sid, s.reactors[r].sessions[sid]);
  }

  lemma IndexSame(R: Reactor, sid: nat, x: Session, pc: ReactorPc)
    requires IndexOk(R) && sid in R.sessions && x.fd == R.sessions[sid].fd
    ensures IndexOk(R.(sessions := R.sessions[sid := x], pc := pc))
  {
  }

  lemma HeldStays(log: Log, r: nat, R: Reactor, sid: nat, x: Session, l: SessionLog)
    requires AllHeld(log, r, R.sessions)
    requires l.reactor == r && !l.closed && SessionOk(l, x)
    ensures AllHeld(log[sid := l], r, R.sessions[sid := x])
  {
    hide SessionOk;
  }

  lemma UpdateReactor(c: Config, log: Log, r: nat, R: Reactor, sid: nat, x: Session, l: SessionLog, pc: ReactorPc)
    requires ReactorOk(c, log, r, R) && sid in R.sessions
    requires l.reactor == r && l.fd == log[sid].fd && !l.closed && SessionOk(l, x) && PcFits(c, sid, l, pc)
    ensures ReactorOk(c, log[sid := l], r, R.(sessions := R.sessions[sid := x], pc := pc))
  {
    assert HeldOk(log, r, sid, R.sessions[sid]);
    HeldStays(log, r, R, sid, x, l);
    IndexSame(R, sid, x, pc);
    hide IndexOk, SessionOk, MsgOk;
  }

  lemma OtherReactor(c: Config, src: Log, s: Plane, r: nat, sid: nat, l: SessionLog, k: nat)
    requires PlaneInv(c, src, s) && Has(s, r, sid) && k < |s.reactors| && k != r
    ensures ReactorOk(c, s.log[sid := l], k, s.reactors[k])
  {
    hide StreamOk, LogOk, SessionOk, MsgOk, LogsOk, FdsOk, ConnsOk, GrantsOk, LiveOk, TablesOk, EgressOk;
    var K := s.reactors[k];
    Holds(c, src, s, r, sid);
    assert ReactorOk(c, s.log, k, K);
    forall id | id in K.sessions
      ensures HeldOk(s.log[sid := l], k, id, K.sessions[id])
    {
      assert HeldOk(s.log, k, id, K.sessions[id]);
    }
  }

  lemma UpdateReactors(c: Config, src: Log, s: Plane, r: nat, sid: nat, x: Session, l: SessionLog, pc: ReactorPc)
    requires PlaneInv(c, src, s) && Has(s, r, sid) && LocalOk(c, src, s, r, sid, x, l, pc)
    ensures var s' := Update(s, r, sid, x, l, pc); ReactorsOk(c, s'.log, s'.reactors)
  {
    hide PlaneInv, ReactorOk, SessionOk, PcFits, LogOk, StreamOk, AckedIn;
    var s' := Update(s, r, sid, x, l, pc);
    Holds(c, src, s, r, sid);
    UpdateReactor(c, s.log, r, s.reactors[r], sid, x, l, pc);
    forall k | 0 <= k < |s.reactors| && k != r
      ensures ReactorOk(c, s'.log, k, s'.reactors[k])
    {
      OtherReactor(c, src, s, r, sid, l, k);
    }
  }

  /** A pending connection is not a session some reactor holds. */
  lemma ConnStays(log: Log, rs: seq<Reactor>, r: nat, R: Reactor, sid: nat, l: SessionLog, k: nat, conn: NewConn)
    requires r < |rs| && sid in rs[r].sessions && sid in log && log[sid].reactor == r
    requires R.sessions.Keys <= rs[r].sessions.Keys && ConnOk(log, rs, k, conn)
    ensures ConnOk(log[sid := l], rs[r := R], k, conn)
  {
  }

  lemma ConnsStay(log: Log, rs: seq<Reactor>, connQ: seq<seq<NewConn>>, listener: Listener, r: nat, R: Reactor,
                  sid: nat, l: SessionLog)
    requires r < |rs| && sid in rs[r].sessions && sid in log && log[sid].reactor == r
    requires R.sessions.Keys <= rs[r].sessions.Keys && ConnsOk(log, rs, connQ, listener)
    ensures ConnsOk(log[sid := l], rs[r := R], connQ, listener)
  {
    hide ConnOk;
    forall k | 0 <= k < |connQ|
      ensures QueueOk(log[sid := l], rs[r := R], k, connQ[k])
    {
      assert QueueOk(log, rs, k, connQ[k]);
      forall i | 0 <= i < |connQ[k]|
        ensures ConnOk(log[sid := l], rs[r := R], k, connQ[k][i])
      {
        ConnStays(log, rs, r, R, sid, l, k, connQ[k][i]);
      }
    }
    if listener.Holding? {
      ConnStays(log, rs, r, R, sid, l, listener.reactor, listener.conn);
    }
  }

  lemma UpdateGrants(c: Config, src: Log, s: Plane, r: nat, sid: nat, x: Session, l: SessionLog, pc: ReactorPc)
    requires PlaneInv(c, src, s) && Has(s, r, sid) && LocalOk(c, src, s, r, sid, x, l, pc)
    ensures var s' := Update(s, r, sid, x, l, pc); GrantsOk(s'.log, s'.reactors)
  {
    hide StreamOk, LogOk, SessionOk, MsgOk;
    hide ReactorOk, ReactorsOk, LogsOk, FdsOk, ConnsOk, LiveOk, TablesOk, EgressOk, AckedIn;
    Holds(c, src, s, r, sid);
    var s' := Update(s, r, sid, x, l, pc);
    forall id | id in s'.log
      ensures GrantOk(s'.reactors, id, s'.log[id])
    {
      if id != sid {
        assert GrantOk(s.reactors, id, s.log[id]);
      }
    }
  }

  lemma UpdateLive(c: Config, src: Log, s: Plane, r: nat, sid: nat, x: Session, l: SessionLog, pc: ReactorPc)
    requires PlaneInv(c, src, s) && Has(s, r, sid) && LocalOk(c, src, s, r, sid, x, l, pc)
    ensures var s' := Update(s, r, sid, x, l, pc); LiveOk(s'.log, s'.reactors)
  {
    hide StreamOk, LogOk, SessionOk, MsgOk, LogsOk, FdsOk, ConnsOk, GrantsOk, ReactorsOk, TablesOk, EgressOk;
    Holds(c, src, s, r, sid);
  }

  lemma SubOkGrows(log: Log, log': Log, cmd: U32, sub: Subscriber)
    requires SubOk(log, cmd, sub) && LogGrows(log, log') && !log'[sub.sid].closed
    ensures SubOk(log', cmd, sub)
  {
    var k :| 0 <= k < |log[sub.sid].auths| && log[sub.sid].auths[k].nid == sub.nid;
    assert log'[sub.sid].auths[k] == log[sub.sid].auths[k];
  }

  lemma RouteOkGrows(log: Log, log': Log, nid: U32, route: NidRoute)
    requires RouteOk(log, nid, route) && LogGrows(log, log')
    requires log'[route.sid].closed == log[route.sid].closed
    ensures RouteOk(log', nid, route)
  {
    var k :| 0 <= k < |log[route.sid].auths| && log[route.sid].auths[k].nid == nid;
    assert log'[route.sid].auths[k] == log[route.sid].auths[k];
  }

  /** No session closed in between. */
  ghost predicate SameClosed(log: Log, log': Log) {
    forall sid :: sid in log && sid in log' ==> log'[sid].closed == log[sid].closed
  }

  lemma TablesOkGrow(log: Log, log': Log, t: Tables)
    requires TablesOk(log, t) && LogGrows(log, log') && SameClosed(log, log')
    ensures TablesOk(log', t)
  {
    forall cmd, i | cmd in t.subs && 0 <= i < |t.subs[cmd]|
      ensures SubOk(log', cmd, t.subs[cmd][i])
    {
      assert ListOk(log, cmd, t.subs[cmd]);
      SubOkGrows(log, log', cmd, t.subs[cmd][i]);
    }
    forall cmd | cmd in t.subs
      ensures ListOk(log', cmd, t.subs[cmd])
    {
      assert ListOk(log, cmd, t.subs[cmd]);
    }
    forall nid | nid in t.nids
      ensures RouteOk(log', nid, t.nids[nid])
    {
      RouteOkGrows(log, log', nid, t.nids[nid]);
    }
  }

  /** The whole invariant after changing one session and the tables. */
  lemma UpdateKeeps(c: Config, src: Log, s: Plane, t: Tables, r: nat, sid: nat, x: Session, l: SessionLog,
                    pc: ReactorPc)
    requires PlaneInv(c, src, s) && Has(s, r, sid) && LocalOk(c, src, s, r, sid, x, l, pc)
    requires TablesOk(s.log[sid := l], t)
    ensures PlaneInv(c, src, Update(s.(tables := t), r, sid, x, l, pc))
    ensures LogGrows(s.log, Update(s, r, sid, x, l, pc).log)
    ensures SameClosed(s.log, Update(s, r, sid, x, l, pc).log)
  {
    hide LogsOk, FdsOk, ReactorsOk, ConnsOk, GrantsOk, LiveOk, TablesOk, EgressOk, LogOk, StreamOk, SessionOk, PcFits;
    Holds(c, src, s, r, sid);
    UpdateGrows(s, r, sid, x, l, pc);
    UpdateLogs(c, src, s, r, sid, x, l, pc);
    UpdateFds(c, src, s, r, sid, x, l, pc);
    UpdateReactors(c, src, s, r, sid, x, l, pc);
    UpdateGrants(c, src, s, r, sid, x, l, pc);
    UpdateLive(c, src, s, r, sid, x, l, pc);
    ConnsStay(s.log, s.reactors, s.connQ, s.listener, r, Update(s, r, sid, x, l, pc).reactors[r], sid, l);
    LogGrowsRefl(src);
    EgressOkGrows(c, src, src, s.log, Update(s, r, sid, x, l, pc).log, s.egress);
  }
}
