/** New connections: accepting, queueing and taking in keep the plane's invariant. */
module HubConnSteps {
  import opened Wire
  import opened HubModel
  import opened HubInvariant
  import opened HubUpdate
  import opened HubPlaneSteps

  // ---------- accept ----------

  lemma AcceptGrows(c: Config, src: Log, s: Plane, fd: int, r: nat)
    requires PlaneInv(c, src, s)
    ensures s.nextSid !in s.log && LogGrows(s.log, Accept(s, fd, r).log) && SameClosed(s.log, Accept(s, fd, r).log)
  {
    hide FdsOk, ReactorsOk, ConnsOk, GrantsOk, LiveOk, TablesOk, EgressOk, LogOk, StreamOk;
    assert s.nextSid !in s.log;
  }

  lemma NewLogOk(c: Config, src: Log, sid: nat, r: nat, fd: int)
    requires r < c.reactors
    ensures LogOk(c, NewLog(r, fd)) && StreamOk(src, sid, NewLog(r, fd)) && Blank(NewLog(r, fd))
  {
  }

  lemma AcceptLogs(c: Config, src: Log, s: Plane, fd: int, r: nat)
    requires PlaneInv(c, src, s) && CanAccept(c, s, fd, r)
    ensures var s' := Accept(s, fd, r);
            && LogsOk(c, src, s'.log, s'.nextSid) && FdsOk(s'.log)
            && GrantsOk(s'.log, s'.reactors) && LiveOk(s'.log, s'.reactors)
  {
    hide LogOk, StreamOk, ReactorsOk, ConnsOk, TablesOk, EgressOk, AckedIn;
    NewLogOk(c, src, s.nextSid, r, fd);
    var s' := Accept(s, fd, r);
    forall id | id in s'.log
      ensures GrantOk(s'.reactors, id, s'.log[id])
    {
      if id != s.nextSid {
        assert GrantOk(s.reactors, id, s.log[id]);
      }
    }
  }

  lemma ReactorsIgnore(c: Config, log: Log, rs: seq<Reactor>, sid: nat, l: SessionLog)
    requires ReactorsOk(c, log, rs) && forall k :: 0 <= k < |rs| ==> sid !in rs[k].sessions
    ensures ReactorsOk(c, log[sid := l], rs)
  {
    hide SessionOk, MsgOk;
    forall k | 0 <= k < |rs|
      ensures ReactorOk(c, log[sid := l], k, rs[k])
    {
      assert ReactorOk(c, log, k, rs[k]);
      forall id | id in rs[k].sessions
        ensures HeldOk(log[sid := l], k, id, rs[k].sessions[id])
      {
        assert HeldOk(log, k, id, rs[k].sessions[id]);
      }
    }
  }

  lemma HeldAreLogged(c: Config, log: Log, rs: seq<Reactor>, sid: nat)
    requires ReactorsOk(c, log, rs) && sid !in log
    ensures forall k :: 0 <= k < |rs| ==> sid !in rs[k].sessions
  {
    hide SessionOk, IndexOk, PcOk;
    forall k | 0 <= k < |rs|
      ensures sid !in rs[k].sessions
    {
      assert ReactorOk(c, log, k, rs[k]);
    }
  }

  lemma QueuesIgnore(log: Log, rs: seq<Reactor>, connQ: seq<seq<NewConn>>, sid: nat, l: SessionLog, k: nat)
    requires k < |connQ| && QueueOk(log, rs, k, connQ[k])
    requires forall i :: 0 <= i < |connQ[k]| ==> connQ[k][i].sid != sid
    ensures QueueOk(log[sid := l], rs, k, connQ[k])
  {
    hide Blank;
    forall i | 0 <= i < |connQ[k]|
      ensures ConnOk(log[sid := l], rs, k, connQ[k][i])
    {
      assert ConnOk(log, rs, k, connQ[k][i]);
    }
  }

  lemma AcceptConns(c: Config, log: Log, rs: seq<Reactor>, connQ: seq<seq<NewConn>>, sid: nat, r: nat, fd: int)
    requires ConnsOk(log, rs, connQ, Waiting) && sid !in log && r < |rs|
    requires forall k :: 0 <= k < |rs| ==> sid !in rs[k].sessions
    ensures ConnsOk(log[sid := NewLog(r, fd)], rs, connQ, Holding(NewConn(fd, sid), r))
  {
    hide Blank;
    var log' := log[sid := NewLog(r, fd)];
    forall k | 0 <= k < |connQ|
      ensures QueueOk(log', rs, k, connQ[k]) && forall i :: 0 <= i < |connQ[k]| ==> connQ[k][i].sid != sid
    {
      assert QueueOk(log, rs, k, connQ[k]);
      forall i | 0 <= i < |connQ[k]|
        ensures connQ[k][i].sid != sid
      {
        assert ConnOk(log, rs, k, connQ[k][i]);
      }
      QueuesIgnore(log, rs, connQ, sid, NewLog(r, fd), k);
    }
    assert Blank(NewLog(r, fd)) by {
      NewLogBlank(r, fd);
    }
  }

  lemma NewLogBlank(r: nat, fd: int)
    ensures Blank(NewLog(r, fd))
  {
  }

  lemma AcceptKeeps(c: Config, src: Log, s: Plane, fd: int, r: nat)
    requires PlaneInv(c, src, s) && CanAccept(c, s, fd, r)
    ensures PlaneInv(c, src, Accept(s, fd, r)) && LogGrows(s.log, Accept(s, fd, r).log)
  {
    hide LogsOk, FdsOk, ReactorsOk, ConnsOk, GrantsOk, LiveOk, TablesOk, EgressOk, FdOpen;
    AcceptGrows(c, src, s, fd, r);
    AcceptLogs(c, src, s, fd, r);
    HeldAreLogged(c, s.log, s.reactors, s.nextSid);
    ReactorsIgnore(c, s.log, s.reactors, s.nextSid, NewLog(r, fd));
    AcceptConns(c, s.log, s.reactors, s.connQ, s.nextSid, r, fd);
    TablesOkGrow(s.log, Accept(s, fd, r).log, s.tables);
    LogGrowsRefl(src);
    EgressOkGrows(c, src, src, s.log, Accept(s, fd, r).log, s.egress);
  }

  // ---------- handing the connection over ----------

  lemma ConnQueued(log: Log, rs: seq<Reactor>, connQ: seq<seq<NewConn>>, conn: NewConn, r: nat)
    requires ConnsOk(log, rs, connQ, Holding(conn, r))
    ensures ConnsOk(log, rs, connQ[r := connQ[r] + [conn]], Waiting)
  {
    hide ConnOk;
    var connQ' := connQ[r := connQ[r] + [conn]];
    forall k | 0 <= k < |connQ'|
      ensures QueueOk(log, rs, k, connQ'[k])
    {
      assert QueueOk(log, rs, k, connQ[k]);
    }
  }

  lemma ConnDropped(c: Config, log: Log, rs: seq<Reactor>, connQ: seq<seq<NewConn>>, conn: NewConn, r: nat)
    requires ConnsOk(log, rs, connQ, Holding(conn, r)) && ReactorsOk(c, log, rs)
    ensures ConnsOk(log[conn.sid := log[conn.sid].(closed := true)], rs, connQ, Waiting)
    ensures ReactorsOk(c, log[conn.sid := log[conn.sid].(closed := true)], rs)
  {
    hide Blank, SessionOk, IndexOk, PcOk;
    assert ConnOk(log, rs, r, conn);
    forall k | 0 <= k < |rs|
      ensures conn.sid !in rs[k].sessions
    {
      assert ReactorOk(c, log, k, rs[k]);
    }
    ReactorsIgnore(c, log, rs, conn.sid, log[conn.sid].(closed := true));
    forall k | 0 <= k < |connQ|
      ensures QueueOk(log[conn.sid := log[conn.sid].(closed := true)], rs, k, connQ[k])
    {
      assert QueueOk(log, rs, k, connQ[k]);
      forall i | 0 <= i < |connQ[k]|
        ensures connQ[k][i].sid != conn.sid
      {
        assert ConnOk(log, rs, k, connQ[k][i]);
      }
      QueuesIgnore(log, rs, connQ, conn.sid, log[conn.sid].(closed := true), k);
    }
  }

  lemma BlankCloses(c: Config, src: Log, s: Plane, sid: nat)
    requires PlaneInv(c, src, s) && sid in s.log && Blank(s.log[sid])
    ensures var log' := s.log[sid := s.log[sid].(closed := true)];
            && LogsOk(c, src, log', s.nextSid) && FdsOk(log') && GrantsOk(log', s.reactors) && LiveOk(log', s.reactors)
            && TablesOk(log', s.tables) && LogGrows(s.log, log')
  {
    hide StreamOk, ReactorsOk, ConnsOk, TablesOk, EgressOk, AckedIn, GoodAuths, StreamBytes, AllFit;
    NoEntryBeforeLogin(s.log, s.tables, sid);
    var log' := s.log[sid := s.log[sid].(closed := true)];
    LogGrowsRefl(src);
    StreamOkGrows(src, src, sid, s.log[sid], log'[sid]);
    forall id | id in log'
      ensures GrantOk(s.reactors, id, log'[id])
    {
      assert GrantOk(s.reactors, id, s.log[id]);
    }
  }

  lemma ConnPushKeeps(c: Config, src: Log, s: Plane)
    requires PlaneInv(c, src, s) && CanConnPush(s)
    ensures PlaneInv(c, src, ConnPush(c, s)) && LogGrows(s.log, ConnPush(c, s).log)
  {
    var conn, r := s.listener.conn, s.listener.reactor;
    assert ConnOk(s.log, s.reactors, r, conn);
    hide LogsOk, FdsOk, ReactorsOk, ConnsOk, GrantsOk, LiveOk, TablesOk, EgressOk;
    if |s.connQ[r]| < c.capacity {
      ConnQueued(s.log, s.reactors, s.connQ, conn, r);
      LogGrowsRefl(s.log);
    } else {
      BlankCloses(c, src, s, conn.sid);
      ConnDropped(c, s.log, s.reactors, s.connQ, conn, r);
      LogGrowsRefl(src);
      EgressOkGrows(c, src, src, s.log, ConnPush(c, s).log, s.egress);
    }
  }

  // ---------- taking a connection in ----------

  /** A new connection collides with no session the reactor holds: neither its session id
      nor its descriptor is in use. */
  lemma NewConnIsNew(c: Config, src: Log, s: Plane, r: nat)
    requires PlaneInv(c, src, s) && CanIntake(s, r)
    ensures var conn := s.connQ[r][0];
            && ConnOk(s.log, s.reactors, r, conn)
            && conn.sid !in s.reactors[r].sessions && conn.fd !in s.reactors[r].fdToSid
  {
    hide LogsOk, GrantsOk, LiveOk, TablesOk, EgressOk, SessionOk, PcOk;
    var conn, R := s.connQ[r][0], s.reactors[r];
    assert QueueOk(s.log, s.reactors, r, s.connQ[r]);
    assert ConnOk(s.log, s.reactors, r, conn);
    assert ReactorOk(c, s.log, r, R);
    if conn.fd in R.fdToSid {
      IndexedFdIsOpen(c, s.log, r, R, conn.fd);
    }
  }

  lemma IndexedFdIsOpen(c: Config, log: Log, r: nat, R: Reactor, fd: int)
    requires ReactorOk(c, log, r, R) && fd in R.fdToSid
    ensures var sid := R.fdToSid[fd]; sid in R.sessions && sid in log && !log[sid].closed && log[sid].fd == fd
  {
    assert HeldOk(log, r, R.fdToSid[fd], R.sessions[R.fdToSid[fd]]);
  }

  lemma FreshSessionOk(l: SessionLog)
    requires Blank(l)
    ensures SessionOk(l, Session(l.fd, false, 0, 0, [], []))
  {
  }

  lemma IntakeReactor(c: Config, log: Log, r: nat, R: Reactor, conn: NewConn)
    requires ReactorOk(c, log, r, R) && R.pc.Idle? && conn.sid !in R.sessions && conn.fd !in R.fdToSid
    requires conn.sid in log && log[conn.sid].reactor == r && log[conn.sid].fd == conn.fd && Blank(log[conn.sid])
    ensures ReactorOk(c, log, r, R.(fdToSid := R.fdToSid[conn.fd := conn.sid],
                                    sessions := R.sessions[conn.sid := Session(conn.fd, false, 0, 0, [], [])]))
  {
    FreshSessionOk(log[conn.sid]);
    hide SessionOk;
    var R' := R.(fdToSid := R.fdToSid[conn.fd := conn.sid],
                 sessions := R.sessions[conn.sid := Session(conn.fd, false, 0, 0, [], [])]);
    forall id | id in R'.sessions
      ensures HeldOk(log, r, id, R'.sessions[id])
    {
      if id != conn.sid {
        assert HeldOk(log, r, id, R.sessions[id]);
      }
    }
  }

  lemma IntakeConns(log: Log, rs: seq<Reactor>, connQ: seq<seq<NewConn>>, listener: Listener, r: nat, R: Reactor)
    requires ConnsOk(log, rs, connQ, listener) && r < |connQ| && connQ[r] != []
    requires R.sessions.Keys == rs[r].sessions.Keys + {connQ[r][0].sid}
    ensures ConnsOk(log, rs[r := R], connQ[r := connQ[r][1..]], listener)
  {
    hide Blank;
    var connQ', rs', taken := connQ[r := connQ[r][1..]], rs[r := R], connQ[r][0];
    assert QueueOk(log, rs, r, connQ[r]);
    forall k | 0 <= k < |connQ'|
      ensures QueueOk(log, rs', k, connQ'[k])
    {
      assert QueueOk(log, rs, k, connQ[k]);
      forall i | 0 <= i < |connQ'[k]|
        ensures ConnOk(log, rs', k, connQ'[k][i])
      {
        assert ConnOk(log, rs, k, connQ[k][if k == r then i + 1 else i]);
      }
    }
  }

  lemma IntakeGrants(log: Log, rs: seq<Reactor>, r: nat, R: Reactor)
    requires GrantsOk(log, rs) && LiveOk(log, rs) && r < |rs| && R.pc == rs[r].pc
             && rs[r].sessions.Keys <= R.sessions.Keys
    ensures GrantsOk(log, rs[r := R]) && LiveOk(log, rs[r := R])
  {
    hide AckedIn;
    forall id | id in log
      ensures GrantOk(rs[r := R], id, log[id])
    {
      assert GrantOk(rs, id, log[id]);
    }
  }

  lemma IntakeKeeps(c: Config, src: Log, s: Plane, r: nat)
    requires PlaneInv(c, src, s) && CanIntake(s, r)
    ensures PlaneInv(c, src, Intake(s, r)) && LogGrows(s.log, Intake(s, r).log)
  {
    var conn, R' := s.connQ[r][0], Intake(s, r).reactors[r];
    NewConnIsNew(c, src, s, r);
    assert ReactorOk(c, s.log, r, s.reactors[r]);
    IntakeReactor(c, s.log, r, s.reactors[r], conn);
    hide ReactorOk, LogsOk, FdsOk, ConnsOk, GrantsOk, LiveOk, TablesOk, EgressOk;
    assert ReactorsOk(c, s.log, s.reactors[r := R']);
    hide ReactorsOk;
    IntakeConns(s.log, s.reactors, s.connQ, s.listener, r, R');
    IntakeGrants(s.log, s.reactors, r, R');
    LogGrowsRefl(s.log);
  }

  // ---------- a reactor pushing to a worker ----------

  lemma PcChangeGrants(log: Log, rs: seq<Reactor>, r: nat, pc: ReactorPc)
    requires GrantsOk(log, rs) && LiveOk(log, rs) && r < |rs| && !rs[r].pc.Acking?
    ensures GrantsOk(log, rs[r := rs[r].(pc := pc)]) && LiveOk(log, rs[r := rs[r].(pc := pc)])
  {
    hide AckedIn;
    forall id | id in log
      ensures GrantOk(rs[r := rs[r].(pc := pc)], id, log[id])
    {
      assert GrantOk(rs, id, log[id]);
    }
  }

  lemma PcChangeConns(log: Log, rs: seq<Reactor>, connQ: seq<seq<NewConn>>, listener: Listener, r: nat, pc: ReactorPc)
    requires ConnsOk(log, rs, connQ, listener) && r < |rs|
    ensures ConnsOk(log, rs[r := rs[r].(pc := pc)], connQ, listener)
  {
    hide Blank;
    var rs' := rs[r := rs[r].(pc := pc)];
    forall k | 0 <= k < |connQ|
      ensures QueueOk(log, rs', k, connQ[k])
    {
      assert QueueOk(log, rs, k, connQ[k]);
      forall i | 0 <= i < |connQ[k]|
        ensures ConnOk(log, rs', k, connQ[k][i])
      {
        assert ConnOk(log, rs, k, connQ[k][i]);
      }
    }
  }

  lemma PushingReactor(c: Config, log: Log, r: nat, R: Reactor, pc: ReactorPc)
    requires ReactorOk(c, log, r, R) && R.pc.Pushing? && (pc.Idle? || (pc.Pushing? && pc.msg == R.pc.msg))
    ensures ReactorOk(c, log, r, R.(pc := pc))
  {
    hide AllHeld, MsgOk;
  }

  /** A reactor that holds a message keeps it for another attempt or lets go of it. */
  lemma PushedOnKeeps(c: Config, src: Log, s: Plane, r: nat, pc: ReactorPc)
    requires PlaneInv(c, src, s) && r < |s.reactors| && s.reactors[r].pc.Pushing?
    requires pc.Idle? || (pc.Pushing? && pc.msg == s.reactors[r].pc.msg)
    ensures PlaneInv(c, src, SetPc(s, r, pc))
  {
    hide ReactorOk, LogsOk, FdsOk, ConnsOk, GrantsOk, LiveOk, TablesOk, EgressOk;
    assert ReactorOk(c, s.log, r, s.reactors[r]);
    PushingReactor(c, s.log, r, s.reactors[r], pc);
    assert ReactorsOk(c, s.log, s.reactors[r := s.reactors[r].(pc := pc)]);
    hide ReactorsOk;
    PcChangeGrants(s.log, s.reactors, r, pc);
    PcChangeConns(s.log, s.reactors, s.connQ, s.listener, r, pc);
  }

  lemma RecvPushKeeps(c: Config, src: Log, s: Plane, link: Link, r: nat)
    requires ValidConfig(c) && PlaneInv(c, src, s) && CanRecvPush(c, s, link, r)
    ensures PlaneInv(c, src, RecvPushPlane(c, s, link, r))
  {
    hide PlaneInv;
    PushedOnKeeps(c, src, s, r, RecvPushPlane(c, s, link, r).reactors[r].pc);
  }
}
