/** Every action of a reactor on a session it holds keeps the plane's invariant. */
module HubReactorSteps {
  import opened Bytes
  import opened Wire
  import opened Routing
  import opened HubModel
  import opened HubInvariant
  import opened HubUpdate

  // ---------- bytes in, bytes out ----------

  lemma ReceivedSession(c: Config, l: SessionLog, x: Session, chunk: seq<Byte>)
    requires LogOk(c, l) && SessionOk(l, x)
    ensures LogOk(c, l.(received := l.received + chunk))
    ensures SessionOk(l.(received := l.received + chunk), x.(fb := x.fb + chunk))
  {
    hide EncodeAll, StreamBytes, GoodAuths;
    assert EncodeAll(l.handled) + (x.fb + chunk) == EncodeAll(l.handled) + x.fb + chunk;
  }

  lemma ReceiveKeeps(c: Config, src: Log, s: Plane, r: nat, sid: nat, chunk: seq<Byte>)
    requires PlaneInv(c, src, s) && IsIdle(s, r) && Has(s, r, sid)
    ensures PlaneInv(c, src, Receive(s, r, sid, chunk))
    ensures LogGrows(s.log, Receive(s, r, sid, chunk).log)
  {
    hide PlaneInv, LogOk, SessionOk, LogGrows;
    var x, l := s.reactors[r].sessions[sid], s.log[sid];
    Holds(c, src, s, r, sid);
    ReceivedSession(c, l, x, chunk);
    QuietUpdate(c, src, s, r, sid, x.(fb := x.fb + chunk), l.(received := l.received + chunk), Idle);
  }

  lemma SentSession(c: Config, l: SessionLog, x: Session, n: nat)
    requires LogOk(c, l) && SessionOk(l, x) && n <= |x.outbuf|
    ensures LogOk(c, l.(sent := l.sent + x.outbuf[..n]))
    ensures SessionOk(l.(sent := l.sent + x.outbuf[..n]), x.(outbuf := x.outbuf[n..]))
  {
    hide EncodeAll, StreamBytes, GoodAuths;
    assert l.sent + x.outbuf == l.sent + x.outbuf[..n] + x.outbuf[n..];
  }

  lemma SendSomeKeeps(c: Config, src: Log, s: Plane, r: nat, sid: nat, n: nat)
    requires PlaneInv(c, src, s) && CanSendSome(s, r, sid, n)
    ensures PlaneInv(c, src, SendSome(s, r, sid, n))
    ensures LogGrows(s.log, SendSome(s, r, sid, n).log)
  {
    hide PlaneInv, LogOk, SessionOk, LogGrows;
    var x, l := s.reactors[r].sessions[sid], s.log[sid];
    Holds(c, src, s, r, sid);
    SentSession(c, l, x, n);
    QuietUpdate(c, src, s, r, sid, x.(outbuf := x.outbuf[n..]), l.(sent := l.sent + x.outbuf[..n]), Idle);
  }

  lemma GarbledKeeps(c: Config, src: Log, s: Plane, r: nat, sid: nat)
    requires PlaneInv(c, src, s) && IsIdle(s, r) && Has(s, r, sid)
    ensures var s' := Update(s, r, sid, s.reactors[r].sessions[sid].(fb := []), s.log[sid].(garbled := true), Idle);
            PlaneInv(c, src, s') && LogGrows(s.log, s'.log)
  {
    hide PlaneInv, LogGrows;
    Holds(c, src, s, r, sid);
    QuietUpdate(c, src, s, r, sid, s.reactors[r].sessions[sid].(fb := []), s.log[sid].(garbled := true), Idle);
  }

  /** A change that grants nothing and appends nothing to the output. */
  lemma QuietUpdate(c: Config, src: Log, s: Plane, r: nat, sid: nat, x: Session, l: SessionLog, pc: ReactorPc)
    requires PlaneInv(c, src, s) && IsIdle(s, r) && Has(s, r, sid)
    requires Grows(s.log[sid], l) && !l.closed && l.granted == s.log[sid].granted && l.stream == s.log[sid].stream
    requires LogOk(c, l) && SessionOk(l, x) && PcFits(c, sid, l, pc)
    ensures PlaneInv(c, src, Update(s, r, sid, x, l, pc))
    ensures LogGrows(s.log, Update(s, r, sid, x, l, pc).log)
  {
    hide LogsOk, FdsOk, ReactorsOk, ConnsOk, GrantsOk, LiveOk, TablesOk, EgressOk, LogOk, StreamOk, SessionOk, PcFits;
    Holds(c, src, s, r, sid);
    LogGrowsRefl(src);
    StreamOkGrows(src, src, sid, s.log[sid], l);
    GrantsWhenIdle(s.reactors, sid, s.log[sid]);
    UpdateGrows(s, r, sid, x, l, pc);
    TablesOkGrow(s.log, s.log[sid := l], s.tables);
    assert s.(tables := s.tables) == s;
    UpdateKeeps(c, src, s, s.tables, r, sid, x, l, pc);
  }

  lemma GrantsWhenIdle(rs: seq<Reactor>, sid: nat, l: SessionLog)
    requires GrantOk(rs, sid, l) && 0 <= l.reactor < |rs| && rs[l.reactor].pc.Idle?
    ensures forall a :: a in l.granted ==> AckedIn(l.stream, a)
  {
    hide AckedIn;
  }

  // ---------- a popped frame ----------

  lemma PoppedFrame(c: Config, l: SessionLog, x: Session, f: Frame, rest: seq<Byte>)
    requires LogOk(c, l) && SessionOk(l, x) && Pop(x.fb) == Got(f, rest)
    ensures AllFit(l.handled + [f])
    ensures GoodAuths(c, l.handled + [f]) == l.auths + (match GoodAuth(c, f) case None => [] case Some(who) => [who])
    ensures !l.garbled ==> EncodeAll(l.handled + [f]) + rest == l.received
  {
    hide Pop, Encode, GoodAuth;
    EncodePopped(x.fb);
    EncodeAllSnoc(l.handled, f);
    assert (l.handled + [f])[..|l.handled|] == l.handled;
    assert EncodeAll(l.handled) + Encode(f) + rest == EncodeAll(l.handled) + (Encode(f) + rest);
  }

  lemma ReactIsLogin(c: Config, authed: bool, f: Frame)
    ensures GoodAuth(c, f).Some? <==> React(c, authed, f).Login?
    ensures React(c, authed, f).Login? ==> GoodAuth(c, f) == Some(React(c, authed, f).who)
    ensures React(c, authed, f).Sub? || React(c, authed, f).Relay? ==> authed
    ensures React(c, authed, f).Relay? ==> f.flag != FLAG_SYS
  {
  }

  /** The session after a frame other than a login was popped. */
  lemma PoppedSession(c: Config, l: SessionLog, x: Session, f: Frame, rest: seq<Byte>)
    requires LogOk(c, l) && SessionOk(l, x) && Pop(x.fb) == Got(f, rest) && GoodAuth(c, f) == None
    ensures LogOk(c, l.(handled := l.handled + [f]))
    ensures SessionOk(l.(handled := l.handled + [f]), x.(fb := rest))
  {
    hide Pop, GoodAuth, EncodeAll, StreamBytes, GoodAuths;
    PoppedFrame(c, l, x, f, rest);
  }

  lemma RelayFits(c: Config, r: nat, sid: nat, l: SessionLog, x: Session, f: Frame)
    requires LogOk(c, l) && SessionOk(l, x) && x.authed && f.flag != FLAG_SYS && l.reactor == r
    ensures var l' := l.(handled := l.handled + [f]);
            MsgOk(c, l', Inbound(sid, r, x.gid, x.nid, f.typ, f.flag, f.payload, |l.handled|, false))
  {
    hide GoodAuths, EncodeAll, StreamBytes;
    var h := l.handled + [f];
    assert h[..|l.handled|] == l.handled;
  }

  /** Frames that change neither tables nor acknowledgements. */
  lemma PerformQuiet(c: Config, src: Log, s: Plane, r: nat, sid: nat, f: Frame, rest: seq<Byte>)
    requires PlaneInv(c, src, s) && IsIdle(s, r) && Has(s, r, sid)
             && Pop(s.reactors[r].sessions[sid].fb) == Got(f, rest)
    requires var k := React(c, s.reactors[r].sessions[sid].authed, f); k.Ignore? || k.Relay?
    ensures PlaneInv(c, src, Perform(c, s, r, sid, f, rest))
    ensures LogGrows(s.log, Perform(c, s, r, sid, f, rest).log)
  {
    hide PlaneInv, Pop, React, LogOk, SessionOk, MsgOk, LogGrows;
    var x, l := s.reactors[r].sessions[sid], s.log[sid];
    Holds(c, src, s, r, sid);
    ReactIsLogin(c, x.authed, f);
    PoppedSession(c, l, x, f, rest);
    var x', l' := x.(fb := rest), l.(handled := l.handled + [f]);
    if React(c, x.authed, f).Ignore? {
      QuietUpdate(c, src, s, r, sid, x', l', Idle);
    } else {
      RelayFits(c, r, sid, l, x, f);
      var m := Inbound(sid, r, x.gid, x.nid, f.typ, f.flag, f.payload, |l.handled|, false);
      QuietUpdate(c, src, s, r, sid, x', l', Pushing(m, 0));
    }
  }

  /** An update that grants an acknowledgement the reactor now owes. */
  lemma GrantKeeps(c: Config, src: Log, s: Plane, t: Tables, r: nat, sid: nat, x: Session, l: SessionLog, a: Ack)
    requires PlaneInv(c, src, s) && IsIdle(s, r) && Has(s, r, sid)
    requires var l' := l.(granted := l.granted + {a});
             && Grows(s.log[sid], l') && !l.closed && l.granted == s.log[sid].granted && l.stream == s.log[sid].stream
             && LogOk(c, l') && SessionOk(l', x) && TablesOk(s.log[sid := l'], t)
    ensures PlaneInv(c, src, Grant(s.(tables := t), r, sid, x, l, a))
    ensures LogGrows(s.log, Grant(s.(tables := t), r, sid, x, l, a).log)
  {
    hide LogsOk, FdsOk, ReactorsOk, ConnsOk, GrantsOk, LiveOk, TablesOk, EgressOk, LogOk, StreamOk, SessionOk;
    var l' := l.(granted := l.granted + {a});
    Holds(c, src, s, r, sid);
    LogGrowsRefl(src);
    StreamOkGrows(src, src, sid, s.log[sid], l');
    GrantsWhenIdle(s.reactors, sid, s.log[sid]);
    UpdateGrows(s, r, sid, x, l', Acking(sid, a));
    UpdateKeeps(c, src, s, t, r, sid, x, l', Acking(sid, a));
  }

  // ---------- effects on the tables ----------

  lemma BindKeepsTables(log: Log, t: Tables, nid: U32, sid: nat, r: int)
    requires TablesOk(log, t) && RouteOk(log, nid, NidRoute(sid, r))
    ensures TablesOk(log, BindNid(t, nid, sid, r))
  {
    hide ListOk, RouteOk;
  }

  lemma SubscribeKeepsTables(log: Log, t: Tables, cmd: U32, sub: Subscriber)
    requires TablesOk(log, t) && SubOk(log, cmd, sub)
    ensures TablesOk(log, Subscribe(t, cmd, sub))
  {
    hide RouteOk, SubOk, Upsert;
    var list := FindSubscribers(t, cmd);
    assert ListOk(log, cmd, list);
    UpsertFacts(list, sub);
    var list' := Upsert(list, sub);
    forall i | 0 <= i < |list'|
      ensures SubOk(log, cmd, list'[i])
    {
      assert list'[i] in list';
    }
  }

  lemma WithoutKeepsList(log: Log, cmd: U32, list: seq<Subscriber>, sid: nat)
    requires ListOk(log, cmd, list)
    ensures ListOk(log, cmd, Without(list, sid))
    ensures forall i :: 0 <= i < |Without(list, sid)| ==> Without(list, sid)[i].sid != sid
  {
    hide SubOk;
    WithoutMembers(list, sid);
    WithoutUnique(list, sid);
    var kept := Without(list, sid);
    forall i | 0 <= i < |kept|
      ensures SubOk(log, cmd, kept[i]) && kept[i].sid != sid
    {
      assert kept[i] in kept;
    }
  }

  lemma UnsubscribeKeepsTables(log: Log, t: Tables, cmd: U32, sid: nat)
    requires TablesOk(log, t)
    ensures TablesOk(log, Unsubscribe(t, cmd, sid))
  {
    hide ListOk, RouteOk;
    if cmd in t.subs {
      WithoutKeepsList(log, cmd, t.subs[cmd], sid);
    }
  }

  // ---------- granting frames ----------

  lemma LoginSession(c: Config, l: SessionLog, x: Session, f: Frame, rest: seq<Byte>, who: Identity)
    requires LogOk(c, l) && SessionOk(l, x) && Pop(x.fb) == Got(f, rest) && GoodAuth(c, f) == Some(who)
    ensures var l' := l.(handled := l.handled + [f], auths := l.auths + [who], granted := l.granted + {AuthAck});
            LogOk(c, l') && SessionOk(l', x.(fb := rest, authed := true, gid := who.gid, nid := who.nid))
  {
    hide Pop, GoodAuth, EncodeAll, StreamBytes, GoodAuths;
    PoppedFrame(c, l, x, f, rest);
  }

  lemma NewRouteOk(log: Log, sid: nat, r: nat, nid: U32)
    requires sid in log && log[sid].reactor == r && !log[sid].closed && AuthAck in log[sid].granted
    requires log[sid].auths != [] && log[sid].auths[|log[sid].auths| - 1].nid == nid
    ensures RouteOk(log, nid, NidRoute(sid, r))
  {
  }

  lemma PlaneTables(c: Config, src: Log, s: Plane)
    requires PlaneInv(c, src, s)
    ensures TablesOk(s.log, s.tables)
  {
  }

  lemma LoginKeeps(c: Config, src: Log, s: Plane, r: nat, sid: nat, f: Frame, rest: seq<Byte>)
    requires PlaneInv(c, src, s) && IsIdle(s, r) && Has(s, r, sid)
             && Pop(s.reactors[r].sessions[sid].fb) == Got(f, rest)
    requires React(c, s.reactors[r].sessions[sid].authed, f).Login?
    ensures PlaneInv(c, src, Perform(c, s, r, sid, f, rest))
    ensures LogGrows(s.log, Perform(c, s, r, sid, f, rest).log)
  {
    hide Pop, React, GoodAuth, PlaneInv, LogOk, SessionOk, TablesOk, RouteOk;
    var x, l := s.reactors[r].sessions[sid], s.log[sid];
    var who := React(c, x.authed, f).who;
    Holds(c, src, s, r, sid);
    PlaneTables(c, src, s);
    ReactIsLogin(c, x.authed, f);
    LoginSession(c, l, x, f, rest, who);
    var l' := l.(handled := l.handled + [f], auths := l.auths + [who]);
    var l2 := l'.(granted := l'.granted + {AuthAck});
    var x' := x.(fb := rest, authed := true, gid := who.gid, nid := who.nid);
    var log' := s.log[sid := l2];
    NewRouteOk(log', sid, r, who.nid);
    TablesOkGrow(s.log, log', s.tables);
    BindKeepsTables(log', s.tables, who.nid, sid, r);
    GrantKeeps(c, src, s, BindNid(s.tables, who.nid, sid, r), r, sid, x', l', AuthAck);
  }

  lemma GrantedSession(c: Config, l: SessionLog, x: Session, a: Ack)
    requires LogOk(c, l) && SessionOk(l, x)
    ensures LogOk(c, l.(granted := l.granted + {a})) && SessionOk(l.(granted := l.granted + {a}), x)
  {
  }

  /** Subscribing and unsubscribing; a keepalive only owes its acknowledgement. */
  lemma GrantingKeeps(c: Config, src: Log, s: Plane, r: nat, sid: nat, f: Frame, rest: seq<Byte>, a: Ack, t: Tables)
    requires PlaneInv(c, src, s) && IsIdle(s, r) && Has(s, r, sid)
             && Pop(s.reactors[r].sessions[sid].fb) == Got(f, rest)
    requires GoodAuth(c, f) == None
    requires var l' := s.log[sid].(handled := s.log[sid].handled + [f], granted := s.log[sid].granted + {a});
             TablesOk(s.log[sid := l'], s.tables) ==> TablesOk(s.log[sid := l'], t)
    ensures var x', l' := s.reactors[r].sessions[sid].(fb := rest), s.log[sid].(handled := s.log[sid].handled + [f]);
            && PlaneInv(c, src, Grant(s.(tables := t), r, sid, x', l', a))
            && LogGrows(s.log, Grant(s.(tables := t), r, sid, x', l', a).log)
  {
    hide Pop, GoodAuth, PlaneInv, LogOk, SessionOk, TablesOk;
    var x, l := s.reactors[r].sessions[sid], s.log[sid];
    Holds(c, src, s, r, sid);
    PlaneTables(c, src, s);
    PoppedSession(c, l, x, f, rest);
    var x', l' := x.(fb := rest), l.(handled := l.handled + [f]);
    GrantedSession(c, l', x', a);
    TablesOkGrow(s.log, s.log[sid := l'.(granted := l'.granted + {a})], s.tables);
    GrantKeeps(c, src, s, t, r, sid, x', l', a);
  }

  lemma NewSubOk(c: Config, l: SessionLog, x: Session, log: Log, sid: nat, r: nat, cmd: U32)
    requires LogOk(c, l) && SessionOk(l, x) && x.authed && !l.closed && l.reactor == r
    requires sid in log && log[sid].closed == l.closed && log[sid].reactor == r && log[sid].auths == l.auths
    requires log[sid].granted == l.granted + {SubAck(cmd)}
    ensures SubOk(log, cmd, Subscriber(x.gid, sid, x.nid, r))
  {
    assert l.auths[|l.auths| - 1].nid == x.nid;
  }

  lemma PerformGranting(c: Config, src: Log, s: Plane, r: nat, sid: nat, f: Frame, rest: seq<Byte>)
    requires PlaneInv(c, src, s) && IsIdle(s, r) && Has(s, r, sid)
             && Pop(s.reactors[r].sessions[sid].fb) == Got(f, rest)
    requires var k := React(c, s.reactors[r].sessions[sid].authed, f); k.Sub? || k.Unsub? || k.Keepalive?
    ensures PlaneInv(c, src, Perform(c, s, r, sid, f, rest))
    ensures LogGrows(s.log, Perform(c, s, r, sid, f, rest).log)
  {
    hide PlaneInv, Pop, React, GoodAuth, TablesOk, LogOk, SessionOk, LogGrows, SubOk;
    var x, l := s.reactors[r].sessions[sid], s.log[sid];
    Holds(c, src, s, r, sid);
    ReactIsLogin(c, x.authed, f);
    match React(c, x.authed, f)
    case Sub(cmd) =>
      var l' := l.(handled := l.handled + [f], granted := l.granted + {SubAck(cmd)});
      var log' := s.log[sid := l'];
      NewSubOk(c, l, x, log', sid, r, cmd);
      if TablesOk(log', s.tables) {
        SubscribeKeepsTables(log', s.tables, cmd, Subscriber(x.gid, sid, x.nid, r));
      }
      GrantingKeeps(c, src, s, r, sid, f, rest, SubAck(cmd),
                    Subscribe(s.tables, cmd, Subscriber(x.gid, sid, x.nid, r)));
    case Unsub(cmd) =>
      var l' := l.(handled := l.handled + [f], granted := l.granted + {UnsubAck(cmd)});
      var log' := s.log[sid := l'];
      if TablesOk(log', s.tables) {
        UnsubscribeKeepsTables(log', s.tables, cmd, sid);
      }
      GrantingKeeps(c, src, s, r, sid, f, rest, UnsubAck(cmd), Unsubscribe(s.tables, cmd, sid));
    case Keepalive =>
      GrantingKeeps(c, src, s, r, sid, f, rest, KpaliveAck, s.tables);
      assert s.(tables := s.tables) == s;
  }
}
