/** The remaining actions of a plane keep its invariant: output, close, new
    connections and distribution. */
module HubPlaneSteps {
  import opened Bytes
  import opened Wire
  import opened Routing
  import opened HubModel
  import opened HubInvariant
  import opened HubUpdate
  import opened HubReactorSteps

  // ---------- appending to a session's output ----------

  lemma AppendedSession(c: Config, l: SessionLog, x: Session, i: Item)
    requires LogOk(c, l) && SessionOk(l, x)
    ensures LogOk(c, l.(stream := l.stream + [i]))
    ensures SessionOk(l.(stream := l.stream + [i]), x.(outbuf := x.outbuf + Encode(ItemFrame(i))))
  {
    hide Encode, EncodeAll, GoodAuths;
    assert (l.stream + [i])[..|l.stream|] == l.stream;
    assert l.sent + (x.outbuf + Encode(ItemFrame(i))) == l.sent + x.outbuf + Encode(ItemFrame(i));
  }

  /** The frame is sound for the session and its acknowledgements are already in the output. */
  ghost predicate Deliverable(src: Log, sid: nat, l: SessionLog, x: Outbound) {
    && x.sid == sid && x.meta.src in src && FrameFits(l, x) && SourceFits(src[x.meta.src], x.meta) && !x.meta.retried
    && AckedIn(l.stream, AuthAck) && (x.meta.published ==> AckedIn(l.stream, SubAck(x.meta.cmd)))
  }

  lemma AppendedStream(src: Log, sid: nat, l: SessionLog, i: Item)
    requires StreamOk(src, sid, l) && (i.BizItem? ==> Deliverable(src, sid, l, i.frame))
    ensures StreamOk(src, sid, l.(stream := l.stream + [i]))
  {
    hide FrameFits, SourceFits, AckedIn;
    var l' := l.(stream := l.stream + [i]);
    LogGrowsRefl(src);
    forall j | 0 <= j < |l'.stream|
      ensures ItemOk(src, sid, l', j)
    {
      if j < |l.stream| {
        ItemOkGrows(src, src, sid, l, l', j);
      } else {
        assert l'.stream[..j] == l.stream;
        if i.BizItem? {
          FrameFitsGrows(l, l', i.frame);
        }
      }
    }
  }

  lemma AckedGrows(st: seq<Item>, i: Item, a: Ack)
    requires AckedIn(st, a) || (i.AckItem? && i.ack == a)
    ensures AckedIn(st + [i], a)
  {
    if AckedIn(st, a) {
      var k :| 0 <= k < |st| && st[k].AckItem? && st[k].ack == a;
      assert (st + [i])[k] == st[k];
    } else {
      assert (st + [i])[|st|] == i;
    }
  }

  lemma AppendKeeps(c: Config, src: Log, s: Plane, r: nat, sid: nat, i: Item)
    requires PlaneInv(c, src, s) && Has(s, r, sid)
    requires s.reactors[r].pc.Idle? || (i.AckItem? && s.reactors[r].pc == Acking(sid, i.ack))
    requires i.BizItem? ==> Deliverable(src, sid, s.log[sid], i.frame)
    ensures PlaneInv(c, src, AppendItem(s, r, sid, i, Encode(ItemFrame(i))))
    ensures LogGrows(s.log, AppendItem(s, r, sid, i, Encode(ItemFrame(i))).log)
  {
    hide PlaneInv, LogOk, SessionOk, StreamOk, TablesOk, AckedIn, Encode;
    var x, l := s.reactors[r].sessions[sid], s.log[sid];
    var x', l' := x.(outbuf := x.outbuf + Encode(ItemFrame(i))), l.(stream := l.stream + [i]);
    Holds(c, src, s, r, sid);
    PlaneTables(c, src, s);
    AppendedSession(c, l, x, i);
    AppendedStream(src, sid, l, i);
    forall a | a in l'.granted
      ensures AckedIn(l'.stream, a)
    {
      AckedGrows(l.stream, i, a);
    }
    UpdateGrows(s, r, sid, x', l', Idle);
    TablesOkGrow(s.log, s.log[sid := l'], s.tables);
    assert s.(tables := s.tables) == s;
    UpdateKeeps(c, src, s, s.tables, r, sid, x', l', Idle);
  }

  lemma AckAppendKeeps(c: Config, src: Log, s: Plane, r: nat)
    requires PlaneInv(c, src, s) && CanAckAppend(s, r)
    ensures PlaneInv(c, src, AckAppend(s, r)) && LogGrows(s.log, AckAppend(s, r).log)
  {
    hide PlaneInv, LogGrows, Encode;
    var sid := s.reactors[r].pc.sid;
    AppendKeeps(c, src, s, r, sid, AckItem(s.reactors[r].pc.ack, s.reactors[r].sessions[sid].nid));
  }

  // ---------- draining the send queue ----------

  lemma FramesTail(src: Log, dst: Log, q: seq<Outbound>)
    requires FramesOk(src, dst, q) && q != []
    ensures FrameOk(src, dst, q[0]) && FramesOk(src, dst, q[1..])
  {
    hide FrameOk;
  }

  lemma SendQTail(c: Config, src: Log, dst: Log, e: Egress, r: nat)
    requires EgressOk(c, src, dst, e) && r < |e.sendQ| && e.sendQ[r] != []
    ensures EgressOk(c, src, dst, e.(sendQ := e.sendQ[r := e.sendQ[r][1..]]))
    ensures FrameOk(src, dst, e.sendQ[r][0]) && e.sendQ[r][0].reactor == r
  {
    hide FrameOk, FramesOk, DropOk;
    assert SendQOk(src, dst, r, e.sendQ[r]);
    FramesTail(src, dst, e.sendQ[r]);
  }

  lemma DropKeeps(c: Config, src: Log, dst: Log, e: Egress, d: Drop)
    requires EgressOk(c, src, dst, e) && DropOk(src, dst, d)
    ensures EgressOk(c, src, dst, e.(dropped := e.dropped + [d]))
  {
    hide FrameOk, FramesOk, DropOk, SendQOk;
  }

  lemma WithEgress(c: Config, src: Log, s: Plane, e: Egress)
    requires PlaneInv(c, src, s) && EgressOk(c, src, s.log, e)
    ensures PlaneInv(c, src, s.(egress := e))
  {
    hide LogsOk, FdsOk, ReactorsOk, ConnsOk, GrantsOk, LiveOk, TablesOk, EgressOk;
  }

  /** A frame whose session the reactor no longer holds belongs to a closed session. */
  lemma GoneIsClosed(c: Config, src: Log, s: Plane, r: nat, x: Outbound)
    requires PlaneInv(c, src, s) && FrameOk(src, s.log, x) && x.reactor == r && r < |s.reactors| && !Has(s, r, x.sid)
    ensures s.log[x.sid].closed
  {
    hide LogsOk, FdsOk, ReactorsOk, ConnsOk, GrantsOk, TablesOk, EgressOk;
  }

  /** A frame for a session the idle reactor holds comes after its acknowledgements. */
  lemma DrainedDeliverable(c: Config, src: Log, s: Plane, r: nat, x: Outbound)
    requires PlaneInv(c, src, s) && FrameOk(src, s.log, x) && x.reactor == r && IsIdle(s, r) && Has(s, r, x.sid)
    requires x.bytes != []
    ensures Deliverable(src, x.sid, s.log[x.sid], x) && x.bytes == Encode(ItemFrame(BizItem(x)))
  {
    hide PlaneInv, AckedIn;
    Holds(c, src, s, r, x.sid);
    GrantsWhenIdle(s.reactors, x.sid, s.log[x.sid]);
  }

  lemma EgressPart(c: Config, src: Log, s: Plane)
    requires PlaneInv(c, src, s)
    ensures EgressOk(c, src, s.log, s.egress) && |s.reactors| == |s.egress.sendQ|
  {
    hide LogsOk, FdsOk, ReactorsOk, ConnsOk, GrantsOk, LiveOk, TablesOk;
  }

  lemma GoneDropOk(c: Config, src: Log, s: Plane, r: nat, x: Outbound)
    requires PlaneInv(c, src, s) && FrameOk(src, s.log, x) && x.reactor == r && r < |s.reactors| && !Has(s, r, x.sid)
    ensures DropOk(src, s.log, Drop(x, SessionGone))
  {
    hide PlaneInv, FrameFits, SourceFits;
    GoneIsClosed(c, src, s, r, x);
  }

  lemma EmptyDropOk(src: Log, dst: Log, x: Outbound)
    requires FrameOk(src, dst, x) && x.bytes == []
    ensures DropOk(src, dst, Drop(x, Emptied))
  {
    hide SourceFits;
  }

  lemma DrainKeeps(c: Config, src: Log, s: Plane, r: nat)
    requires PlaneInv(c, src, s) && CanDrain(s, r)
    ensures PlaneInv(c, src, Drain(s, r)) && LogGrows(s.log, Drain(s, r).log)
  {
    hide PlaneInv, EgressOk, FrameOk, DropOk, Deliverable, LogGrows, Encode;
    var e, x := s.egress, s.egress.sendQ[r][0];
    var e' := e.(sendQ := e.sendQ[r := e.sendQ[r][1..]]);
    EgressPart(c, src, s);
    SendQTail(c, src, s.log, e, r);
    LogGrowsRefl(s.log);
    if !Has(s, r, x.sid) {
      GoneDropOk(c, src, s, r, x);
      DropKeeps(c, src, s.log, e', Drop(x, SessionGone));
      WithEgress(c, src, s, e'.(dropped := e.dropped + [Drop(x, SessionGone)]));
    } else if x.bytes == [] {
      EmptyDropOk(src, s.log, x);
      DropKeeps(c, src, s.log, e', Drop(x, Emptied));
      WithEgress(c, src, s, e'.(dropped := e.dropped + [Drop(x, Emptied)]));
    } else {
      WithEgress(c, src, s, e');
      DrainedDeliverable(c, src, s, r, x);
      AppendKeeps(c, src, s.(egress := e'), r, x.sid, BizItem(x));
    }
  }

  // ---------- distributor ----------

  lemma DistPopKeeps(c: Config, src: Log, dst: Log, e: Egress)
    requires EgressOk(c, src, dst, e) && CanDistPop(e)
    ensures EgressOk(c, src, dst, DistPop(e))
  {
    hide FrameOk, DropOk, SendQOk, FramesOk;
    FramesTail(src, dst, e.distQ);
  }

  lemma AfterRetriesOk(src: Log, dst: Log, x: Outbound, attempt: nat)
    requires FrameOk(src, dst, x)
    ensures FrameOk(src, dst, AfterRetries(x, attempt))
  {
  }

  lemma DistPushKeeps(c: Config, src: Log, dst: Log, e: Egress)
    requires EgressOk(c, src, dst, e) && CanDistPush(e)
    requires forall sid :: sid in dst ==> 0 <= dst[sid].reactor
    ensures EgressOk(c, src, dst, DistPush(c, e))
  {
    hide DropOk, SendQOk, FramesOk;
    var x, n := e.hand.value.frame, e.hand.value.attempt;
    assert 0 <= x.reactor;
    AfterRetriesOk(src, dst, x, n);
    hide FrameOk;
    match TryPush(|e.sendQ[x.reactor]|, c.capacity, n)
    case Pushed => SendQSnoc(src, dst, x.reactor, e.sendQ[x.reactor], AfterRetries(x, n));
    case Retry =>
    case GiveUp =>
      assert DropOk(src, dst, Drop(x, SendQueueFull)) by {
        FullDropOk(src, dst, x);
      }
      DropKeeps(c, src, dst, e.(hand := None), Drop(x, SendQueueFull));
  }

  lemma FullDropOk(src: Log, dst: Log, x: Outbound)
    requires FrameOk(src, dst, x)
    ensures DropOk(src, dst, Drop(x, SendQueueFull))
  {
  }

  lemma SendQSnoc(src: Log, dst: Log, r: nat, q: seq<Outbound>, x: Outbound)
    requires SendQOk(src, dst, r, q) && FrameOk(src, dst, x) && x.reactor == r
    ensures SendQOk(src, dst, r, q + [x])
  {
    hide FrameOk;
  }

  // ---------- closing a session ----------

  lemma CloseGrows(s: Plane, r: nat, sid: nat)
    requires Has(s, r, sid)
    ensures LogGrows(s.log, Close(s, r, sid).log)
  {
  }

  lemma NoEntryBeforeLogin(log: Log, t: Tables, sid: nat)
    requires TablesOk(log, t) && sid in log && log[sid].auths == []
    ensures TablesOk(log[sid := log[sid].(closed := true)], t)
  {
    var log' := log[sid := log[sid].(closed := true)];
    forall cmd | cmd in t.subs
      ensures ListOk(log', cmd, t.subs[cmd])
    {
      assert ListOk(log, cmd, t.subs[cmd]);
    }
    forall nid | nid in t.nids
      ensures RouteOk(log', nid, t.nids[nid])
    {
      assert RouteOk(log, nid, t.nids[nid]);
    }
  }

  lemma ListForgets(log: Log, cmd: U32, list: seq<Subscriber>, sid: nat)
    requires ListOk(log, cmd, list) && sid in log
    ensures ListOk(log[sid := log[sid].(closed := true)], cmd, Without(list, sid))
  {
    WithoutKeepsList(log, cmd, list, sid);
  }

  /** Removing a session by its latest node id leaves no entry that should not be there. */
  lemma RemoveKeepsTables(log: Log, t: Tables, sid: nat, nid: U32)
    requires TablesOk(log, t) && sid in log && log[sid].auths != [] && log[sid].auths[|log[sid].auths| - 1].nid == nid
    ensures TablesOk(log[sid := log[sid].(closed := true)], RemoveSession(t, sid, nid))
  {
    var log' := log[sid := log[sid].(closed := true)];
    var t' := RemoveSession(t, sid, nid);
    forall cmd | cmd in t'.subs
      ensures ListOk(log', cmd, t'.subs[cmd])
    {
      ListForgets(log, cmd, t.subs[cmd], sid);
    }
    forall n | n in t'.nids
      ensures RouteOk(log', n, t'.nids[n])
    {
      assert RouteOk(log, n, t.nids[n]);
    }
  }

  lemma CloseTables(c: Config, src: Log, s: Plane, r: nat, sid: nat)
    requires PlaneInv(c, src, s) && Has(s, r, sid)
    ensures TablesOk(Close(s, r, sid).log, Close(s, r, sid).tables)
  {
    hide PlaneInv, TablesOk, RemoveSession;
    Holds(c, src, s, r, sid);
    PlaneTables(c, src, s);
    if s.reactors[r].sessions[sid].authed {
      RemoveKeepsTables(s.log, s.tables, sid, s.reactors[r].sessions[sid].nid);
    } else {
      NoEntryBeforeLogin(s.log, s.tables, sid);
    }
  }

  lemma ForgetReactor(c: Config, log: Log, r: nat, R: Reactor, sid: nat, l: SessionLog)
    requires ReactorOk(c, log, r, R) && sid in R.sessions && R.pc.Idle?
    ensures ReactorOk(c, log[sid := l], r,
                      R.(sessions := R.sessions - {sid}, fdToSid := R.fdToSid - {R.sessions[sid].fd}))
  {
    hide SessionOk;
    var R' := R.(sessions := R.sessions - {sid}, fdToSid := R.fdToSid - {R.sessions[sid].fd});
    forall id | id in R'.sessions
      ensures HeldOk(log[sid := l], r, id, R'.sessions[id])
    {
      assert HeldOk(log, r, id, R.sessions[id]);
    }
  }

  lemma CloseReactors(c: Config, src: Log, s: Plane, r: nat, sid: nat)
    requires PlaneInv(c, src, s) && IsIdle(s, r) && Has(s, r, sid)
    ensures ReactorsOk(c, Close(s, r, sid).log, Close(s, r, sid).reactors)
  {
    hide PlaneInv, ReactorOk, RemoveSession;
    var s' := Close(s, r, sid);
    Holds(c, src, s, r, sid);
    ForgetReactor(c, s.log, r, s.reactors[r], sid, s'.log[sid]);
    forall k | 0 <= k < |s.reactors| && k != r
      ensures ReactorOk(c, s'.log, k, s'.reactors[k])
    {
      OtherReactor(c, src, s, r, sid, s'.log[sid], k);
    }
  }

  lemma ClosedLogOk(c: Config, l: SessionLog)
    requires LogOk(c, l)
    ensures LogOk(c, l.(closed := true))
  {
  }

  lemma CloseLogs(c: Config, src: Log, s: Plane, r: nat, sid: nat)
    requires PlaneInv(c, src, s) && IsIdle(s, r) && Has(s, r, sid)
    ensures var s' := Close(s, r, sid);
            && LogsOk(c, src, s'.log, s.nextSid) && FdsOk(s'.log)
            && GrantsOk(s'.log, s'.reactors) && LiveOk(s'.log, s'.reactors)
  {
    hide StreamOk, LogOk, SessionOk, ReactorsOk, ConnsOk, TablesOk, EgressOk, AckedIn, RemoveSession;
    var s' := Close(s, r, sid);
    ClosedLogOk(c, s.log[sid]);
    LogGrowsRefl(src);
    StreamOkGrows(src, src, sid, s.log[sid], s'.log[sid]);
    forall id | id in s'.log
      ensures GrantOk(s'.reactors, id, s'.log[id])
    {
      assert GrantOk(s.reactors, id, s.log[id]);
    }
  }

  lemma CloseKeeps(c: Config, src: Log, s: Plane, r: nat, sid: nat)
    requires PlaneInv(c, src, s) && IsIdle(s, r) && Has(s, r, sid)
    ensures PlaneInv(c, src, Close(s, r, sid)) && LogGrows(s.log, Close(s, r, sid).log)
  {
    hide LogsOk, FdsOk, ReactorsOk, ConnsOk, GrantsOk, LiveOk, TablesOk, EgressOk, RemoveSession;
    var s' := Close(s, r, sid);
    Holds(c, src, s, r, sid);
    CloseGrows(s, r, sid);
    CloseTables(c, src, s, r, sid);
    CloseReactors(c, src, s, r, sid);
    CloseLogs(c, src, s, r, sid);
    ConnsStay(s.log, s.reactors, s.connQ, s.listener, r, s'.reactors[r], sid, s'.log[sid]);
    LogGrowsRefl(src);
    EgressOkGrows(c, src, src, s.log, s'.log, s.egress);
  }

  // ---------- handling a frame ----------

  lemma KickKeeps(c: Config, src: Log, s: Plane, r: nat, sid: nat, f: Frame, rest: seq<Byte>)
    requires PlaneInv(c, src, s) && IsIdle(s, r) && Has(s, r, sid)
             && Pop(s.reactors[r].sessions[sid].fb) == Got(f, rest)
    requires React(c, s.reactors[r].sessions[sid].authed, f).Kick?
    ensures PlaneInv(c, src, Perform(c, s, r, sid, f, rest))
    ensures LogGrows(s.log, Perform(c, s, r, sid, f, rest).log)
  {
    hide PlaneInv, Pop, React, GoodAuth, LogOk, SessionOk;
    var x, l := s.reactors[r].sessions[sid], s.log[sid];
    Holds(c, src, s, r, sid);
    ReactIsLogin(c, x.authed, f);
    PoppedSession(c, l, x, f, rest);
    var s1 := Update(s, r, sid, x.(fb := rest), l.(handled := l.handled + [f]), Idle);
    QuietUpdate(c, src, s, r, sid, x.(fb := rest), l.(handled := l.handled + [f]), Idle);
    CloseKeeps(c, src, s1, r, sid);
    LogGrowsTwice(s.log, s1.log, Close(s1, r, sid).log);
  }

  lemma LogGrowsTwice(a: Log, b: Log, d: Log)
    requires LogGrows(a, b) && LogGrows(b, d)
    ensures LogGrows(a, d)
  {
  }

  lemma HandleKeeps(c: Config, src: Log, s: Plane, r: nat, sid: nat)
    requires PlaneInv(c, src, s) && CanHandle(s, r, sid)
    ensures PlaneInv(c, src, Handle(c, s, r, sid)) && LogGrows(s.log, Handle(c, s, r, sid).log)
  {
    hide PlaneInv, Pop, React, LogGrows, Perform;
    match Pop(s.reactors[r].sessions[sid].fb)
    case Bad => GarbledKeeps(c, src, s, r, sid);
    case Got(f, rest) =>
      match React(c, s.reactors[r].sessions[sid].authed, f)
      case Login(_) => LoginKeeps(c, src, s, r, sid, f, rest);
      case Kick => KickKeeps(c, src, s, r, sid, f, rest);
      case Ignore => PerformQuiet(c, src, s, r, sid, f, rest);
      case Relay => PerformQuiet(c, src, s, r, sid, f, rest);
      case Sub(_) => PerformGranting(c, src, s, r, sid, f, rest);
      case Unsub(_) => PerformGranting(c, src, s, r, sid, f, rest);
      case Keepalive => PerformGranting(c, src, s, r, sid, f, rest);
  }
}
