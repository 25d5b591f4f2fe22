/** Every action keeps every pair's pipe in order and every enqueued frame accounted for. */
module HubFlowSteps {
  import opened Bytes
  import opened Wire
  import opened Routing
  import opened HubModel
  import opened HubInvariant
  import opened HubPlaneSteps
  import opened HubConnSteps
  import opened HubFlow

  // ---------- destination side: actions that leave the outputs alone ----------

  ghost predicate SameOutputs(log: Log, log': Log) {
    && log'.Keys == log.Keys
    && forall D :: D in log ==> log'[D].stream == log[D].stream && log'[D].reactor == log[D].reactor
  }

  lemma QuietSettled(s: Plane, t: Plane, S: nat, D: nat)
    requires t.egress == s.egress && SameOutputs(s.log, t.log)
    ensures Settled(s, t, S, D)
  {
    hide Settled;
    Untouched(s, t, S, D);
  }

  lemma UpdateOutputs(s: Plane, r: nat, sid: nat, x: Session, l: SessionLog, pc: ReactorPc)
    requires Has(s, r, sid) && l.stream == s.log[sid].stream && l.reactor == s.log[sid].reactor
    ensures var t := Update(s, r, sid, x, l, pc); t.egress == s.egress && SameOutputs(s.log, t.log) && Has(t, r, sid)
  {
  }

  lemma CloseOutputs(s: Plane, r: nat, sid: nat)
    requires Has(s, r, sid)
    ensures Close(s, r, sid).egress == s.egress && SameOutputs(s.log, Close(s, r, sid).log)
  {
    hide RemoveSession;
  }

  lemma PerformOutputs(c: Config, s: Plane, r: nat, sid: nat, f: Frame, rest: seq<Byte>)
    requires Has(s, r, sid)
    ensures var t := Perform(c, s, r, sid, f, rest); t.egress == s.egress && SameOutputs(s.log, t.log)
  {
    hide React, Subscribe, Unsubscribe, BindNid, Update, Close, SameOutputs;
    var x := s.reactors[r].sessions[sid].(fb := rest);
    var l := s.log[sid].(handled := s.log[sid].handled + [f]);
    match React(c, x.authed, f)
    case Login(who) =>
      UpdateOutputs(s.(tables := BindNid(s.tables, who.nid, sid, r)), r, sid,
                    x.(authed := true, gid := who.gid, nid := who.nid),
                    l.(auths := l.auths + [who], granted := l.granted + {AuthAck}), Acking(sid, AuthAck));
    case Sub(cmd) =>
      UpdateOutputs(s.(tables := Subscribe(s.tables, cmd, Subscriber(x.gid, sid, x.nid, r))), r, sid, x,
                    l.(granted := l.granted + {SubAck(cmd)}), Acking(sid, SubAck(cmd)));
    case Unsub(cmd) =>
      UpdateOutputs(s.(tables := Unsubscribe(s.tables, cmd, sid)), r, sid, x,
                    l.(granted := l.granted + {UnsubAck(cmd)}), Acking(sid, UnsubAck(cmd)));
    case Keepalive =>
      UpdateOutputs(s, r, sid, x, l.(granted := l.granted + {KpaliveAck}), Acking(sid, KpaliveAck));
    case Ignore => UpdateOutputs(s, r, sid, x, l, Idle);
    case Kick =>
      UpdateOutputs(s, r, sid, x, l, Idle);
      CloseOutputs(Update(s, r, sid, x, l, Idle), r, sid);
      SameOutputsTwice(s.log, Update(s, r, sid, x, l, Idle).log, Perform(c, s, r, sid, f, rest).log);
    case Relay =>
      var m := Inbound(sid, r, x.gid, x.nid, f.typ, f.flag, f.payload, |l.handled| - 1, false);
      UpdateOutputs(s, r, sid, x, l, Pushing(m, 0));
  }

  lemma SameOutputsTwice(a: Log, b: Log, d: Log)
    requires SameOutputs(a, b) && SameOutputs(b, d)
    ensures SameOutputs(a, d)
  {
  }

  lemma NoFramesBefore(c: Config, src: Log, s: Plane, S: nat, D: nat)
    requires PlaneInv(c, src, s) && D !in s.log
    ensures Proj(s.egress.distQ, S, D) == [] && HandProj(s.egress.hand, S, D) == []
    ensures forall r :: 0 <= r < |s.egress.sendQ| ==> Proj(s.egress.sendQ[r], S, D) == []
  {
    hide LogsOk, FdsOk, ReactorsOk, ConnsOk, GrantsOk, LiveOk, TablesOk, FrameFits, SourceFits, DropOk;
    ProjAbsent(s.egress.distQ, S, D);
    forall r | 0 <= r < |s.egress.sendQ|
      ensures Proj(s.egress.sendQ[r], S, D) == []
    {
      assert SendQOk(src, s.log, r, s.egress.sendQ[r]);
      ProjAbsent(s.egress.sendQ[r], S, D);
    }
  }

  lemma SameOut(s: Plane, t: Plane, S: nat, D: nat)
    requires t.egress.enqueued == s.egress.enqueued && t.egress.dropped == s.egress.dropped
    requires Out(t, S, D) == Out(s, S, D)
    ensures Settled(s, t, S, D)
  {
    hide Out, Drops;
  }

  lemma AcceptSettled(c: Config, src: Log, s: Plane, fd: int, r: nat, S: nat, D: nat)
    requires PlaneInv(c, src, s) && CanAccept(c, s, fd, r)
    ensures Settled(s, Accept(s, fd, r), S, D)
  {
    hide PlaneInv, Settled, Proj, HandProj, Out, LogGrows;
    AcceptGrows(c, src, s, fd, r);
    if D == s.nextSid {
      NoFramesBefore(c, src, s, S, D);
      NewDestination(s, fd, r, S, D);
      SameOut(s, Accept(s, fd, r), S, D);
    } else {
      Untouched(s, Accept(s, fd, r), S, D);
    }
  }

  lemma NewDestination(s: Plane, fd: int, r: nat, S: nat, D: nat)
    requires D == s.nextSid && D !in s.log
    requires Proj(s.egress.distQ, S, D) == [] && HandProj(s.egress.hand, S, D) == []
    requires forall k :: 0 <= k < |s.egress.sendQ| ==> Proj(s.egress.sendQ[k], S, D) == []
    ensures Out(Accept(s, fd, r), S, D) == Out(s, S, D)
  {
    hide HandProj;
    assert Proj(QueueOf(s.log, s.egress, D), S, D) == [];
    assert Proj(QueueOf(Accept(s, fd, r).log, s.egress, D), S, D) == [];
  }

  // ---------- destination side: moving frames ----------

  lemma AckSettled(s: Plane, r: nat, S: nat, D: nat)
    requires CanAckAppend(s, r)
    ensures Settled(s, AckAppend(s, r), S, D)
  {
    var sid, t := s.reactors[r].pc.sid, AckAppend(s, r);
    DeliveredSnoc(s.log[sid].stream, AckItem(s.reactors[r].pc.ack, s.reactors[r].sessions[sid].nid), S, D);
    assert QueueOf(t.log, t.egress, D) == QueueOf(s.log, s.egress, D);
    hide Proj, HandProj, Drops, Encode, QueueOf, Settled;
    assert Delivered(StreamOf(t.log, D), S, D) == Delivered(StreamOf(s.log, D), S, D);
    SameOut(s, t, S, D);
  }

  /** A frame `one` moving up from the head of a stage to the tail of the stage before it. */
  lemma MoveUp(d: seq<nat>, one: seq<nat>, q: seq<nat>)
    ensures d + one + q == d + (one + q)
  {
  }

  lemma DistPopSettled(s: Plane, S: nat, D: nat)
    requires CanDistPop(s.egress)
    ensures Settled(s, s.(egress := DistPop(s.egress)), S, D)
  {
    var q, t := s.egress.distQ, s.(egress := DistPop(s.egress));
    var d := Delivered(StreamOf(s.log, D), S, D) + Proj(QueueOf(s.log, s.egress, D), S, D);
    assert Proj(q, S, D) == One(q[0], S, D) + Proj(q[1..], S, D);
    hide Delivered, Drops, Proj, Settled;
    MoveUp(d, One(q[0], S, D), Proj(q[1..], S, D));
    assert d + [] + Proj(q, S, D) == d + Proj(q, S, D);
    SameOut(s, t, S, D);
  }

  /** Dropping the frame between `a` and `b` from the pipe. */
  lemma DropSettled(s: Plane, t: Plane, S: nat, D: nat, a: seq<nat>, x: Outbound, b: seq<nat>, why: Why)
    requires t.egress.enqueued == s.egress.enqueued && t.egress.dropped == s.egress.dropped + [Drop(x, why)]
    requires Out(s, S, D) == a + One(x, S, D) + b && Out(t, S, D) == a + b
    ensures Settled(s, t, S, D)
  {
    hide Out;
    DropsSnoc(s.egress.dropped, Drop(x, why), S, D);
    if One(x, S, D) == [] {
      assert a + [] + b == a + b;
    } else {
      var p := a + One(x, S, D) + b;
      assert p[..|a|] == a && p[|a| + 1..] == b;
      assert LostAt(s, t, S, D, |a|);
    }
  }

  /** The distributor's frame entering the owner's send queue. */
  lemma QueueGrows(s: Plane, x: Outbound, y: Outbound, S: nat, D: nat)
    requires x.sid in s.log && x.reactor == s.log[x.sid].reactor && 0 <= x.reactor < |s.egress.sendQ|
    requires y.sid == x.sid && y.meta.src == x.meta.src && y.meta.frameNo == x.meta.frameNo
    ensures var e := s.egress;
            Proj(QueueOf(s.log, e.(hand := None, sendQ := e.sendQ[x.reactor := e.sendQ[x.reactor] + [y]]), D), S, D)
            == Proj(QueueOf(s.log, e, D), S, D) + One(x, S, D)
  {
    ProjSnoc(s.egress.sendQ[x.reactor], y, S, D);
  }

  lemma DistPushSettled(c: Config, src: Log, s: Plane, S: nat, D: nat)
    requires PlaneInv(c, src, s) && CanDistPush(s.egress)
    ensures Settled(s, s.(egress := DistPush(c, s.egress)), S, D)
  {
    hide PlaneInv, Settled, Out, AfterRetries, One;
    HandFits(c, src, s);
    var e, x, n := s.egress, s.egress.hand.value.frame, s.egress.hand.value.attempt;
    var t := s.(egress := DistPush(c, e));
    match TryPush(|e.sendQ[x.reactor]|, c.capacity, n)
    case Pushed => PushedSettled(s, AfterRetries(x, n), S, D) by { SameFrame(x, n); }
    case Retry =>
      RetryOut(s, e.(hand := Some(Held(x, n + 1))), S, D);
      SameOut(s, t, S, D);
    case GiveUp => FullOut(s, t, S, D);
  }

  lemma SameFrame(x: Outbound, attempt: nat)
    ensures var y := AfterRetries(x, attempt);
            y.sid == x.sid && y.meta.src == x.meta.src && y.meta.frameNo == x.meta.frameNo
  {
  }

  lemma PushedSettled(s: Plane, y: Outbound, S: nat, D: nat)
    requires s.egress.hand.Some?
    requires var x := s.egress.hand.value.frame;
             && x.sid in s.log && x.reactor == s.log[x.sid].reactor && 0 <= x.reactor < |s.egress.sendQ|
             && y.sid == x.sid && y.meta.src == x.meta.src && y.meta.frameNo == x.meta.frameNo
    ensures var e, r := s.egress, s.egress.hand.value.frame.reactor;
            Settled(s, s.(egress := e.(hand := None, sendQ := e.sendQ[r := e.sendQ[r] + [y]])), S, D)
  {
    hide Settled, Out, Proj, QueueOf, One;
    var e, x := s.egress, s.egress.hand.value.frame;
    var e' := e.(hand := None, sendQ := e.sendQ[x.reactor := e.sendQ[x.reactor] + [y]]);
    QueueGrows(s, x, y, S, D);
    PushedOut(s, e', S, D);
    SameOut(s, s.(egress := e'), S, D);
  }

  lemma PushedOut(s: Plane, e: Egress, S: nat, D: nat)
    requires s.egress.hand.Some? && e.hand.None? && e.distQ == s.egress.distQ
    requires Proj(QueueOf(s.log, e, D), S, D)
             == Proj(QueueOf(s.log, s.egress, D), S, D) + One(s.egress.hand.value.frame, S, D)
    ensures Out(s.(egress := e), S, D) == Out(s, S, D)
  {
    hide Delivered, Proj, QueueOf;
    var d, q := Delivered(StreamOf(s.log, D), S, D), Proj(QueueOf(s.log, s.egress, D), S, D);
    var one := One(s.egress.hand.value.frame, S, D);
    MoveUp(d, q, one);
    assert d + (q + one) + [] == d + (q + one);
  }

  lemma RetryOut(s: Plane, e: Egress, S: nat, D: nat)
    requires e.distQ == s.egress.distQ && e.sendQ == s.egress.sendQ
    requires HandProj(e.hand, S, D) == HandProj(s.egress.hand, S, D)
    ensures Out(s.(egress := e), S, D) == Out(s, S, D)
  {
    hide Delivered, Proj, HandProj;
  }

  lemma FullOut(s: Plane, t: Plane, S: nat, D: nat)
    requires s.egress.hand.Some?
    requires var e := s.egress;
             t == s.(egress := e.(hand := None, dropped := e.dropped + [Drop(e.hand.value.frame, SendQueueFull)]))
    ensures Settled(s, t, S, D)
  {
    hide Delivered, Proj, Settled;
    var x := s.egress.hand.value.frame;
    var a := Delivered(StreamOf(s.log, D), S, D) + Proj(QueueOf(s.log, s.egress, D), S, D);
    var b := Proj(s.egress.distQ, S, D);
    QueueOfDropped(s.log, s.egress, t.egress, D);
    hide QueueOf;
    assert a + [] + b == a + b;
    DropSettled(s, t, S, D, a, x, b, SendQueueFull);
  }

  lemma HandFits(c: Config, src: Log, s: Plane)
    requires PlaneInv(c, src, s) && s.egress.hand.Some?
    ensures var x := s.egress.hand.value.frame;
            x.sid in s.log && x.reactor == s.log[x.sid].reactor && 0 <= x.reactor < |s.egress.sendQ|
  {
    hide FdsOk, ReactorsOk, ConnsOk, GrantsOk, LiveOk, TablesOk, SourceFits, DropOk, StreamOk, FramesOk;
  }

  lemma SentFits(c: Config, src: Log, s: Plane, r: nat)
    requires PlaneInv(c, src, s) && CanDrain(s, r)
    ensures var x := s.egress.sendQ[r][0]; x.sid in s.log && s.log[x.sid].reactor == r
  {
    hide FdsOk, ReactorsOk, ConnsOk, GrantsOk, LiveOk, TablesOk, EgressOk, LogsOk;
    SendQTail(c, src, s.log, s.egress, r);
  }

  /** Popping the head of D's own queue, and of any other queue. */
  lemma QueuePop(s: Plane, r: nat, S: nat, D: nat)
    requires CanDrain(s, r) && s.egress.sendQ[r][0].sid in s.log && s.log[s.egress.sendQ[r][0].sid].reactor == r
    ensures var e, x := s.egress, s.egress.sendQ[r][0];
            var e' := e.(sendQ := e.sendQ[r := e.sendQ[r][1..]]);
            Proj(QueueOf(s.log, e, D), S, D) == One(x, S, D) + Proj(QueueOf(s.log, e', D), S, D)
  {
    var q, x := s.egress.sendQ[r], s.egress.sendQ[r][0];
    assert Proj(q, S, D) == One(x, S, D) + Proj(q[1..], S, D);
    if D != x.sid {
      assert One(x, S, D) == [];
    }
  }

  lemma DrainSettled(c: Config, src: Log, s: Plane, r: nat, S: nat, D: nat)
    requires PlaneInv(c, src, s) && CanDrain(s, r)
    ensures Settled(s, Drain(s, r), S, D)
  {
    SentFits(c, src, s, r);
    QueuePop(s, r, S, D);
    var x := s.egress.sendQ[r][0];
    hide PlaneInv, Settled, Drain;
    if Has(s, r, x.sid) && x.bytes != [] {
      DrainDelivers(s, r, S, D);
    } else {
      DrainDrops(s, r, S, D);
    }
  }

  lemma DrainDrops(s: Plane, r: nat, S: nat, D: nat)
    requires CanDrain(s, r) && !(Has(s, r, s.egress.sendQ[r][0].sid) && s.egress.sendQ[r][0].bytes != [])
    requires s.egress.sendQ[r][0].sid in s.log && s.log[s.egress.sendQ[r][0].sid].reactor == r
    ensures Settled(s, Drain(s, r), S, D)
  {
    QueuePop(s, r, S, D);
    var e, x, t := s.egress, s.egress.sendQ[r][0], Drain(s, r);
    var e' := e.(sendQ := e.sendQ[r := e.sendQ[r][1..]]);
    QueueOfDropped(s.log, e', t.egress, D);
    hide Proj, HandProj, Drops, QueueOf, Delivered, Settled;
    var d, q := Delivered(StreamOf(s.log, D), S, D), Proj(QueueOf(s.log, e', D), S, D);
    var h, b := HandProj(e.hand, S, D), Proj(e.distQ, S, D);
    hide Out;
    Regroup(d, One(x, S, D), q, h, b);
    assert Out(s, S, D) == d + (One(x, S, D) + q) + h + b by {
      OutIs(s, S, D);
    }
    assert Out(t, S, D) == d + q + h + b by {
      OutIs(t, S, D);
    }
    DropSettled(s, t, S, D, d, x, q + h + b, if Has(s, r, x.sid) then Emptied else SessionGone);
  }

  lemma Regroup(d: seq<nat>, one: seq<nat>, q: seq<nat>, h: seq<nat>, b: seq<nat>)
    ensures d + (one + q) + h + b == d + one + (q + h + b)
    ensures d + q + h + b == d + (q + h + b)
  {
  }

  lemma OutIs(s: Plane, S: nat, D: nat)
    ensures Out(s, S, D) == Delivered(StreamOf(s.log, D), S, D) + Proj(QueueOf(s.log, s.egress, D), S, D)
                            + HandProj(s.egress.hand, S, D) + Proj(s.egress.distQ, S, D)
  {
  }

  lemma QueueOfDropped(log: Log, e: Egress, e': Egress, D: nat)
    requires e'.sendQ == e.sendQ
    ensures QueueOf(log, e', D) == QueueOf(log, e, D)
  {
  }

  lemma DrainDelivers(s: Plane, r: nat, S: nat, D: nat)
    requires CanDrain(s, r) && Has(s, r, s.egress.sendQ[r][0].sid) && s.egress.sendQ[r][0].bytes != []
    requires s.log[s.egress.sendQ[r][0].sid].reactor == r
    ensures Settled(s, Drain(s, r), S, D)
  {
    var e, x, t := s.egress, s.egress.sendQ[r][0], Drain(s, r);
    QueuePop(s, r, S, D);
    DeliveredSnoc(s.log[x.sid].stream, BizItem(x), S, D);
    hide Proj, HandProj, Drops, Settled;
    var d, q := Delivered(StreamOf(s.log, D), S, D), Proj(QueueOf(s.log, t.egress, D), S, D);
    assert Delivered(StreamOf(t.log, D), S, D) == d + One(x, S, D);
    assert QueueOf(t.log, t.egress, D) == QueueOf(s.log, t.egress, D);
    hide QueueOf, Delivered, StreamOf;
    MoveUp(d, One(x, S, D), q);
    SameOut(s, t, S, D);
  }

  /** Every plane action, seen from the destination. */
  lemma PlaneSettled(c: Config, src: Log, s: Plane, a: PlaneAction, S: nat, D: nat)
    requires PlaneInv(c, src, s) && PlaneEnabled(c, s, a)
    ensures Settled(s, PlaneStep(c, s, a), S, D)
  {
    hide PlaneInv, Settled, Perform, Pop, AckAppend, Drain, DistPop, DistPush, CanAccept, RemoveSession;
    match a
    case AAccept(fd, r) => AcceptSettled(c, src, s, fd, r, S, D);
    case AConnPush => QuietSettled(s, ConnPush(c, s), S, D);
    case AIntake(r) => QuietSettled(s, Intake(s, r), S, D);
    case AReceive(r, sid, chunk) => QuietSettled(s, Receive(s, r, sid, chunk), S, D);
    case AHandle(r, sid) =>
      var p := Pop(s.reactors[r].sessions[sid].fb);
      if p.Got? {
        PerformOutputs(c, s, r, sid, p.frame, p.rest);
      }
      QuietSettled(s, Handle(c, s, r, sid), S, D);
    case AAckAppend(r) => AckSettled(s, r, S, D);
    case ASendSome(r, sid, n) => QuietSettled(s, SendSome(s, r, sid, n), S, D);
    case AClose(r, sid) => QuietSettled(s, Close(s, r, sid), S, D);
    case ADrain(r) => DrainSettled(c, src, s, r, S, D);
    case ADistPop => DistPopSettled(s, S, D);
    case ADistPush => DistPushSettled(c, src, s, S, D);
  }
}
