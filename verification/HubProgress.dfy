/** Frames get through. Actions that take no new input cannot go on for ever, and they stop only
    when every queue is empty and every thread is free. */
module HubProgress {
  import opened Bytes
  import opened HubModel
  import opened HubInvariant
  import opened HubLink
  import opened HubFlow
  import opened HubTheorems

  /** Actions that only move on what is inside the hub. */
  predicate Internal(a: Action) {
    match a
    case OnPlane(_, p) => p.AAckAppend? || p.ADrain? || p.ADistPop? || p.ADistPush?
    case OnLink(_, _) => true
  }

  // ---------- how much is left to do ----------

  /** Compared from the first field on: an action makes one field smaller and only later ones larger. */
  datatype Work = Work(pushing: nat, inbox: nat, taken: nat, fan: nat, dist: nat, hand: nat, send: nat, acks: nat)

  predicate Less(a: Work, b: Work) {
    if a.pushing != b.pushing then a.pushing < b.pushing
    else if a.inbox != b.inbox then a.inbox < b.inbox
    else if a.taken != b.taken then a.taken < b.taken
    else if a.fan != b.fan then a.fan < b.fan
    else if a.dist != b.dist then a.dist < b.dist
    else if a.hand != b.hand then a.hand < b.hand
    else if a.send != b.send then a.send < b.send
    else a.acks < b.acks
  }

  function Plus(a: Work, b: Work): Work {
    Work(a.pushing + b.pushing, a.inbox + b.inbox, a.taken + b.taken, a.fan + b.fan, a.dist + b.dist, a.hand + b.hand,
         a.send + b.send, a.acks + b.acks)
  }

  function Total(ws: seq<nat>): nat {
    if ws == [] then 0 else Total(ws[..|ws| - 1]) + ws[|ws| - 1]
  }

  function AttemptsLeft(n: nat): nat {
    if n <= MAX_RETRIES then MAX_RETRIES - n else 0
  }

  function PushWork(R: Reactor): nat {
    if R.pc.Pushing? then 1 + AttemptsLeft(R.pc.attempt) else 0
  }

  function AckWork(R: Reactor): nat {
    if R.pc.Acking? then 1 else 0
  }

  function FanWork(k: WorkerPc): nat {
    if k.Fanout? && k.todo != [] then (|k.todo| - 1) * (MAX_RETRIES + 1) + 1 + AttemptsLeft(k.attempt) else 0
  }

  function TakenWork(k: WorkerPc): nat {
    if k.Taken? then 1 else 0
  }

  function HandWork(hand: Option<Held>): nat {
    match hand
    case None => 0
    case Some(x) => 1 + AttemptsLeft(x.attempt)
  }

  function Each<T>(xs: seq<T>, weight: T -> nat): (ws: seq<nat>)
    ensures |ws| == |xs| && forall i :: 0 <= i < |xs| ==> ws[i] == weight(xs[i])
  {
    seq(|xs|, i requires 0 <= i < |xs| => weight(xs[i]))
  }

  function Sum<T>(xs: seq<T>, weight: T -> nat): nat {
    Total(Each(xs, weight))
  }

  function Length<T>(q: seq<T>): nat {
    |q|
  }

  function PlaneWork(s: Plane): (w: Work)
    ensures w.inbox == w.taken == w.fan == 0
  {
    Work(Sum(s.reactors, PushWork), 0, 0, 0, |s.egress.distQ|, HandWork(s.egress.hand), Sum(s.egress.sendQ, Length),
         Sum(s.reactors, AckWork))
  }

  function LinkWork(k: Link): (w: Work)
    ensures w.pushing == w.dist == w.hand == w.send == w.acks == 0
  {
    Work(0, Sum(k.recvQ, Length), Sum(k.workers, TakenWork), Sum(k.workers, FanWork), 0, 0, 0, 0)
  }

  function HubWork(h: Hub): Work {
    Plus(Plus(PlaneWork(h.forward), PlaneWork(h.backend)), Plus(LinkWork(h.up), LinkWork(h.down)))
  }

  // ---------- every internal action makes it less ----------

  lemma {:induction false} TotalUpdate(ws: seq<nat>, i: nat, v: nat)
    requires i < |ws|
    ensures Total(ws[i := v]) + ws[i] == Total(ws) + v
  {
    var front, ws' := ws[..|ws| - 1], ws[i := v];
    if i == |ws| - 1 {
      assert ws'[..|ws'| - 1] == front;
    } else {
      assert ws'[..|ws'| - 1] == front[i := v];
      TotalUpdate(front, i, v);
    }
  }

  lemma SumUpdate<T>(xs: seq<T>, weight: T -> nat, i: nat, y: T)
    requires i < |xs|
    ensures Sum(xs[i := y], weight) + weight(xs[i]) == Sum(xs, weight) + weight(y)
  {
    hide Total, Each;
    assert Each(xs[i := y], weight) == Each(xs, weight)[i := weight(y)];
    TotalUpdate(Each(xs, weight), i, weight(y));
  }

  /** One reactor changed. */
  lemma ReactorWork(s: Plane, t: Plane, r: nat, R: Reactor)
    requires r < |s.reactors| && t.reactors == s.reactors[r := R]
    ensures PlaneWork(t).pushing + PushWork(s.reactors[r]) == PlaneWork(s).pushing + PushWork(R)
    ensures PlaneWork(t).acks + AckWork(s.reactors[r]) == PlaneWork(s).acks + AckWork(R)
  {
    hide Sum, PushWork, AckWork;
    SumUpdate(s.reactors, PushWork, r, R);
    SumUpdate(s.reactors, AckWork, r, R);
  }

  lemma AckLess(s: Plane, r: nat)
    requires CanAckAppend(s, r)
    ensures var a, b := PlaneWork(AckAppend(s, r)), PlaneWork(s); b.acks > 0 && a == b.(acks := b.acks - 1)
  {
    hide Sum;
    var t := AckAppend(s, r);
    ReactorWork(s, t, r, t.reactors[r]);
  }

  lemma DrainLess(s: Plane, r: nat)
    requires CanDrain(s, r)
    ensures var a, b := PlaneWork(Drain(s, r)), PlaneWork(s); b.send > 0 && a == b.(send := b.send - 1)
  {
    hide Sum;
    var e, t := s.egress, Drain(s, r);
    var q := e.sendQ[r];
    assert t.egress.sendQ == e.sendQ[r := q[1..]];
    SumUpdate(e.sendQ, Length, r, q[1..]);
    if t.reactors != s.reactors {
      ReactorWork(s, t, r, t.reactors[r]);
    }
  }

  lemma DistLess(c: Config, s: Plane, a: PlaneAction)
    requires PlaneEnabled(c, s, a) && (a.ADistPop? || a.ADistPush?)
    ensures var v, w := PlaneWork(PlaneStep(c, s, a)), PlaneWork(s);
            && v == w.(dist := v.dist, hand := v.hand, send := v.send)
            && (v.dist < w.dist || (v.dist == w.dist && v.hand < w.hand))
  {
    hide Sum;
  }

  lemma PlaneLess(c: Config, s: Plane, d: Dir, a: PlaneAction)
    requires PlaneEnabled(c, s, a) && Internal(OnPlane(d, a))
    ensures var v, w := PlaneWork(PlaneStep(c, s, a)), PlaneWork(s);
            && v == w.(dist := v.dist, hand := v.hand, send := v.send, acks := v.acks) && Less(v, w)
  {
    hide PlaneWork, AckAppend, Drain;
    match a
    case AAckAppend(r) => AckLess(s, r);
    case ADrain(r) => DrainLess(s, r);
    case ADistPop => DistLess(c, s, a);
    case ADistPush => DistLess(c, s, a);
  }

  /** One worker changed, and the queues with it. */
  lemma WorkerWork(k: Link, k': Link, w: nat, x: WorkerPc)
    requires w < |k.workers| && k'.workers == k.workers[w := x]
    ensures LinkWork(k').taken + TakenWork(k.workers[w]) == LinkWork(k).taken + TakenWork(x)
    ensures LinkWork(k').fan + FanWork(k.workers[w]) == LinkWork(k).fan + FanWork(x)
  {
    hide Sum, TakenWork, FanWork;
    SumUpdate(k.workers, TakenWork, w, x);
    SumUpdate(k.workers, FanWork, w, x);
  }

  lemma PopLess(k: Link, w: nat)
    requires CanWorkerPop(k, w)
    ensures var a, b := LinkWork(WorkerPop(k, w)), LinkWork(k); b.inbox > 0 && a.inbox == b.inbox - 1
  {
    hide Sum;
    SumUpdate(k.recvQ, Length, w, k.recvQ[w][1..]);
  }

  lemma LookupLess(k: Link, w: nat, dir: Dir, f: Flow)
    requires CanLookup(k, w)
    ensures var a, b := LinkWork(Lookup(dir, k, w, f.dst.tables)), LinkWork(k);
            a.inbox == b.inbox && b.taken > 0 && a.taken == b.taken - 1
  {
    hide Sum, Recipients;
    var k' := Lookup(dir, k, w, f.dst.tables);
    WorkerWork(k, k', w, k'.workers[w]);
  }

  lemma PushLess(c: Config, k: Link, w: nat, e: Egress)
    requires CanWorkerPush(k, w)
    ensures var a, b := LinkWork(WorkerPushLink(c, k, w, e)), LinkWork(k);
            a.inbox == b.inbox && a.taken == b.taken && a.fan < b.fan
  {
    hide Sum;
    var k' := WorkerPushLink(c, k, w, e);
    WorkerWork(k, k', w, k'.workers[w]);
    FanLess(k.workers[w], k'.workers[w]);
  }

  lemma FanLess(k: WorkerPc, k': WorkerPc)
    requires k.Fanout? && k.todo != []
    requires || k'.Free? || (k' == k.(todo := k.todo[1..], attempt := 0))
             || (k.attempt < MAX_RETRIES && k' == k.(attempt := k.attempt + 1))
    ensures FanWork(k') < FanWork(k)
  {
  }

  lemma RecvLess(c: Config, s: Plane, k: Link, r: nat)
    requires ValidConfig(c) && CanRecvPush(c, s, k, r)
    ensures var a, b := PlaneWork(RecvPushPlane(c, s, k, r)), PlaneWork(s);
            a == b.(pushing := a.pushing) && a.pushing < b.pushing
  {
    hide Sum, RecvPushLink, PickWorker;
    var t := RecvPushPlane(c, s, k, r);
    ReactorWork(s, t, r, t.reactors[r]);
  }

  /** An internal action leaves less to do, whatever the other threads and queues hold. So from no
      state can internal actions go on for ever. */
  lemma InternalLess(c: Config, h: Hub, a: Action)
    requires ValidConfig(c) && Enabled(c, h, a) && Internal(a)
    ensures Less(HubWork(Step(c, h, a)), HubWork(h))
  {
    hide PlaneWork, LinkWork, PlaneEnabled, PlaneStep, WorkerPop, Lookup, WorkerPushLink, WorkerPushEgress,
         RecvPushPlane,
         RecvPushLink;
    match a
    case OnPlane(d, p) => PlaneLess(c, PlaneAt(h, d), d, p);
    case OnLink(d, k) =>
      var f := FlowAt(h, d);
      match k {
        case ARecvPush(r) => RecvLess(c, f.src, f.link, r);
        case AWorkerPop(w) => PopLess(f.link, w);
        case ALookup(w) => LookupLess(f.link, w, d, f);
        case AWorkerPush(w) =>
          PushLess(c, f.link, w, f.dst.egress);
          EgressOnly(f.dst, WorkerPushEgress(c, f.link, w, f.dst.egress));
      }
  }

  lemma EgressOnly(s: Plane, e: Egress)
    ensures PlaneWork(s.(egress := e)).pushing == PlaneWork(s).pushing
  {
    hide Sum;
  }

  // ---------- only an empty hub stops ----------

  ghost predicate PlaneFlushed(s: Plane) {
    && (forall r :: 0 <= r < |s.reactors| ==> s.reactors[r].pc.Idle?)
    && s.egress.distQ == [] && s.egress.hand == None
    && (forall r :: 0 <= r < |s.egress.sendQ| ==> s.egress.sendQ[r] == [])
  }

  ghost predicate LinkFlushed(k: Link) {
    && (forall w :: 0 <= w < |k.workers| ==> k.workers[w].Free?)
    && (forall w :: 0 <= w < |k.recvQ| ==> k.recvQ[w] == [])
  }

  /** No message and no frame is on its way. */
  ghost predicate Flushed(h: Hub) {
    PlaneFlushed(h.forward) && PlaneFlushed(h.backend) && LinkFlushed(h.up) && LinkFlushed(h.down)
  }

  lemma PlaneMoves(c: Config, h: Hub, d: Dir) returns (a: Action)
    requires ValidConfig(c) && Reachable(c, h) && !PlaneFlushed(PlaneAt(h, d))
    ensures Internal(a) && Enabled(c, h, a)
  {
    hide Reachable, CanDistPush, CanRecvPush, CanAckAppend, Has;
    var s := PlaneAt(h, d);
    NeverStuck(c, h, d);
    NeverStuck(c, h, if d.Forward? then Backend else Forward);
    if r: nat :| r < |s.reactors| && !s.reactors[r].pc.Idle? {
      a := if s.reactors[r].pc.Acking? then OnPlane(d, AAckAppend(r)) else OnLink(d, ARecvPush(r));
    } else if s.egress.hand.Some? {
      a := OnPlane(d, ADistPush);
    } else if s.egress.distQ != [] {
      a := OnPlane(d, ADistPop);
    } else {
      var r: nat :| r < |s.egress.sendQ| && s.egress.sendQ[r] != [];
      SameCount(c, h, d);
      a := OnPlane(d, ADrain(r));
    }
  }

  lemma SameCount(c: Config, h: Hub, d: Dir)
    requires ValidConfig(c) && Reachable(c, h)
    ensures |PlaneAt(h, d).egress.sendQ| == |PlaneAt(h, d).reactors|
  {
    hide Reachable, LinkOk, OrderOk, AccountsOk, LogsOk, FdsOk, ReactorsOk, ConnsOk, GrantsOk, LiveOk, TablesOk,
         FramesOk,
         SendQOk, DropOk, FrameOk;
    FlowFacts(c, h, d);
  }

  lemma LinkMoves(c: Config, h: Hub, d: Dir) returns (a: Action)
    requires ValidConfig(c) && Reachable(c, h) && !LinkFlushed(FlowAt(h, d).link)
    ensures Internal(a) && Enabled(c, h, a)
  {
    hide Reachable, PlaneInv, OrderOk, AccountsOk, InboxOk, MsgHere, TargetsOk;
    FlowFacts(c, h, d);
    var f := FlowAt(h, d);
    var w: nat :| w < c.workers && !(f.link.workers[w].Free? && f.link.recvQ[w] == []);
    assert WorkerOk(c, f.src.log, f.dst.log, w, f.link.workers[w]);
    match f.link.workers[w]
    case Free => a := OnLink(d, AWorkerPop(w));
    case Taken(_) => a := OnLink(d, ALookup(w));
    case Fanout(_, _, _, _, _) => a := OnLink(d, AWorkerPush(w));
  }

  /** As long as anything is on its way, some internal action is enabled. */
  lemma SomethingMoves(c: Config, h: Hub) returns (a: Action)
    requires ValidConfig(c) && Reachable(c, h) && !Flushed(h)
    ensures Internal(a) && Enabled(c, h, a)
  {
    hide Reachable, Enabled, PlaneFlushed, LinkFlushed;
    if !PlaneFlushed(h.forward) {
      a := PlaneMoves(c, h, Forward);
    } else if !PlaneFlushed(h.backend) {
      a := PlaneMoves(c, h, Backend);
    } else if !LinkFlushed(h.up) {
      a := LinkMoves(c, h, Forward);
    } else {
      a := LinkMoves(c, h, Backend);
    }
  }

  // ---------- the hub can always be flushed ----------

  /** The state after some more actions, if each is enabled in its turn. */
  ghost function RunFrom(c: Config, h: Hub, actions: seq<Action>): Option<Hub>
    requires ValidConfig(c)
    decreases actions
  {
    if actions == [] then Some(h)
    else if Enabled(c, h, actions[0]) then RunFrom(c, Step(c, h, actions[0]), actions[1..])
    else None
  }

  predicate AllInternal(actions: seq<Action>) {
    forall i :: 0 <= i < |actions| ==> Internal(actions[i])
  }

  lemma StepReaches(c: Config, h: Hub, a: Action)
    requires ValidConfig(c) && Reachable(c, h) && Enabled(c, h, a)
    ensures Reachable(c, Step(c, h, a))
  {
    hide Enabled, Step;
    var actions :| Run(c, actions) == Some(h);
    assert (actions + [a])[..|actions|] == actions;
    assert Run(c, actions + [a]) == Some(Step(c, h, a));
  }

  /** From every reachable state a finite run without new input leaves nothing on its way. */
  lemma {:induction false} CanBeFlushed(c: Config, h: Hub) returns (actions: seq<Action>, h': Hub)
    requires ValidConfig(c) && Reachable(c, h)
    ensures AllInternal(actions) && RunFrom(c, h, actions) == Some(h') && Reachable(c, h') && Flushed(h')
    decreases HubWork(h).pushing, HubWork(h).inbox, HubWork(h).taken, HubWork(h).fan, HubWork(h).dist, HubWork(h).hand,
              HubWork(h).send, HubWork(h).acks
  {
    hide Reachable, Enabled, Step, Flushed, HubWork, Internal;
    if Flushed(h) {
      actions, h' := [], h;
    } else {
      var a := SomethingMoves(c, h);
      StepReaches(c, h, a);
      InternalLess(c, h, a);
      var rest;
      rest, h' := CanBeFlushed(c, Step(c, h, a));
      actions := [a] + rest;
      assert actions[1..] == rest;
    }
  }

  /** Once nothing is on its way, every frame ever enqueued for a pair was delivered once or dropped
      once, and nothing else was. */
  lemma FlushedIsSettled(c: Config, h: Hub, d: Dir, S: nat, D: nat, n: nat)
    requires ValidConfig(c) && Reachable(c, h) && Flushed(h) && D in FlowAt(h, d).dst.log
    ensures var s := FlowAt(h, d).dst;
            multiset(Delivered(s.log[D].stream, S, D))[n] + multiset(Drops(s.egress.dropped, S, D))[n]
            == (if n in Proj(s.egress.enqueued, S, D) then 1 else 0)
  {
    hide Reachable, Delivered, Drops;
    Conservation(c, h, d, S, D, n);
    var s := FlowAt(h, d).dst;
    assert PlaneFlushed(s);
    assert s.egress.sendQ[s.log[D].reactor] == [] && Proj([], S, D) == [];
  }
}
