/** How a reactor learns of new connections (src/hub/listener.cpp, src/hub/pipe_wakeup.hpp,
    src/hub/reactor.cpp, src/hub/distributor.cpp). The listener pushes, then notifies; the
    reactor drains the wakeup counter, then pops. Connections are only taken in on a wakeup
    event, and the distributor shares the same counter for its own purposes. */
module Wakeup {
  import opened Bytes

  datatype Sender = Quiet | Owing

  /** Polling: waiting for events. Draining: the event was seen, the counter is being read down.
      TakingConns, TakingSends: the two pop loops. */
  datatype ReactorAt = Polling | Draining | TakingConns | TakingSends

  /** `conns` and `sends` are the two queues; `taken` the connections taken in so far. A sender
      is `Owing` between its push and its notify. */
  datatype State = State(
    conns: seq<nat>, sends: seq<nat>, tokens: nat, listener: Sender, distributor: Sender,
    reactor: ReactorAt, taken: seq<nat>)

  /** The kernel counter saturates: a write that would overflow it is lost. */
  const LIMIT: nat := 0xFFFF_FFFF_FFFF_FFFE

  datatype Action =
    | PushConn(conn: nat) | NotifyConn | PushSend(frame: nat) | NotifySend
    | SeeEvent | ReadCounter | TakeConn | TakeSend | LoopAgain

  function Notified(tokens: nat): nat {
    if tokens < LIMIT then tokens + 1 else tokens
  }

  predicate Enabled(s: State, a: Action) {
    match a
    case PushConn(_) => s.listener.Quiet?
    case NotifyConn => s.listener.Owing?
    case PushSend(_) => s.distributor.Quiet?
    case NotifySend => s.distributor.Owing?
    case SeeEvent => s.reactor.Polling? && s.tokens > 0
    case ReadCounter => s.reactor.Draining?
    case TakeConn => s.reactor.TakingConns?
    case TakeSend => s.reactor.TakingSends?
    case LoopAgain => s.reactor.Polling?
  }

  /** A read of the counter resets it; draining ends at the read that finds it zero. Each pop
      loop ends at the pop that finds its queue empty. The send queue is also drained once per
      turn of the main loop, event or not. */
  function Step(s: State, a: Action): State
    requires Enabled(s, a)
  {
    match a
    case PushConn(x) => s.(conns := s.conns + [x], listener := Owing)
    case NotifyConn => s.(tokens := Notified(s.tokens), listener := Quiet)
    case PushSend(x) => s.(sends := s.sends + [x], distributor := Owing)
    case NotifySend => s.(tokens := Notified(s.tokens), distributor := Quiet)
    case SeeEvent => s.(reactor := Draining)
    case ReadCounter => if s.tokens > 0 then s.(tokens := 0) else s.(reactor := TakingConns)
    case TakeConn =>
      if s.conns == [] then s.(reactor := TakingSends)
      else s.(conns := s.conns[1..], taken := s.taken + [s.conns[0]])
    case TakeSend => if s.sends == [] then s.(reactor := Polling) else s.(sends := s.sends[1..])
    case LoopAgain => s.(reactor := TakingSends)
  }

  const START: State := State([], [], 0, Quiet, Quiet, Polling, [])

  function Run(s: State, actions: seq<Action>): Option<State>
    decreases actions
  {
    if actions == [] then Some(s)
    else if Enabled(s, actions[0]) then Run(Step(s, actions[0]), actions[1..])
    else None
  }

  /** A queued connection has a wakeup pending, or a notify still to come, or the reactor on
      its way to the connection queue. Without any of the last two, all but the one the
      listener has not notified of have a wakeup pending. */
  ghost predicate Inv(s: State) {
    && (s.conns != [] ==> s.tokens > 0 || s.listener.Owing? || s.reactor.Draining? || s.reactor.TakingConns?)
    && (s.tokens == 0 && (s.reactor.Polling? || s.reactor.TakingSends?) ==> |s.conns| <= 1)
  }

  lemma StepKeeps(s: State, a: Action)
    requires Inv(s) && Enabled(s, a)
    ensures Inv(Step(s, a))
  {
  }

  lemma {:induction false} RunKeeps(s: State, actions: seq<Action>)
    requires Inv(s) && Run(s, actions).Some?
    ensures Inv(Run(s, actions).value)
    decreases actions
  {
    if actions != [] {
      StepKeeps(s, actions[0]);
      RunKeeps(Step(s, actions[0]), actions[1..]);
    }
  }

  /** No lost wakeup, in every reachable state. */
  lemma NoLostWakeup(actions: seq<Action>)
    requires Run(START, actions).Some?
    ensures var s := Run(START, actions).value;
            && (s.conns != [] ==> s.tokens > 0 || s.listener.Owing? || s.reactor.Draining? || s.reactor.TakingConns?)
            && (s.tokens == 0 && (s.reactor.Polling? || s.reactor.TakingSends?) ==> |s.conns| <= 1)
  {
    RunKeeps(START, actions);
  }

  /** The connections the listener has pushed, in order. */
  function ConnsPushed(actions: seq<Action>): seq<nat>
    decreases actions
  {
    if actions == [] then []
    else (if actions[0].PushConn? then [actions[0].conn] else []) + ConnsPushed(actions[1..])
  }

  lemma StepAccounts(s: State, a: Action)
    requires Enabled(s, a)
    ensures var t := Step(s, a); t.taken + t.conns == s.taken + s.conns + if a.PushConn? then [a.conn] else []
  {
    if a.TakeConn? && s.conns != [] {
      assert s.conns == [s.conns[0]] + s.conns[1..];
    }
  }

  lemma {:induction false} RunAccounts(s: State, actions: seq<Action>)
    requires Run(s, actions).Some?
    ensures var t := Run(s, actions).value; t.taken + t.conns == s.taken + s.conns + ConnsPushed(actions)
    decreases actions
  {
    hide Step, Enabled;
    var before := s.taken + s.conns;
    if actions == [] {
      assert before + [] == before;
    } else {
      var now := if actions[0].PushConn? then [actions[0].conn] else [];
      StepAccounts(s, actions[0]);
      RunAccounts(Step(s, actions[0]), actions[1..]);
      Regroup(before, now, ConnsPushed(actions[1..]));
    }
  }

  lemma Regroup(a: seq<nat>, b: seq<nat>, d: seq<nat>)
    ensures a + b + d == a + (b + d)
  {
  }

  /** Every connection the listener pushed has been taken in, once and in order, or is still queued. */
  lemma EachConnOnce(actions: seq<Action>)
    requires Run(START, actions).Some?
    ensures var s := Run(START, actions).value; s.taken + s.conns == ConnsPushed(actions)
  {
    RunAccounts(START, actions);
  }

  // ---------- progress ----------

  predicate ByReactor(a: Action) {
    a.SeeEvent? || a.ReadCounter? || a.TakeConn? || a.TakeSend?
  }

  predicate AllByReactor(actions: seq<Action>) {
    forall i :: 0 <= i < |actions| ==> ByReactor(actions[i])
  }

  lemma {:induction false} RunConcat(s: State, a: seq<Action>, b: seq<Action>)
    requires Run(s, a).Some?
    ensures Run(s, a + b) == Run(Run(s, a).value, b)
    decreases a
  {
    if a == [] {
      assert a + b == b;
    } else {
      assert (a + b)[1..] == a[1..] + b;
      RunConcat(Step(s, a[0]), a[1..], b);
    }
  }

  /** The loop over the connection queue takes all of it, in order. */
  lemma {:induction false} ConnLoop(s: State) returns (acts: seq<Action>)
    requires s.reactor.TakingConns?
    ensures AllByReactor(acts) && Run(s, acts) == Some(s.(conns := [], taken := s.taken + s.conns))
    decreases |s.conns|
  {
    if s.conns == [] {
      acts := [];
      assert s.taken + s.conns == s.taken;
      assert s.(conns := [], taken := s.taken) == s;
    } else {
      var t := Step(s, TakeConn);
      var rest := ConnLoop(t);
      acts := [TakeConn] + rest;
      assert acts[1..] == rest;
      assert t.taken + t.conns == s.taken + s.conns;
    }
  }

  lemma {:induction false} SendLoop(s: State) returns (acts: seq<Action>)
    requires s.reactor.TakingSends?
    ensures AllByReactor(acts) && Run(s, acts) == Some(s.(sends := [], reactor := Polling))
    decreases |s.sends|
  {
    if s.sends == [] {
      acts := [TakeSend];
      assert Run(Step(s, TakeSend), []) == Some(s.(sends := [], reactor := Polling));
    } else {
      var t := Step(s, TakeSend);
      var rest := SendLoop(t);
      acts := [TakeSend] + rest;
      assert acts[1..] == rest;
    }
  }

  lemma OneRead(s: State)
    requires s.reactor.Draining? && s.tokens == 0
    ensures Run(s, [ReadCounter]) == Some(s.(reactor := TakingConns))
  {
    assert Run(Step(s, ReadCounter), []) == Some(s.(reactor := TakingConns));
  }

  lemma DrainThenTake(s: State) returns (acts: seq<Action>)
    requires s.reactor.Draining?
    ensures AllByReactor(acts) && Run(s, acts).Some?
    ensures Run(s, acts).value.conns == [] && Run(s, acts).value.taken == s.taken + s.conns
  {
    var drain := if s.tokens > 0 then [ReadCounter, ReadCounter] else [ReadCounter];
    var t := s.(tokens := 0, reactor := TakingConns);
    OneRead(s.(tokens := 0));
    if s.tokens > 0 {
      assert drain[1..] == [ReadCounter];
      assert Run(s, drain) == Run(Step(s, ReadCounter), [ReadCounter]);
    }
    var rest := ConnLoop(t);
    RunConcat(s, drain, rest);
    acts := drain + rest;
  }

  /** No connection is stranded: in every reachable state in which the listener is not between
      push and notify, the reactor's own next steps take in every queued connection, in order,
      with no help from another connection or frame. */
  lemma NeverStranded(history: seq<Action>) returns (acts: seq<Action>)
    requires Run(START, history).Some? && Run(START, history).value.listener.Quiet?
    ensures var s := Run(START, history).value;
            && AllByReactor(acts) && Run(s, acts).Some?
            && Run(s, acts).value.conns == [] && Run(s, acts).value.taken == s.taken + s.conns
  {
    RunKeeps(START, history);
    acts := AllTakenIn(Run(START, history).value);
  }

  lemma AllTakenIn(s: State) returns (acts: seq<Action>)
    requires Inv(s) && s.listener.Quiet?
    ensures AllByReactor(acts) && Run(s, acts).Some?
    ensures Run(s, acts).value.conns == [] && Run(s, acts).value.taken == s.taken + s.conns
  {
    match s.reactor
    case Draining => acts := DrainThenTake(s);
    case TakingConns => acts := ConnLoop(s);
    case Polling => acts := FromPolling(s);
    case TakingSends =>
      var sends := SendLoop(s);
      var t := s.(sends := [], reactor := Polling);
      var rest := FromPolling(t);
      RunConcat(s, sends, rest);
      acts := sends + rest;
  }

  lemma FromPolling(s: State) returns (acts: seq<Action>)
    requires Inv(s) && s.listener.Quiet? && s.reactor.Polling?
    ensures AllByReactor(acts) && Run(s, acts).Some?
    ensures Run(s, acts).value.conns == [] && Run(s, acts).value.taken == s.taken + s.conns
  {
    if s.conns == [] {
      acts := [];
      assert s.taken + s.conns == s.taken;
    } else {
      var rest := DrainThenTake(Step(s, SeeEvent));
      acts := [SeeEvent] + rest;
      assert acts[1..] == rest;
    }
  }
}
