/** Session ids and the listener: every accepted connection gets the next id, ids are never used
    twice, and a new session is handed to its reactor or closed. */
module HubSessions {
  import opened Bytes
  import opened Wire
  import opened HubModel
  import opened HubInvariant
  import opened HubLink
  import opened HubFlow
  import opened HubTheorems

  /** The ids given out so far are exactly the numbers from one up to the next id. */
  ghost predicate IdsOk(s: Plane) {
    s.nextSid >= 1 && forall sid :: sid in s.log <==> 1 <= sid < s.nextSid
  }

  /** No step but an accept starts a session, and none forgets one. */
  lemma SameIds(c: Config, s: Plane, a: PlaneAction)
    requires PlaneEnabled(c, s, a) && !a.AAccept?
    ensures var t := PlaneStep(c, s, a); t.nextSid == s.nextSid && forall sid :: sid in t.log <==> sid in s.log
  {
    hide Pop, React, Encode;
    if a.AHandle? && Pop(s.reactors[a.r].sessions[a.sid].fb).Got? {
      PerformIds(c, s, a.r, a.sid, Pop(s.reactors[a.r].sessions[a.sid].fb).frame,
                 Pop(s.reactors[a.r].sessions[a.sid].fb).rest);
      hide Perform;
    }
  }

  lemma PerformIds(c: Config, s: Plane, r: nat, sid: nat, f: Frame, rest: seq<Byte>)
    requires Has(s, r, sid)
    ensures var t := Perform(c, s, r, sid, f, rest);
            t.nextSid == s.nextSid && forall id :: id in t.log <==> id in s.log
  {
    hide React;
  }

  lemma PlaneIds(c: Config, s: Plane, a: PlaneAction)
    requires IdsOk(s) && PlaneEnabled(c, s, a)
    ensures IdsOk(PlaneStep(c, s, a))
  {
    if a.AAccept? {
      assert forall sid :: sid in PlaneStep(c, s, a).log <==> sid in s.log || sid == s.nextSid;
    } else {
      SameIds(c, s, a);
      hide PlaneStep;
    }
  }

  lemma HubIds(c: Config, h: Hub, a: Action, d: Dir)
    requires ValidConfig(c) && Enabled(c, h, a) && IdsOk(h.forward) && IdsOk(h.backend)
    ensures IdsOk(PlaneAt(Step(c, h, a), d))
  {
    hide IdsOk, PlaneStep, PlaneEnabled;
    match a
    case OnPlane(e, p) => PlaneIds(c, PlaneAt(h, e), p);
    case OnLink(e, k) => LinkIds(c, e, FlowAt(h, e), k);
  }

  lemma LinkIds(c: Config, d: Dir, f: Flow, a: LinkAction)
    requires ValidConfig(c) && LinkEnabled(c, f, a) && IdsOk(f.src) && IdsOk(f.dst)
    ensures IdsOk(LinkStep(c, d, f, a).src) && IdsOk(LinkStep(c, d, f, a).dst)
  {
    hide Recipients, MakeFrame, PickWorker;
  }

  lemma {:induction false} IdsRun(c: Config, actions: seq<Action>)
    requires ValidConfig(c) && Run(c, actions).Some?
    ensures var h := Run(c, actions).value; IdsOk(h.forward) && IdsOk(h.backend)
    decreases |actions|
  {
    hide Step, Enabled;
    if actions != [] {
      var front := actions[..|actions| - 1];
      IdsRun(c, front);
      HubIds(c, Run(c, front).value, actions[|actions| - 1], Forward);
      HubIds(c, Run(c, front).value, actions[|actions| - 1], Backend);
    }
  }

  /** In every reachable state the sessions ever accepted on a plane are numbered from one without
      a gap, so a connection accepted next gets an id that no session ever had. */
  lemma SessionIds(c: Config, h: Hub, d: Dir)
    requires ValidConfig(c) && Reachable(c, h)
    ensures var s := PlaneAt(h, d);
            s.nextSid >= 1 && forall sid :: sid in s.log <==> 1 <= sid < s.nextSid
  {
    hide Run;
    var actions :| Run(c, actions) == Some(h);
    IdsRun(c, actions);
  }

  lemma PlaneShape(c: Config, h: Hub, d: Dir)
    requires ValidConfig(c) && Reachable(c, h)
    ensures |PlaneAt(h, d).connQ| == c.reactors
  {
    hide Reachable, LogsOk, FdsOk, ReactorsOk, GrantsOk, LiveOk, TablesOk, EgressOk, LinkOk, OrderOk, AccountsOk;
    FlowFacts(c, h, d);
  }

  /** What becomes of an accepted connection: under an id nobody ever had it is queued for its
      reactor when that reactor's connection queue has room, and closed at once when it has not.
      No other session and no other queue is touched. */
  lemma ConnectionHandled(c: Config, h: Hub, d: Dir, fd: int, r: nat)
    requires ValidConfig(c) && Reachable(c, h) && CanAccept(c, PlaneAt(h, d), fd, r)
    ensures var s := PlaneAt(h, d);
            var held, sid := Accept(s, fd, r), s.nextSid;
            && sid !in s.log && CanConnPush(held)
            && var t := ConnPush(c, held);
            && t.listener == Waiting && t.nextSid == sid + 1 && sid in t.log
            && t.log[sid].fd == fd && t.log[sid].reactor == r && t.log[sid].handled == [] && t.log[sid].stream == []
            && (forall id :: id in s.log ==> id in t.log && t.log[id] == s.log[id])
            && r < |s.connQ| && |t.connQ| == |s.connQ|
            && (forall i :: 0 <= i < |s.connQ| && i != r ==> t.connQ[i] == s.connQ[i])
            && t.connQ[r] == s.connQ[r] + (if |s.connQ[r]| < c.capacity then [NewConn(fd, sid)] else [])
            && (t.log[sid].closed <==> |s.connQ[r]| >= c.capacity)
            && t.reactors == s.reactors && t.tables == s.tables && t.egress == s.egress
  {
    hide Reachable, FdOpen;
    SessionIds(c, h, d);
    PlaneShape(c, h, d);
  }
}
