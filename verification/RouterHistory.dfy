/** The routing tables as functions of the calls made so far: what a lookup
    answers is said in terms of the history alone, without the tables. */
module RouterHistory {
  import opened Bytes
  import opened Routing

  datatype Event =
    | Subscribed(cmd: U32, sub: Subscriber)
    | Unsubscribed(cmd: U32, sid: nat)
    | Removed(sid: nat, nid: U32)
    | Bound(nid: U32, sid: nat, reactor: int)
    | Unbound(nid: U32, sid: nat)

  function Apply(t: Tables, e: Event): Tables {
    match e
    case Subscribed(cmd, sub) => Subscribe(t, cmd, sub)
    case Unsubscribed(cmd, sid) => Unsubscribe(t, cmd, sid)
    case Removed(sid, nid) => RemoveSession(t, sid, nid)
    case Bound(nid, sid, reactor) => BindNid(t, nid, sid, reactor)
    case Unbound(nid, sid) => UnbindNid(t, nid, sid)
  }

  function After(es: seq<Event>): Tables {
    if es == [] then EMPTY else Apply(After(es[..|es| - 1]), es[|es| - 1])
  }

  // ---------- node ids ----------

  ghost predicate Rebinds(e: Event, nid: U32) {
    e.Bound? && e.nid == nid
  }

  ghost predicate Unroutes(e: Event, nid: U32, sid: nat) {
    (e.Unbound? || e.Removed?) && e.nid == nid && e.sid == sid
  }

  /** Call `i` bound the node id to this route, and no later call undid it. */
  ghost predicate StandingBind(es: seq<Event>, nid: U32, route: NidRoute, i: nat) {
    && i < |es|
    && es[i] == Bound(nid, route.sid, route.reactor)
    && forall j :: i < j < |es| ==> !Rebinds(es[j], nid) && !Unroutes(es[j], nid, route.sid)
  }

  lemma EmptyHasNoRoute(nid: U32)
    ensures FindNidRoute(EMPTY, nid) == None
  {
  }

  lemma NidStep(t: Tables, e: Event, nid: U32, route: NidRoute)
    ensures FindNidRoute(Apply(t, e), nid) == Some(route) <==>
            || e == Bound(nid, route.sid, route.reactor)
            || (FindNidRoute(t, nid) == Some(route) && !Rebinds(e, nid) && !Unroutes(e, nid, route.sid))
  {
  }

  /** A node id routes to a session iff some bind to it still stands: later
      binds of the node id replace it, and only an unbind or a removal that
      names this very session and node id takes it away. */
  lemma {:induction false} NidRouteIsHistory(es: seq<Event>, nid: U32, route: NidRoute)
    ensures FindNidRoute(After(es), nid) == Some(route) <==> exists i :: StandingBind(es, nid, route, i)
  {
    hide Apply, FindNidRoute;
    if es == [] {
      EmptyHasNoRoute(nid);
    } else {
      var front, e := es[..|es| - 1], es[|es| - 1];
      NidRouteIsHistory(front, nid, route);
      NidStep(After(front), e, nid, route);
      if FindNidRoute(After(es), nid) == Some(route) {
        if e == Bound(nid, route.sid, route.reactor) {
          assert StandingBind(es, nid, route, |es| - 1);
        } else {
          var i :| StandingBind(front, nid, route, i);
          assert StandingBind(es, nid, route, i);
        }
      }
      if i: nat :| StandingBind(es, nid, route, i) {
        if i < |front| {
          assert StandingBind(front, nid, route, i);
        }
      }
    }
  }

  /** Closing an older connection never removes a newer connection's binding. */
  lemma OlderCloseKeepsNewer(es: seq<Event>, nid: U32, newer: NidRoute, older: nat, closing: U32)
    requires older != newer.sid
    requires exists i :: StandingBind(es, nid, newer, i)
    ensures FindNidRoute(After(es + [Removed(older, closing)]), nid) == Some(newer)
  {
    var e := Removed(older, closing);
    NidRouteIsHistory(es + [e], nid, newer);
    var i :| StandingBind(es, nid, newer, i);
    assert StandingBind(es + [e], nid, newer, i);
  }

  /** A session that logs in again under another node id and then closes leaves its first route behind. */
  lemma StaleRouteExample()
    ensures FindNidRoute(After([Bound(1, 7, 0), Bound(2, 7, 0), Removed(7, 2)]), 1) == Some(NidRoute(7, 0))
  {
    var es := [Bound(1, 7, 0), Bound(2, 7, 0), Removed(7, 2)];
    assert StandingBind(es, 1, NidRoute(7, 0), 0);
    NidRouteIsHistory(es, 1, NidRoute(7, 0));
  }

  // ---------- subscriptions ----------

  ghost predicate Subscribes(e: Event, cmd: U32, sid: nat) {
    e.Subscribed? && e.cmd == cmd && e.sub.sid == sid
  }

  ghost predicate Drops(e: Event, cmd: U32, sid: nat) {
    (e.Unsubscribed? && e.cmd == cmd && e.sid == sid) || (e.Removed? && e.sid == sid)
  }

  /** The effect of one call on one command's list. */
  function ListAfter(list: seq<Subscriber>, e: Event, cmd: U32): seq<Subscriber> {
    if e.Subscribed? && e.cmd == cmd then Upsert(list, e.sub)
    else if (e.Unsubscribed? && e.cmd == cmd) || e.Removed? then Without(list, e.sid)
    else list
  }

  lemma LookupStep(t: Tables, e: Event, cmd: U32)
    ensures FindSubscribers(Apply(t, e), cmd) == ListAfter(FindSubscribers(t, cmd), e, cmd)
  {
  }

  /** Tables that answer every lookup alike keep doing so: in particular the
      empty lists left behind by a session removal can never be observed. */
  lemma EmptyListsUnobservable(t: Tables, u: Tables, e: Event)
    requires forall cmd :: FindSubscribers(t, cmd) == FindSubscribers(u, cmd)
    requires t.nids == u.nids
    ensures forall cmd :: FindSubscribers(Apply(t, e), cmd) == FindSubscribers(Apply(u, e), cmd)
    ensures Apply(t, e).nids == Apply(u, e).nids
    ensures e.Unsubscribed? ==> UnsubscribeStatus(t, e.cmd, e.sid) == UnsubscribeStatus(u, e.cmd, e.sid)
  {
    forall cmd
      ensures FindSubscribers(Apply(t, e), cmd) == FindSubscribers(Apply(u, e), cmd)
    {
      LookupStep(t, e, cmd);
      LookupStep(u, e, cmd);
    }
    if e.Unsubscribed? {
      assert FindSubscribers(t, e.cmd) == FindSubscribers(u, e.cmd);
    }
  }

  /** No call ever makes a list name a session twice. */
  lemma {:induction false} NeverTwice(es: seq<Event>, cmd: U32)
    ensures Unique(FindSubscribers(After(es), cmd))
  {
    if es != [] {
      var front, e := es[..|es| - 1], es[|es| - 1];
      NeverTwice(front, cmd);
      var list := FindSubscribers(After(front), cmd);
      LookupStep(After(front), e, cmd);
      if e.Subscribed? {
        UpsertFacts(list, e.sub);
      } else if e.Unsubscribed? || e.Removed? {
        WithoutUnique(list, e.sid);
      }
    }
  }

  /** Call `i` is the latest subscribe of this session to `cmd`, with this
      entry, and no later call dropped it. */
  ghost predicate StandingSub(es: seq<Event>, cmd: U32, sub: Subscriber, i: nat) {
    && i < |es|
    && es[i] == Subscribed(cmd, sub)
    && forall j :: i < j < |es| ==> !Subscribes(es[j], cmd, sub.sid) && !Drops(es[j], cmd, sub.sid)
  }

  /** An entry is listed iff the latest relevant call was the subscribe that made it. */
  lemma {:induction false} SubscriptionIsHistory(es: seq<Event>, cmd: U32, sub: Subscriber)
    ensures sub in FindSubscribers(After(es), cmd) <==> exists i :: StandingSub(es, cmd, sub, i)
  {
    if es != [] {
      var front, e := es[..|es| - 1], es[|es| - 1];
      SubscriptionIsHistory(front, cmd, sub);
      LookupStep(After(front), e, cmd);
      ListMembership(front, e, cmd, sub);
      if sub in FindSubscribers(After(es), cmd) {
        if e == Subscribed(cmd, sub) {
          assert StandingSub(es, cmd, sub, |es| - 1);
        } else {
          var i :| StandingSub(front, cmd, sub, i);
          assert StandingSub(es, cmd, sub, i);
        }
      }
      if i: nat :| StandingSub(es, cmd, sub, i) {
        if i < |front| {
          assert StandingSub(front, cmd, sub, i);
        }
      }
    }
  }

  lemma ListMembership(front: seq<Event>, e: Event, cmd: U32, sub: Subscriber)
    ensures var list := FindSubscribers(After(front), cmd);
            sub in ListAfter(list, e, cmd) <==>
            || e == Subscribed(cmd, sub)
            || (sub in list && !Subscribes(e, cmd, sub.sid) && !Drops(e, cmd, sub.sid))
  {
    var list := FindSubscribers(After(front), cmd);
    NeverTwice(front, cmd);
    if e.Subscribed? {
      UpsertFacts(list, e.sub);
    } else if e.Unsubscribed? || e.Removed? {
      WithoutMembers(list, e.sid);
    }
  }

  // ---------- order of subscribers ----------

  /** Call `i` subscribed the session and nothing dropped it since. */
  ghost predicate LiveSince(es: seq<Event>, cmd: U32, sid: nat, i: nat) {
    && i < |es|
    && Subscribes(es[i], cmd, sid)
    && forall j :: i < j < |es| ==> !Drops(es[j], cmd, sid)
  }

  /** Call `i` is when the session joined: it was not subscribed just before. */
  ghost predicate JoinedAt(es: seq<Event>, cmd: U32, sid: nat, i: nat) {
    && LiveSince(es, cmd, sid, i)
    && forall k :: 0 <= k < i ==> !LiveSince(es[..i], cmd, sid, k)
  }

  lemma {:induction false} ListedIffLive(es: seq<Event>, cmd: U32, sid: nat)
    ensures (exists s :: s in FindSubscribers(After(es), cmd) && s.sid == sid) <==>
              exists i :: LiveSince(es, cmd, sid, i)
  {
    if s :| s in FindSubscribers(After(es), cmd) && s.sid == sid {
      SubscriptionIsHistory(es, cmd, s);
      var i :| StandingSub(es, cmd, s, i);
      assert LiveSince(es, cmd, sid, i);
    }
    if i: nat :| LiveSince(es, cmd, sid, i) {
      var k := LatestSubscribe(es, cmd, sid, i);
      SubscriptionIsHistory(es, cmd, es[k].sub);
      assert StandingSub(es, cmd, es[k].sub, k);
      assert es[k].sub in FindSubscribers(After(es), cmd);
    }
  }

  lemma {:induction false} LatestSubscribe(es: seq<Event>, cmd: U32, sid: nat, i: nat) returns (k: nat)
    requires LiveSince(es, cmd, sid, i)
    ensures i <= k && LiveSince(es, cmd, sid, k)
    ensures forall j :: k < j < |es| ==> !Subscribes(es[j], cmd, sid)
    decreases |es| - i
  {
    if j :| i < j < |es| && Subscribes(es[j], cmd, sid) {
      k := LatestSubscribe(es, cmd, sid, j);
    } else {
      k := i;
    }
  }

  /** Going back from a subscribe to the one the session has been listed since. */
  lemma {:induction false} FirstSubscribe(es: seq<Event>, cmd: U32, sid: nat, i: nat) returns (k: nat)
    requires LiveSince(es, cmd, sid, i)
    ensures JoinedAt(es, cmd, sid, k)
    decreases i
  {
    if j: nat :| j < i && LiveSince(es[..i], cmd, sid, j) {
      forall m | j < m < |es|
        ensures !Drops(es[m], cmd, sid)
      {
        assert m < i ==> es[..i][m] == es[m];
      }
      k := FirstSubscribe(es, cmd, sid, j);
    } else {
      k := i;
    }
  }

  /** Every listed session joined at some call, and at no other; only listed sessions did. */
  lemma ListedIffJoined(es: seq<Event>, cmd: U32, sid: nat)
    ensures (exists s :: s in FindSubscribers(After(es), cmd) && s.sid == sid) <==>
              exists i :: JoinedAt(es, cmd, sid, i)
    ensures forall i, j :: JoinedAt(es, cmd, sid, i) && JoinedAt(es, cmd, sid, j) ==> i == j
  {
    hide After, FindSubscribers;
    ListedIffLive(es, cmd, sid);
    if i: nat :| LiveSince(es, cmd, sid, i) {
      var _ := FirstSubscribe(es, cmd, sid, i);
    }
    forall i, j | JoinedAt(es, cmd, sid, i) && JoinedAt(es, cmd, sid, j)
      ensures i == j
    {
      JoinedOnce(es, cmd, sid, i, j);
    }
  }

  /** Dropping a session's entries keeps the others in order. */
  lemma {:induction false} WithoutKeepsOrder(list: seq<Subscriber>, sid: nat, a: nat, b: nat) returns (i: nat, j: nat)
    requires a < b < |Without(list, sid)|
    ensures i < j < |list| && list[i] == Without(list, sid)[a] && list[j] == Without(list, sid)[b]
  {
    var rest := list[1..];
    if list[0].sid == sid {
      i, j := WithoutKeepsOrder(rest, sid, a, b);
      i, j := i + 1, j + 1;
    } else if a == 0 {
      WithoutMembers(rest, sid);
      assert Without(rest, sid)[b - 1] in rest;
      var k :| 0 <= k < |rest| && rest[k] == Without(rest, sid)[b - 1];
      i, j := 0, k + 1;
    } else {
      i, j := WithoutKeepsOrder(rest, sid, a - 1, b - 1);
      i, j := i + 1, j + 1;
    }
  }

  /** A session that joined before the last call had joined already then. */
  lemma JoinedEarlier(front: seq<Event>, e: Event, cmd: U32, sid: nat, i: nat)
    requires JoinedAt(front + [e], cmd, sid, i) && i < |front|
    ensures JoinedAt(front, cmd, sid, i)
  {
    var es := front + [e];
    assert es[..i] == front[..i];
    assert forall j :: 0 <= j < |front| ==> es[j] == front[j];
  }

  /** A session listed before the last call did not join with it. */
  lemma ListedJoinedEarlier(front: seq<Event>, e: Event, cmd: U32, s: Subscriber, i: nat)
    requires s in FindSubscribers(After(front), cmd)
    requires JoinedAt(front + [e], cmd, s.sid, i)
    ensures i < |front| && JoinedAt(front, cmd, s.sid, i)
  {
    ListedIffLive(front, cmd, s.sid);
    var k: nat :| LiveSince(front, cmd, s.sid, k);
    assert (front + [e])[..|front|] == front;
    JoinedEarlier(front, e, cmd, s.sid, i);
  }

  lemma NewlyJoined(front: seq<Event>, e: Event, cmd: U32)
    requires e.Subscribed? && e.cmd == cmd
    requires Find(FindSubscribers(After(front), cmd), e.sub.sid) == |FindSubscribers(After(front), cmd)|
    ensures JoinedAt(front + [e], cmd, e.sub.sid, |front|)
  {
    var es := front + [e];
    assert es[..|front|] == front;
    ListedIffLive(front, cmd, e.sub.sid);
  }

  /** Subscribers are listed, and so published to, in the order they joined;
      subscribing again does not move a session. */
  lemma {:induction false} OrderOfJoining(es: seq<Event>, cmd: U32, a: nat, b: nat, i: nat, j: nat)
    requires a < b < |FindSubscribers(After(es), cmd)|
    requires JoinedAt(es, cmd, FindSubscribers(After(es), cmd)[a].sid, i)
    requires JoinedAt(es, cmd, FindSubscribers(After(es), cmd)[b].sid, j)
    ensures i < j
  {
    hide JoinedAt, Apply;
    var front, e := es[..|es| - 1], es[|es| - 1];
    assert es == front + [e];
    var list := FindSubscribers(After(front), cmd);
    LookupStep(After(front), e, cmd);
    if e.Subscribed? && e.cmd == cmd {
      OrderAfterSubscribe(front, e, cmd, a, b, i, j);
      if b < |list| {
        OrderOfJoining(front, cmd, a, b, i, j);
      }
    } else {
      var a', b' := a, b;
      if (e.Unsubscribed? && e.cmd == cmd) || e.Removed? {
        a', b' := WithoutKeepsOrder(list, e.sid, a, b);
      }
      ListedJoinedEarlier(front, e, cmd, list[a'], i);
      ListedJoinedEarlier(front, e, cmd, list[b'], j);
      OrderOfJoining(front, cmd, a', b', i, j);
    }
  }

  lemma OrderAfterSubscribe(front: seq<Event>, e: Event, cmd: U32, a: nat, b: nat, i: nat, j: nat)
    requires e.Subscribed? && e.cmd == cmd
    requires a < b < |Upsert(FindSubscribers(After(front), cmd), e.sub)|
    requires var list := FindSubscribers(After(front), cmd);
             && JoinedAt(front + [e], cmd, Upsert(list, e.sub)[a].sid, i)
             && JoinedAt(front + [e], cmd, Upsert(list, e.sub)[b].sid, j)
    ensures var list := FindSubscribers(After(front), cmd);
            && i < |front| && JoinedAt(front, cmd, list[a].sid, i)
            && (b < |list| ==> j < |front| && JoinedAt(front, cmd, list[b].sid, j))
            && (b >= |list| ==> j == |front|)
  {
    hide JoinedAt, Apply;
    var list := FindSubscribers(After(front), cmd);
    ListedJoinedEarlier(front, e, cmd, list[a], i);
    if b < |list| {
      ListedJoinedEarlier(front, e, cmd, list[b], j);
    } else {
      NewlyJoined(front, e, cmd);
      JoinedOnce(front + [e], cmd, e.sub.sid, j, |front|);
    }
  }

  lemma JoinedOnce(es: seq<Event>, cmd: U32, sid: nat, i: nat, j: nat)
    requires JoinedAt(es, cmd, sid, i) && JoinedAt(es, cmd, sid, j)
    ensures i == j
  {
    if i < j {
      assert LiveSince(es[..j], cmd, sid, i);
    } else if j < i {
      assert LiveSince(es[..i], cmd, sid, j);
    }
  }
}
