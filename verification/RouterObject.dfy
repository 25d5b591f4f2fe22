/** The router as the hub uses it: an object whose methods each run under one
    mutex (src/hub/router.cpp). Its state is a `Routing.Tables`. */
module RouterObject {
  import opened Bytes
  import opened Routing

  /** Each method holds the mutex from start to end, so it is one atomic step. */
  class Router {
    var subTable: map<U32, seq<Subscriber>>
    var nidMap: map<U32, NidRoute>

    function State(): Tables
      reads this
    {
      Tables(subTable, nidMap)
    }

    constructor ()
      ensures State() == EMPTY
    {
      subTable, nidMap := map[], map[];
    }

    method Subscribe(cmd: U32, sub: Subscriber)
      modifies this
      ensures State() == Routing.Subscribe(old(State()), cmd, sub)
    {
      var list := if cmd in subTable then subTable[cmd] else [];
      var i := 0;
      while i < |list| && list[i].sid != sub.sid
        invariant 0 <= i <= |list|
        invariant forall j :: 0 <= j < i ==> list[j].sid != sub.sid
      {
        i := i + 1;
      }
      list := if i < |list| then list[i := sub] else list + [sub];
      subTable := subTable[cmd := list];
    }

    method Unsubscribe(cmd: U32, sid: nat) returns (st: Status)
      modifies this
      ensures State() == Routing.Unsubscribe(old(State()), cmd, sid)
      ensures st == UnsubscribeStatus(old(State()), cmd, sid)
      ensures var list := if cmd in old(subTable) then old(subTable)[cmd] else [];
              && (st == Ok <==> exists i :: 0 <= i < |list| && list[i].sid == sid)
              && (st == NotFound <==> forall i :: 0 <= i < |list| ==> list[i].sid != sid)
    {
      if cmd !in subTable {
        return NotFound;
      }
      var list := subTable[cmd];
      WithoutMembers(list, sid);
      var kept := RemoveIf(list, sid);
      if |kept| == |list| {
        WithoutLength(list, sid);
        return NotFound;
      }
      subTable := if kept == [] then subTable - {cmd} else subTable[cmd := kept];
      st := Ok;
    }

    method RemoveSession(sid: nat, nid: U32)
      modifies this
      ensures State() == Routing.RemoveSession(old(State()), sid, nid)
    {
      var todo := subTable.Keys;
      while todo != {}
        invariant todo <= subTable.Keys == old(subTable).Keys && nidMap == old(nidMap)
        invariant forall cmd :: cmd in subTable ==>
                    subTable[cmd] == if cmd in todo then old(subTable)[cmd] else Without(old(subTable)[cmd], sid)
        decreases todo
      {
        var cmd :| cmd in todo;
        var kept := RemoveIf(subTable[cmd], sid);
        subTable := subTable[cmd := kept];
        todo := todo - {cmd};
      }
      UnbindNid(nid, sid);
    }

    method BindNid(nid: U32, sid: nat, reactor: int)
      modifies this
      ensures State() == Routing.BindNid(old(State()), nid, sid, reactor)
    {
      nidMap := nidMap[nid := NidRoute(sid, reactor)];
    }

    method UnbindNid(nid: U32, sid: nat)
      modifies this
      ensures State() == Routing.UnbindNid(old(State()), nid, sid)
    {
      if nid in nidMap && nidMap[nid].sid == sid {
        nidMap := nidMap - {nid};
      }
    }

    /** The number of sessions subscribed, since no session is listed twice. */
    method SubscriptionCount(cmd: U32) returns (n: nat)
      ensures n == |FindSubscribers(State(), cmd)|
      ensures Routing.Valid(State()) ==> n == |set s | s in FindSubscribers(State(), cmd) :: s.sid|
    {
      n := if cmd in subTable then |subTable[cmd]| else 0;
      if Routing.Valid(State()) {
        CountsSessions(FindSubscribers(State(), cmd));
      }
    }
  }

  /** Keeps the entries of other sessions, moving them forward in order. */
  method RemoveIf(list: seq<Subscriber>, sid: nat) returns (kept: seq<Subscriber>)
    ensures kept == Without(list, sid)
  {
    kept := [];
    for i := 0 to |list|
      invariant kept + Without(list[i..], sid) == Without(list, sid)
    {
      assert list[i..][1..] == list[i + 1..];
      if list[i].sid != sid {
        kept := kept + [list[i]];
      }
    }
  }
}
