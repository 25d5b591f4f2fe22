/** The routing tables (src/hub/router.cpp): per command an ordered list of
    subscribers, and per node id the session it was last bound to. */
module Routing {
  import opened Bytes

  datatype Subscriber = Subscriber(gid: U32, sid: nat, nid: U32, reactor: int)
  datatype NidRoute = NidRoute(sid: nat, reactor: int)
  datatype Status = Ok | NotFound | QueueFull

  datatype Tables = Tables(subs: map<U32, seq<Subscriber>>, nids: map<U32, NidRoute>)

  const EMPTY: Tables := Tables(map[], map[])

  /** Position of the entry for `sid`, or the length when there is none. */
  function Find(list: seq<Subscriber>, sid: nat): (i: nat)
    ensures i <= |list|
    ensures i < |list| ==> list[i].sid == sid
    ensures forall j :: 0 <= j < i ==> list[j].sid != sid
  {
    if list == [] || list[0].sid == sid then 0 else 1 + Find(list[1..], sid)
  }

  /** Replaces the entry with the same sid in place, or appends. */
  function Upsert(list: seq<Subscriber>, sub: Subscriber): seq<Subscriber> {
    var i := Find(list, sub.sid);
    if i < |list| then list[i := sub] else list + [sub]
  }

  /** The entries of other sessions, in order. */
  function Without(list: seq<Subscriber>, sid: nat): seq<Subscriber> {
    if list == [] then []
    else if list[0].sid == sid then Without(list[1..], sid)
    else [list[0]] + Without(list[1..], sid)
  }

  function Subscribe(t: Tables, cmd: U32, sub: Subscriber): Tables {
    t.(subs := t.subs[cmd := Upsert(FindSubscribers(t, cmd), sub)])
  }

  function Unsubscribe(t: Tables, cmd: U32, sid: nat): Tables {
    if cmd !in t.subs then t
    else
      var rest := Without(t.subs[cmd], sid);
      if rest == t.subs[cmd] then t
      else if rest == [] then t.(subs := t.subs - {cmd})
      else t.(subs := t.subs[cmd := rest])
  }

  function UnsubscribeStatus(t: Tables, cmd: U32, sid: nat): Status {
    if cmd in t.subs && Find(t.subs[cmd], sid) < |t.subs[cmd]| then Ok else NotFound
  }

  function UnbindNid(t: Tables, nid: U32, sid: nat): Tables {
    if nid in t.nids && t.nids[nid].sid == sid then t.(nids := t.nids - {nid}) else t
  }

  /** Leaves an emptied list behind, unlike `Unsubscribe`. */
  function RemoveSession(t: Tables, sid: nat, nid: U32): Tables {
    UnbindNid(t.(subs := map cmd | cmd in t.subs :: Without(t.subs[cmd], sid)), nid, sid)
  }

  function BindNid(t: Tables, nid: U32, sid: nat, reactor: int): Tables {
    t.(nids := t.nids[nid := NidRoute(sid, reactor)])
  }

  function FindSubscribers(t: Tables, cmd: U32): seq<Subscriber> {
    if cmd in t.subs then t.subs[cmd] else []
  }

  function FindNidRoute(t: Tables, nid: U32): Option<NidRoute> {
    if nid in t.nids then Some(t.nids[nid]) else None
  }

  // ---------- list facts ----------

  ghost predicate Unique(list: seq<Subscriber>) {
    forall i, j :: 0 <= i < j < |list| ==> list[i].sid != list[j].sid
  }

  lemma {:induction false} WithoutMembers(list: seq<Subscriber>, sid: nat)
    ensures forall s :: s in Without(list, sid) <==> s in list && s.sid != sid
    ensures |Without(list, sid)| <= |list|
    ensures Without(list, sid) == list <==> Find(list, sid) == |list|
  {
    if list != [] {
      WithoutMembers(list[1..], sid);
    }
  }

  lemma {:induction false} WithoutUnique(list: seq<Subscriber>, sid: nat)
    requires Unique(list)
    ensures Unique(Without(list, sid))
  {
    if list != [] {
      var rest := list[1..];
      WithoutUnique(rest, sid);
      WithoutMembers(rest, sid);
      forall j | 0 <= j < |Without(rest, sid)|
        ensures Without(rest, sid)[j].sid != list[0].sid
      {
        assert Without(rest, sid)[j] in rest;
      }
    }
  }

  /** Dropping a session's entries works through the list in order. */
  lemma {:induction false} WithoutSnoc(list: seq<Subscriber>, s: Subscriber, sid: nat)
    ensures Without(list + [s], sid) == Without(list, sid) + if s.sid == sid then [] else [s]
  {
    if list == [] {
      assert (list + [s])[1..] == [];
    } else {
      assert (list + [s])[1..] == list[1..] + [s];
      WithoutSnoc(list[1..], s, sid);
    }
  }

  lemma {:induction false} WithoutTwice(list: seq<Subscriber>, sid: nat)
    ensures Without(Without(list, sid), sid) == Without(list, sid)
  {
    if list != [] {
      WithoutTwice(list[1..], sid);
    }
  }

  /** A subscription leaves the entries of other sessions alone, in order. */
  lemma {:induction false} WithoutUpsert(list: seq<Subscriber>, sub: Subscriber)
    ensures Without(Upsert(list, sub), sub.sid) == Without(list, sub.sid)
  {
    var i, r := Find(list, sub.sid), Upsert(list, sub);
    if list == [] {
      assert r == [sub] && r[1..] == [];
    } else if i == 0 {
      assert r == [sub] + list[1..];
    } else {
      WithoutUpsert(list[1..], sub);
      assert r == [list[0]] + Upsert(list[1..], sub);
    }
  }

  lemma UpsertFacts(list: seq<Subscriber>, sub: Subscriber)
    requires Unique(list)
    ensures Unique(Upsert(list, sub))
    ensures forall s :: s in Upsert(list, sub) <==> s == sub || (s in list && s.sid != sub.sid)
  {
    var r := Upsert(list, sub);
    var i := Find(list, sub.sid);
    assert r[i] == sub;
    forall s | s in list && s.sid != sub.sid
      ensures s in r
    {
      var k :| 0 <= k < |list| && list[k] == s;
      assert r[k] == s;
    }
  }

  /** Every list of the table names each session at most once. */
  ghost predicate Valid(t: Tables) {
    forall cmd :: cmd in t.subs ==> Unique(t.subs[cmd])
  }

  lemma {:induction false} WithoutLength(list: seq<Subscriber>, sid: nat)
    requires |Without(list, sid)| == |list|
    ensures Without(list, sid) == list
  {
    if list != [] {
      WithoutMembers(list[1..], sid);
      WithoutLength(list[1..], sid);
    }
  }

  lemma {:induction false} CountsSessions(list: seq<Subscriber>)
    requires Unique(list)
    ensures |set s | s in list :: s.sid| == |list|
  {
    var ids := set s | s in list :: s.sid;
    if list != [] {
      var rest := list[1..];
      CountsSessions(rest);
      var tail := set s | s in rest :: s.sid;
      forall s | s in rest
        ensures s.sid != list[0].sid
      {
        var k :| 0 <= k < |rest| && rest[k] == s;
        assert list[k + 1] == s;
      }
      assert ids == tail + {list[0].sid} by {
        forall s | s in list
          ensures s == list[0] || s in rest
        {
        }
        assert list[0] in list;
        assert forall s :: s in rest ==> s in list;
      }
    }
  }
}
