/** What the answer to a system frame makes of the session and of the routing tables, said in
    bytes of the frame and entries of the tables. */
module ReactorMeaning {
  import opened Bytes
  import opened Wire
  import Auth
  import opened Routing
  import opened HubModel
  import opened HubMeaning
  import opened ReactorFacts

  /** A login that is refused ends the session. One that is accepted stores the identity the
      payload holds and binds its node id to this session, in place of whatever it was bound to. */
  lemma LoginMeaning(c: Config, p: Place, x: Session, t: Tables, f: Frame, sends: seq<SendResult>)
    requires f.flag == 0 && f.typ == 1
    ensures var z := Answer(c, x, f, sends);
            var t' := Routed(c, p, x, t, f, z);
            && (!Credentials(c, f) ==> z == None)
            && (Credentials(c, f) && z.Some? ==>
                  var gid, nid := Word(f.payload, 0), Word(f.payload, 52);
                  && z.value == x.(authed := true, gid := gid, nid := nid, outbuf := z.value.outbuf)
                  && t'.subs == t.subs && t'.nids == t.nids[nid := NidRoute(p.sid, p.reactor)])
  {
    ReactIs(c, x.authed, f);
    hide Word, Auth.CString, React, Flush, EncodeFrame;
  }

  /** A subscription by a session that has logged in lists it under its own identity and leaves
      every other session's entry, every other list and every route as it was. */
  lemma SubMeaning(c: Config, p: Place, x: Session, t: Tables, f: Frame, sends: seq<SendResult>)
    requires f.flag == 0 && f.typ == 5
    ensures var z := Answer(c, x, f, sends);
            var t' := Routed(c, p, x, t, f, z);
            && (!(x.authed && |f.payload| >= 4) ==> z == None)
            && (x.authed && |f.payload| >= 4 && z.Some? ==>
                  var cmd := Word(f.payload, 0);
                  && z.value == x.(outbuf := z.value.outbuf) && t'.nids == t.nids
                  && Subscriber(x.gid, p.sid, x.nid, p.reactor) in FindSubscribers(t', cmd)
                  && Without(FindSubscribers(t', cmd), p.sid) == Without(FindSubscribers(t, cmd), p.sid)
                  && forall k :: k != cmd ==> FindSubscribers(t', k) == FindSubscribers(t, k))
  {
    ReactIs(c, x.authed, f);
    hide Word, Auth.CString, React, Flush, EncodeFrame;
    if x.authed && |f.payload| >= 4 {
      var sub, list := Subscriber(x.gid, p.sid, x.nid, p.reactor), FindSubscribers(t, Word(f.payload, 0));
      WithoutUpsert(list, sub);
      assert Upsert(list, sub)[Find(list, sub.sid)] == sub;
    }
  }

  /** The list of a command after one session's entries were taken off it. */
  lemma Unlisted(t: Tables, cmd: U32, sid: nat, k: U32)
    ensures var t' := Unsubscribe(t, cmd, sid);
            && FindSubscribers(t', cmd) == Without(FindSubscribers(t, cmd), sid)
            && (k != cmd ==> FindSubscribers(t', k) == FindSubscribers(t, k)) && t'.nids == t.nids
  {
  }

  lemma RemovedEverywhere(t: Tables, sid: nat, nid: U32, k: U32)
    ensures FindSubscribers(RemoveSession(t, sid, nid), k) == Without(FindSubscribers(t, k), sid)
  {
  }

  /** Afterwards no entry of the command's list names the session, whether or not the session
      survives the sending of the answer; the entries of other sessions are as before, in order.
      If it survives, the other lists and the routes are as before too. */
  lemma UnsubMeaning(c: Config, p: Place, x: Session, t: Tables, f: Frame, sends: seq<SendResult>)
    requires f.flag == 0 && f.typ == 7
    ensures var z := Answer(c, x, f, sends);
            var t' := Routed(c, p, x, t, f, z);
            && (!(x.authed && |f.payload| >= 4) ==> z == Some(x) && t' == t)
            && (x.authed && |f.payload| >= 4 ==>
                  var cmd := Word(f.payload, 0);
                  && (forall i :: 0 <= i < |FindSubscribers(t', cmd)| ==> FindSubscribers(t', cmd)[i].sid != p.sid)
                  && (forall k :: Without(FindSubscribers(t', k), p.sid) == Without(FindSubscribers(t, k), p.sid))
                  && (z.Some? ==>
                        && z.value == x.(outbuf := z.value.outbuf) && t'.nids == t.nids
                        && forall k :: k != cmd ==> FindSubscribers(t', k) == FindSubscribers(t, k)))
  {
    ReactIs(c, x.authed, f);
    hide Word, Auth.CString, React, Flush, EncodeFrame, Unsubscribe, RemoveSession, FindSubscribers;
    if x.authed && |f.payload| >= 4 {
      var cmd := Word(f.payload, 0);
      var z := Answer(c, x, f, sends);
      var u, t' := Unsubscribe(t, cmd, p.sid), Routed(c, p, x, t, f, z);
      forall k
        ensures Without(FindSubscribers(t', k), p.sid) == Without(FindSubscribers(t, k), p.sid)
        ensures k == cmd ==> FindSubscribers(t', k) == Without(FindSubscribers(t, k), p.sid)
        ensures z.Some? && k != cmd ==> FindSubscribers(t', k) == FindSubscribers(t, k)
      {
        Unlisted(t, cmd, p.sid, k);
        RemovedEverywhere(u, p.sid, x.nid, k);
        WithoutTwice(FindSubscribers(t, k), p.sid);
      }
      Unlisted(t, cmd, p.sid, cmd);
      WithoutMembers(FindSubscribers(t, cmd), p.sid);
    }
  }

  lemma WordAfter(a: seq<Byte>, s: seq<Byte>, i: nat)
    requires i + 4 <= |s|
    ensures Word(a + s, |a| + i) == Word(s, i)
  {
  }

  /** A bare header at the end of the output, which the socket does not take. */
  lemma HeaderQueued(x: Session, typ: U32)
    ensures var n, z := |x.outbuf|, Sending(x, EncodeFrame(typ, x.nid, 0, []), []);
            && z.Some? && z.value == x.(outbuf := z.value.outbuf)
            && |z.value.outbuf| == n + 20 && z.value.outbuf[..n] == x.outbuf
            && Word(z.value.outbuf, n) == typ && Word(z.value.outbuf, n + 4) == x.nid
            && Word(z.value.outbuf, n + 8) == 0 && Word(z.value.outbuf, n + 12) == 0
  {
    hide EncodeFrame, Word;
    var ack := EncodeFrame(typ, x.nid, 0, []);
    FrameLayout(typ, x.nid, 0, []);
    assert Flush(x.outbuf + ack, []) == Some(x.outbuf + ack);
    WordAfter(x.outbuf, ack, 0);
    WordAfter(x.outbuf, ack, 4);
    WordAfter(x.outbuf, ack, 8);
    WordAfter(x.outbuf, ack, 12);
  }

  /** The acknowledgement at the end of the output when the socket takes nothing: a bare header
      with its type, the node id of the session and flag zero. */
  lemma AckMeaning(c: Config, x: Session, f: Frame, typ: U32)
    requires f.flag == 0
    requires || (f.typ == 1 && Credentials(c, f) && typ == 2)
             || (f.typ == 3 && typ == 4)
             || (f.typ == 5 && x.authed && |f.payload| >= 4 && typ == 6)
             || (f.typ == 7 && x.authed && |f.payload| >= 4 && typ == 8)
    ensures var n, z := |x.outbuf|, Answer(c, x, f, []);
            && z.Some? && |z.value.outbuf| == n + 20 && z.value.outbuf[..n] == x.outbuf
            && Word(z.value.outbuf, n) == typ && Word(z.value.outbuf, n + 4) == z.value.nid
            && Word(z.value.outbuf, n + 8) == 0 && Word(z.value.outbuf, n + 12) == 0
  {
    hide Auth.CString, React, EncodeFrame, Sending, Word;
    ReactIs(c, x.authed, f);
    HeaderQueued(x, typ);
    if f.typ == 1 {
      HeaderQueued(x.(authed := true, gid := Word(f.payload, 0), nid := Word(f.payload, 52)), typ);
    }
  }

  /** Reading goes on frame by frame. It ends when no frame is complete, when the session is gone,
      and at an unsubscription that is short or comes before the login; wrong checksum bytes
      discard what is buffered. */
  lemma ServeStep(c: Config, p: Place, x: Session, t: Tables, out: nat -> Outside, n: nat, sent: seq<Message>)
    ensures var all := Serve(c, p, x, t, out, n, sent);
            match Pop(x.fb)
            case NeedMore => all == Reading(Some(x), n, sent, t, Drained)
            case Bad => all == Reading(Some(x.(fb := [])), n, sent, t, Drained)
            case Got(f, rest) =>
              var y := x.(fb := rest);
              var z := Answer(c, y, f, out(n).sends);
              var t', sent' := Routed(c, p, y, t, f, z), sent + Relayed(c, p, y, f, out(n).inbox);
              if z.None? then all == Reading(None, n + 1, sent', t', Gone)
              else if f.flag == 0 && f.typ == 7 && !(x.authed && |f.payload| >= 4) then
                all == Reading(z, n + 1, sent', t', Halted)
              else all == Serve(c, p, z.value, t', out, n + 1, sent')
  {
    hide Pop, React, Answer, Routed, Relayed, Auth.CString;
    if Pop(x.fb).Got? {
      ReactIs(c, x.authed, Pop(x.fb).frame);
    }
  }
}
