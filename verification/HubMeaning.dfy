/** What the hub decides, said in bytes of a frame, entries of the tables and plain numbers:
    the answer to a popped frame, the acknowledgement sent back, the recipients of a message and
    the worker it is handed to. */
module HubMeaning {
  import opened Bytes
  import opened Wire
  import Auth
  import ImHeader
  import opened Routing
  import opened HubModel
  import opened HubInvariant

  // ---------- what a frame makes the reactor do ----------

  /** Logging in takes a system frame of type 1 whose payload holds the configured user and
      password; it takes the identity from the first and the last word of the payload. */
  lemma GoodAuthIs(c: Config, f: Frame)
    ensures GoodAuth(c, f)
            == if f.flag == 0 && f.typ == 1 && |f.payload| >= 56
                  && Auth.CString(f.payload[4..36]) == c.user && Auth.CString(f.payload[36..52]) == c.pass
               then Some(Identity(Word(f.payload, 0), Word(f.payload, 52)))
               else None
  {
    Auth.DecodeLayout(f.payload);
    hide Word, Auth.CString;
  }

  /** The answer to every frame, on a session that has logged in or not. */
  lemma ReactIs(c: Config, authed: bool, f: Frame)
    ensures f.flag != 0 ==> React(c, authed, f) == if authed then Relay else Kick
    ensures f.flag == 0 && f.typ == 1 ==>
              React(c, authed, f)
              == if |f.payload| >= 56
                    && Auth.CString(f.payload[4..36]) == c.user && Auth.CString(f.payload[36..52]) == c.pass
                 then Login(Identity(Word(f.payload, 0), Word(f.payload, 52)))
                 else Kick
    ensures f.flag == 0 && f.typ == 3 ==> React(c, authed, f) == Keepalive
    ensures f.flag == 0 && f.typ == 5 ==>
              React(c, authed, f) == if authed && |f.payload| >= 4 then Sub(Word(f.payload, 0)) else Kick
    ensures f.flag == 0 && f.typ == 7 ==>
              React(c, authed, f) == if authed && |f.payload| >= 4 then Unsub(Word(f.payload, 0)) else Ignore
    ensures f.flag == 0 && f.typ !in {1, 3, 5, 7} ==> React(c, authed, f) == Ignore
  {
    GoodAuthIs(c, f);
    if |f.payload| >= 4 {
      FourDigits(f.payload[..4]);
    }
    hide FromBe32, GoodAuth, Auth.CString;
  }

  /** The hub reads a client's login off the wire and accepts it, with the client's own gid and
      node id, exactly when the user cut to 32 bytes and the password cut to 16, each up to its
      first zero, are the configured ones. Otherwise it closes the session. */
  lemma LoginAnswered(c: Config, authed: bool, gid: U32, user: seq<Byte>, passwd: seq<Byte>, nid: U32,
                      rest: seq<Byte>)
    ensures var o := Pop(Auth.EncodeAuthFrame(gid, user, passwd, nid) + rest);
            && o.Got? && o.rest == rest
            && React(c, authed, o.frame)
               == if Auth.CString(user[..Auth.Min(|user|, 32)]) == c.user
                     && Auth.CString(passwd[..Auth.Min(|passwd|, 16)]) == c.pass
                  then Login(Identity(gid, nid))
                  else Kick
  {
    Auth.AuthAcceptedIff(c.user, c.pass, gid, user, passwd, nid, rest);
    hide Pop, Auth.EncodeAuthFrame, Auth.CString, Auth.DecodeAuthPayload;
  }

  /** A subscription and its withdrawal name the command in the first word of the payload;
      whatever follows is ignored. Before the login the one closes the session and the other
      does nothing. */
  lemma SubscriptionAnswered(c: Config, nid: U32, cmd: U32, extra: seq<Byte>)
    ensures var sub, unsub := Frame(5, nid, 0, Be32(cmd) + extra), Frame(7, nid, 0, Be32(cmd) + extra);
            && React(c, true, sub) == Sub(cmd) && React(c, false, sub) == Kick
            && React(c, true, unsub) == Unsub(cmd) && React(c, false, unsub) == Ignore
  {
    Be32Inverse(cmd);
    hide FromBe32, Be32;
    assert (Be32(cmd) + extra)[..4] == Be32(cmd);
  }

  /** An acknowledgement is a bare header: its type, the node id of the session, flag zero. */
  lemma AckLayout(a: Ack, nid: U32)
    ensures var s := Encode(ItemFrame(AckItem(a, nid)));
            && |s| == 20 && Word(s, 4) == nid && Word(s, 8) == 0 && Word(s, 12) == 0
            && Word(s, 0) == match a
                             case AuthAck => 2
                             case KpaliveAck => 4
                             case SubAck(_) => 6
                             case UnsubAck(_) => 8
  {
    FrameLayout(AckType(a), nid, 0, []);
    hide EncodeFrame, Word;
  }

  // ---------- the login a session acts under ----------

  /** The frames of a session up to now hold a login, and the latest is the `j`-th. */
  ghost predicate LatestLogin(c: Config, fs: seq<Frame>, j: nat, gid: U32, nid: U32) {
    && j < |fs|
    && var p := fs[j].payload;
    && fs[j].flag == 0 && fs[j].typ == 1 && |p| >= 56
    && Auth.CString(p[4..36]) == c.user && Auth.CString(p[36..52]) == c.pass
    && gid == Word(p, 0) && nid == Word(p, 52)
    && forall i :: j < i < |fs| ==> !Credentials(c, fs[i])
  }

  /** A login frame with the configured user and password. */
  predicate Credentials(c: Config, f: Frame) {
    && f.flag == 0 && f.typ == 1 && |f.payload| >= 56
    && Auth.CString(f.payload[4..36]) == c.user && Auth.CString(f.payload[36..52]) == c.pass
  }

  lemma {:induction false} LatestLoginIs(c: Config, fs: seq<Frame>) returns (j: nat)
    requires GoodAuths(c, fs) != []
    ensures var logins := GoodAuths(c, fs);
            var who := logins[|logins| - 1];
            LatestLogin(c, fs, j, who.gid, who.nid)
  {
    hide Word, GoodAuth, Auth.CString;
    var n := |fs| - 1;
    GoodAuthIs(c, fs[n]);
    if GoodAuth(c, fs[n]).Some? {
      j := n;
    } else {
      j := LatestLoginIs(c, fs[..n]);
      assert !Credentials(c, fs[n]);
      forall i | j < i < |fs|
        ensures !Credentials(c, fs[i])
      {
        assert i < n ==> fs[i] == fs[..n][i];
      }
    }
  }

  // ---------- recipients ----------

  /** An uplink message goes to every entry of its command's list, in the order of the list. */
  lemma UplinkRecipients(t: Tables, m: Inbound)
    ensures var list, ts := if m.typ in t.subs then t.subs[m.typ] else [], Recipients(Forward, t, m);
            && |ts| == |list|
            && forall j :: 0 <= j < |list| ==>
                 ts[j].sid == list[j].sid && ts[j].reactor == list[j].reactor && ts[j].nid == list[j].nid
  {
  }

  /** A downlink message goes to the one session bound to the node id its IM header names, and
      to nobody when the header is missing, names node 0 or an unbound node. */
  lemma DownlinkRecipients(t: Tables, m: Inbound)
    ensures var dest := if |m.payload| >= 52 then Word(m.payload, 24) else 0;
            && (dest != 0 && dest in t.nids ==>
                  Recipients(Backend, t, m) == [Target(t.nids[dest].sid, t.nids[dest].reactor, dest)])
            && (dest == 0 || dest !in t.nids ==> Recipients(Backend, t, m) == [])
  {
    ImHeader.ReadLayout(m.payload);
    hide Word, ImHeader.ReadDestNid;
  }

  /** The frame for a recipient. The first attempt carries the message under the recipient's node
      id; a later one carries no bytes at all. */
  lemma FrameForRecipient(m: Inbound, published: bool, t: Target, attempt: nat)
    ensures var x := MakeFrame(m, published, t, attempt);
            && x.sid == t.sid && x.reactor == t.reactor
            && (attempt > 0 ==> x.bytes == [])
            && (attempt == 0 ==>
                  && |x.bytes| == 20 + |m.payload| && x.bytes[20..] == m.payload
                  && Word(x.bytes, 0) == m.typ && Word(x.bytes, 4) == t.nid && Word(x.bytes, 8) == 1)
  {
    FrameLayout(m.typ, t.nid, 1, m.payload);
    hide EncodeFrame, Word;
  }

  // ---------- workers ----------

  lemma RemainderIs(n: nat, q: int, r: nat)
    requires r < n
    ensures (n * q + r) % n == r
  {
    var x := n * q + r;
    var gap := q - x / n;
    assert (gap >= 1 ==> n * gap >= n) && (gap <= -1 ==> n * gap + n <= 0);
    assert n * gap == x % n - r by {
      assert n * gap == n * q - n * (x / n);
    }
  }

  lemma SameWorker(c: Config, sid: nat, k: nat)
    requires ValidConfig(c)
    ensures PickWorker(c, sid + k * c.workers) == PickWorker(c, sid)
  {
    var n, q := c.workers, sid / c.workers;
    assert sid + k * n == n * (q + k) + sid % n;
    RemainderIs(n, q + k, sid % n);
  }

  lemma OtherWorker(c: Config, sid: nat, gap: nat)
    requires ValidConfig(c) && 0 < gap < c.workers
    ensures PickWorker(c, sid + gap) != PickWorker(c, sid)
  {
    var n, q, r := c.workers, sid / c.workers, sid % c.workers;
    if r + gap < n {
      assert sid + gap == n * q + (r + gap);
      RemainderIs(n, q, r + gap);
    } else {
      assert sid + gap == n * (q + 1) + (r + gap - n);
      RemainderIs(n, q + 1, r + gap - n);
    }
  }

  /** Sessions are dealt out to the workers in turn: sessions a multiple of the number of
      workers apart share one, and fewer apart never do. */
  lemma WorkersInTurn(c: Config, sid: nat, k: nat, gap: nat)
    requires ValidConfig(c)
    ensures PickWorker(c, sid) < c.workers
    ensures PickWorker(c, sid + k * c.workers) == PickWorker(c, sid)
    ensures 0 < gap < c.workers ==> PickWorker(c, sid + gap) != PickWorker(c, sid)
  {
    hide PickWorker;
    SameWorker(c, sid, k);
    if 0 < gap < c.workers {
      OtherWorker(c, sid, gap);
    }
  }
}
