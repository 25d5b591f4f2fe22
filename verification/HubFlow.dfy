/** Order and conservation. For a source session S and a destination session D the
    frames from S to D are followed through every stage of the hub at once: the
    pipe of the pair is the sequence of their frame numbers, from those already
    in D's output (the head) back to those S's reactor is still handing over (the tail). */
module HubFlow {
  import opened Bytes
  import opened HubModel

  // ---------- the stages of a pair ----------

  function One(x: Outbound, S: nat, D: nat): seq<nat> {
    if x.sid == D && x.meta.src == S then [x.meta.frameNo] else []
  }

  function Proj(q: seq<Outbound>, S: nat, D: nat): seq<nat> {
    if q == [] then [] else One(q[0], S, D) + Proj(q[1..], S, D)
  }

  function HandProj(hand: Option<Held>, S: nat, D: nat): seq<nat> {
    match hand
    case None => []
    case Some(held) => One(held.frame, S, D)
  }

  function ItemOne(i: Item, S: nat, D: nat): seq<nat> {
    if i.BizItem? then One(i.frame, S, D) else []
  }

  function Delivered(st: seq<Item>, S: nat, D: nat): seq<nat> {
    if st == [] then [] else Delivered(st[..|st| - 1], S, D) + ItemOne(st[|st| - 1], S, D)
  }

  function Drops(ds: seq<Drop>, S: nat, D: nat): seq<nat> {
    if ds == [] then [] else Drops(ds[..|ds| - 1], S, D) + One(ds[|ds| - 1].frame, S, D)
  }

  function StreamOf(log: Log, D: nat): seq<Item> {
    if D in log then log[D].stream else []
  }

  /** The send queue of the reactor that owns D. */
  function QueueOf(log: Log, e: Egress, D: nat): seq<Outbound> {
    var r := if D in log then log[D].reactor else 0;
    if 0 <= r < |e.sendQ| then e.sendQ[r] else []
  }

  /** Frames from S to D that have reached the destination plane and were not dropped. */
  function Out(s: Plane, S: nat, D: nat): seq<nat> {
    Delivered(StreamOf(s.log, D), S, D) + Proj(QueueOf(s.log, s.egress, D), S, D)
    + HandProj(s.egress.hand, S, D) + Proj(s.egress.distQ, S, D)
  }

  function InboxProj(q: seq<Inbound>, S: nat): seq<nat> {
    if q == [] then [] else (if q[0].sid == S then [q[0].frameNo] else []) + InboxProj(q[1..], S)
  }

  predicate Aims(ts: seq<Target>, D: nat) {
    exists i :: 0 <= i < |ts| && ts[i].sid == D
  }

  /** A message taken but not yet looked up may still go to any session. */
  function WorkerProj(k: WorkerPc, S: nat, D: nat): seq<nat> {
    match k
    case Free => []
    case Taken(m) => if m.sid == S then [m.frameNo] else []
    case Fanout(m, _, todo, _, _) => if m.sid == S && Aims(todo, D) then [m.frameNo] else []
  }

  function PcProj(s: Plane, S: nat): seq<nat> {
    if S in s.log && 0 <= s.log[S].reactor < |s.reactors| then
      var pc := s.reactors[s.log[S].reactor].pc;
      if pc.Pushing? && pc.msg.sid == S then [pc.msg.frameNo] else []
    else []
  }

  function Inbox(c: Config, link: Link, S: nat, D: nat): seq<nat>
    requires ValidConfig(c)
  {
    var w := PickWorker(c, S);
    (if w < |link.workers| then WorkerProj(link.workers[w], S, D) else [])
    + (if w < |link.recvQ| then InboxProj(link.recvQ[w], S) else [])
  }

  /** Frames of S that have not reached the destination plane and may still go to D. */
  function Tail(c: Config, src: Plane, link: Link, S: nat, D: nat): seq<nat>
    requires ValidConfig(c)
  {
    Inbox(c, link, S, D) + PcProj(src, S)
  }

  // ---------- what the numbers stand for ----------

  predicate OfPair(x: Outbound, S: nat, D: nat, n: nat) {
    x.sid == D && x.meta.src == S && x.meta.frameNo == n
  }

  /** A number in the projection of a queue is a frame of S for D in that queue. */
  lemma {:induction false} ProjIff(q: seq<Outbound>, S: nat, D: nat, n: nat)
    ensures n in Proj(q, S, D) <==> exists i :: 0 <= i < |q| && OfPair(q[i], S, D, n)
  {
    if q != [] {
      ProjIff(q[1..], S, D, n);
      assert forall i :: 1 <= i < |q| ==> q[i] == q[1..][i - 1];
      if i :| 0 <= i < |q[1..]| && OfPair(q[1..][i], S, D, n) {
        assert OfPair(q[i + 1], S, D, n);
      }
    }
  }

  lemma {:induction false} DeliveredIff(st: seq<Item>, S: nat, D: nat, n: nat)
    ensures n in Delivered(st, S, D) <==> exists i :: 0 <= i < |st| && st[i].BizItem? && OfPair(st[i].frame, S, D, n)
  {
    if st != [] {
      var front := st[..|st| - 1];
      DeliveredIff(front, S, D, n);
      if i :| 0 <= i < |front| && front[i].BizItem? && OfPair(front[i].frame, S, D, n) {
        assert st[i].BizItem? && OfPair(st[i].frame, S, D, n);
      }
    }
  }

  lemma {:induction false} DropsIff(ds: seq<Drop>, S: nat, D: nat, n: nat)
    ensures n in Drops(ds, S, D) <==> exists i :: 0 <= i < |ds| && OfPair(ds[i].frame, S, D, n)
  {
    if ds != [] {
      var front := ds[..|ds| - 1];
      DropsIff(front, S, D, n);
      if i :| 0 <= i < |front| && OfPair(front[i].frame, S, D, n) {
        assert OfPair(ds[i].frame, S, D, n);
      }
    }
  }

  // ---------- what is claimed of a pipe ----------

  ghost predicate Increasing(p: seq<nat>) {
    forall i, j :: 0 <= i < j < |p| ==> p[i] < p[j]
  }

  ghost predicate Below(p: seq<nat>, n: nat) {
    forall i :: 0 <= i < |p| ==> p[i] < n
  }

  ghost predicate Sound(p: seq<nat>, n: nat) {
    Increasing(p) && Below(p, n)
  }

  function Popped(log: Log, S: nat): nat {
    if S in log then |log[S].handled| else 0
  }

  ghost predicate Follows(c: Config, head: seq<nat>, src: Plane, link: Link, S: nat, D: nat)
    requires ValidConfig(c)
  {
    Sound(head + Tail(c, src, link, S, D), Popped(src.log, S))
  }

  /** The pair's pipe is strictly increasing and below the number of frames popped from S;
      so is the record of what was ever enqueued, followed by what may still be. */
  ghost predicate PairOk(c: Config, f: Flow, S: nat, D: nat)
    requires ValidConfig(c)
  {
    && Follows(c, Out(f.dst, S, D), f.src, f.link, S, D)
    && Follows(c, Proj(f.dst.egress.enqueued, S, D), f.src, f.link, S, D)
  }

  ghost predicate OrderOk(c: Config, f: Flow)
    requires ValidConfig(c)
  {
    forall S: nat, D: nat :: PairOk(c, f, S, D)
  }

  /** Each frame ever enqueued for the pair is in exactly one stage or dropped exactly once. */
  ghost predicate Accounted(s: Plane, S: nat, D: nat) {
    multiset(Proj(s.egress.enqueued, S, D)) == multiset(Out(s, S, D)) + multiset(Drops(s.egress.dropped, S, D))
  }

  ghost predicate AccountsOk(s: Plane) {
    forall S: nat, D: nat :: Accounted(s, S, D)
  }

  // ---------- sequence facts ----------

  lemma {:induction false} ProjConcat(a: seq<Outbound>, b: seq<Outbound>, S: nat, D: nat)
    ensures Proj(a + b, S, D) == Proj(a, S, D) + Proj(b, S, D)
  {
    if a == [] {
      assert a + b == b;
    } else {
      assert (a + b)[1..] == a[1..] + b;
      ProjConcat(a[1..], b, S, D);
    }
  }

  lemma ProjSnoc(q: seq<Outbound>, x: Outbound, S: nat, D: nat)
    ensures Proj(q + [x], S, D) == Proj(q, S, D) + One(x, S, D)
  {
    ProjConcat(q, [x], S, D);
    assert [x][1..] == [];
    assert One(x, S, D) + [] == One(x, S, D);
  }

  lemma {:induction false} InboxSnoc(q: seq<Inbound>, m: Inbound, S: nat)
    ensures InboxProj(q + [m], S) == InboxProj(q, S) + (if m.sid == S then [m.frameNo] else [])
  {
    if q == [] {
      assert q + [m] == [m];
      assert [m][1..] == [];
    } else {
      var first, last := if q[0].sid == S then [q[0].frameNo] else [], if m.sid == S then [m.frameNo] else [];
      assert (q + [m])[1..] == q[1..] + [m];
      InboxSnoc(q[1..], m, S);
      assert InboxProj(q + [m], S) == first + (InboxProj(q[1..], S) + last);
    }
  }

  lemma DeliveredSnoc(st: seq<Item>, i: Item, S: nat, D: nat)
    ensures Delivered(st + [i], S, D) == Delivered(st, S, D) + ItemOne(i, S, D)
  {
    assert (st + [i])[..|st|] == st;
  }

  lemma DropsSnoc(ds: seq<Drop>, d: Drop, S: nat, D: nat)
    ensures Drops(ds + [d], S, D) == Drops(ds, S, D) + One(d.frame, S, D)
  {
    assert (ds + [d])[..|ds|] == ds;
  }

  lemma {:induction false} ProjAbsent(q: seq<Outbound>, S: nat, D: nat)
    requires forall i :: 0 <= i < |q| ==> q[i].sid != D
    ensures Proj(q, S, D) == []
  {
    if q != [] {
      ProjAbsent(q[1..], S, D);
    }
  }

  /** Leaving out one element keeps a pipe sound. */
  lemma SoundWithout(a: seq<nat>, x: seq<nat>, b: seq<nat>, n: nat)
    requires Sound(a + x + b, n)
    ensures Sound(a + b, n)
  {
    var p, q := a + x + b, a + b;
    forall i, j | 0 <= i < j < |q|
      ensures q[i] < q[j]
    {
      var i', j' := if i < |a| then i else i + |x|, if j < |a| then j else j + |x|;
      assert p[i'] == q[i] && p[j'] == q[j];
    }
    forall i | 0 <= i < |q|
      ensures q[i] < n
    {
      assert p[if i < |a| then i else i + |x|] == q[i];
    }
  }

  lemma SoundAppend(p: seq<nat>, n: nat)
    requires Sound(p, n)
    ensures Sound(p + [n], n + 1)
  {
  }

  lemma SoundRelax(p: seq<nat>, n: nat, m: nat)
    requires Sound(p, n) && n <= m
    ensures Sound(p, m)
  {
  }

  // ---------- one action at the destination ----------

  /** Either nothing happened to the pair at this plane, or one of its frames was
      taken out of the pipe and recorded as dropped. */
  ghost predicate Settled(s: Plane, t: Plane, S: nat, D: nat) {
    && t.egress.enqueued == s.egress.enqueued
    && ( || (Out(t, S, D) == Out(s, S, D) && Drops(t.egress.dropped, S, D) == Drops(s.egress.dropped, S, D))
         || exists k :: LostAt(s, t, S, D, k))
  }

  ghost predicate LostAt(s: Plane, t: Plane, S: nat, D: nat, k: nat) {
    && k < |Out(s, S, D)|
    && Out(t, S, D) == Out(s, S, D)[..k] + Out(s, S, D)[k + 1..]
    && Drops(t.egress.dropped, S, D) == Drops(s.egress.dropped, S, D) + [Out(s, S, D)[k]]
  }

  lemma SettledSound(s: Plane, t: Plane, S: nat, D: nat, rest: seq<nat>, n: nat)
    requires Settled(s, t, S, D) && Sound(Out(s, S, D) + rest, n)
    ensures Sound(Out(t, S, D) + rest, n)
  {
    hide Out, Drops;
    if Out(t, S, D) != Out(s, S, D) {
      var k: nat :| LostAt(s, t, S, D, k);
      var p := Out(s, S, D);
      assert p + rest == p[..k] + [p[k]] + (p[k + 1..] + rest);
      SoundWithout(p[..k], [p[k]], p[k + 1..] + rest, n);
      assert p[..k] + (p[k + 1..] + rest) == p[..k] + p[k + 1..] + rest;
    }
  }

  lemma SettledAccounted(s: Plane, t: Plane, S: nat, D: nat)
    requires Settled(s, t, S, D) && Accounted(s, S, D)
    ensures Accounted(t, S, D)
  {
    hide Out, Drops, Proj;
    if !(Out(t, S, D) == Out(s, S, D) && Drops(t.egress.dropped, S, D) == Drops(s.egress.dropped, S, D)) {
      var k: nat :| LostAt(s, t, S, D, k);
      var p := Out(s, S, D);
      assert p == p[..k] + [p[k]] + p[k + 1..];
    }
  }

  /** Nothing changes for a pair when neither the queues nor D's output and owner change. */
  lemma Untouched(s: Plane, t: Plane, S: nat, D: nat)
    requires t.egress == s.egress && StreamOf(t.log, D) == StreamOf(s.log, D)
    requires QueueOf(t.log, t.egress, D) == QueueOf(s.log, s.egress, D)
    ensures Settled(s, t, S, D)
  {
    hide Delivered, Proj, HandProj, Drops;
  }
}
