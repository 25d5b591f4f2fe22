/** What publishing means under every interleaving: the frames enqueued for a message are for the
    recipients of one lookup, in their order, up to the one the worker is busy with. */
module HubPublish {
  import opened Wire
  import opened HubModel
  import opened HubInvariant
  import opened HubLink
  import opened HubFlow
  import opened HubFlowSteps
  import opened HubOrder

  // ---------- the frames of one message ----------

  predicate From(x: Outbound, S: nat, n: nat) {
    x.meta.src == S && x.meta.frameNo == n
  }

  /** The frames made from frame `n` of session S, in the order they were enqueued. */
  function MadeFrom(q: seq<Outbound>, S: nat, n: nat): seq<Outbound> {
    if q == [] then []
    else MadeFrom(q[..|q| - 1], S, n) + if From(q[|q| - 1], S, n) then [q[|q| - 1]] else []
  }

  /** The frame is the message for this recipient, emptied if its push had to be retried. */
  predicate CopyFor(x: Outbound, m: Inbound, published: bool, t: Target) {
    x == MakeFrame(m, published, t, if x.meta.retried then 1 else 0)
  }

  /** One frame per recipient, in order, and no other frame of the message. */
  ghost predicate Served(enqueued: seq<Outbound>, m: Inbound, published: bool, ts: seq<Target>) {
    var made := MadeFrom(enqueued, m.sid, m.frameNo);
    |made| == |ts| && forall i :: 0 <= i < |ts| ==> CopyFor(made[i], m, published, ts[i])
  }

  /** The frames of a served message, recipient by recipient. */
  lemma ServedIs(enqueued: seq<Outbound>, m: Inbound, published: bool, ts: seq<Target>)
    requires Served(enqueued, m, published, ts)
    ensures var made := MadeFrom(enqueued, m.sid, m.frameNo);
            && |made| == |ts|
            && forall j :: 0 <= j < |ts| ==>
                 && made[j].sid == ts[j].sid && made[j].reactor == ts[j].reactor
                 && made[j].bytes == if made[j].meta.retried then [] else EncodeFrame(m.typ, ts[j].nid, 1, m.payload)
  {
    hide EncodeFrame, MadeFrom;
  }

  ghost predicate FanoutOk(k: WorkerPc, enqueued: seq<Outbound>) {
    k.Fanout? ==>
      && k.attempt <= MAX_RETRIES && |k.todo| <= |k.all| && k.todo == k.all[Done(k)..]
      && Served(enqueued, k.msg, k.published, k.all[..Done(k)])
  }

  ghost predicate FanoutsOk(link: Link, enqueued: seq<Outbound>) {
    forall w :: 0 <= w < |link.workers| ==> FanoutOk(link.workers[w], enqueued)
  }

  lemma MadeFromSnoc(q: seq<Outbound>, x: Outbound, S: nat, n: nat)
    ensures MadeFrom(q + [x], S, n) == MadeFrom(q, S, n) + if From(x, S, n) then [x] else []
  {
    assert (q + [x])[..|q|] == q;
  }

  // ---------- a lookup starts with nothing enqueued ----------

  lemma {:induction false} MadeFromProj(q: seq<Outbound>, S: nat, n: nat) returns (D: nat)
    requires MadeFrom(q, S, n) != []
    ensures n in Proj(q, S, D)
  {
    var front, x := q[..|q| - 1], q[|q| - 1];
    assert q == front + [x];
    if From(x, S, n) {
      D := x.sid;
    } else {
      D := MadeFromProj(front, S, n);
    }
    ProjSnoc(front, x, S, D);
  }

  lemma NotTwice(p: seq<nat>, n: nat, rest: seq<nat>, bound: nat)
    requires n in p
    ensures !Sound(p + ([n] + rest), bound)
  {
    var i :| 0 <= i < |p| && p[i] == n;
    var all := p + ([n] + rest);
    assert all[i] == n && all[|p|] == n;
  }

  /** No frame of a message is enqueued before its recipients are looked up. */
  lemma NothingYet(c: Config, f: Flow, w: nat)
    requires ValidConfig(c) && CanLookup(f.link, w) && LinkOk(c, f.src.log, f.dst.log, f.link) && OrderOk(c, f)
    ensures var m := f.link.workers[w].msg; MadeFrom(f.dst.egress.enqueued, m.sid, m.frameNo) == []
  {
    hide InboxOk, MsgOk, Sound, InboxProj, PcProj, Proj, MadeFrom, Out;
    var m, q := f.link.workers[w].msg, f.dst.egress.enqueued;
    assert WorkerOk(c, f.src.log, f.dst.log, w, f.link.workers[w]);
    if MadeFrom(q, m.sid, m.frameNo) != [] {
      var D := MadeFromProj(q, m.sid, m.frameNo);
      assert PairOk(c, f, m.sid, D);
      var inbox, pc := InboxProj(f.link.recvQ[w], m.sid), PcProj(f.src, m.sid);
      assert Tail(c, f.src, f.link, m.sid, D) == [m.frameNo] + inbox + pc;
      assert [m.frameNo] + inbox + pc == [m.frameNo] + (inbox + pc);
      NotTwice(Proj(q, m.sid, D), m.frameNo, inbox + pc, Popped(f.src.log, m.sid));
    }
  }

  lemma LookupFanouts(c: Config, dir: Dir, f: Flow, w: nat)
    requires ValidConfig(c) && CanLookup(f.link, w) && LinkOk(c, f.src.log, f.dst.log, f.link) && OrderOk(c, f)
    requires FanoutsOk(f.link, f.dst.egress.enqueued)
    ensures FanoutsOk(Lookup(dir, f.link, w, f.dst.tables), f.dst.egress.enqueued)
  {
    hide LinkOk, OrderOk, MadeFrom, CopyFor, Recipients;
    NothingYet(c, f, w);
    forall v | 0 <= v < |f.link.workers|
      ensures FanoutOk(Lookup(dir, f.link, w, f.dst.tables).workers[v], f.dst.egress.enqueued)
    {
      assert FanoutOk(f.link.workers[v], f.dst.egress.enqueued);
    }
  }

  // ---------- a push serves the next recipient ----------

  lemma PushCopies(m: Inbound, published: bool, t: Target, attempt: nat)
    ensures var x := MakeFrame(m, published, t, attempt); CopyFor(x, m, published, t) && From(x, m.sid, m.frameNo)
  {
  }

  lemma ServedSnoc(q: seq<Outbound>, x: Outbound, m: Inbound, published: bool, ts: seq<Target>, t: Target)
    requires Served(q, m, published, ts) && CopyFor(x, m, published, t) && From(x, m.sid, m.frameNo)
    ensures Served(q + [x], m, published, ts + [t])
  {
    hide CopyFor, MadeFrom;
    MadeFromSnoc(q, x, m.sid, m.frameNo);
  }

  /** The worker's own message. */
  lemma PushServes(c: Config, link: Link, w: nat, e: Egress)
    requires CanWorkerPush(link, w) && FanoutOk(link.workers[w], e.enqueued)
    ensures FanoutOk(WorkerPushLink(c, link, w, e).workers[w], WorkerPushEgress(c, link, w, e).enqueued)
    ensures WorkerOutcome(c, link, w, e).Pushed? ==>
              var k := link.workers[w];
              Served(WorkerPushEgress(c, link, w, e).enqueued, k.msg, k.published, k.all[..Done(k) + 1])
  {
    hide Served, MakeFrame;
    var k := link.workers[w];
    if WorkerOutcome(c, link, w, e).Pushed? {
      var n := Done(k);
      PushCopies(k.msg, k.published, k.todo[0], k.attempt);
      ServedSnoc(e.enqueued, MakeFrame(k.msg, k.published, k.todo[0], k.attempt), k.msg, k.published, k.all[..n],
                 k.todo[0]);
      assert k.all[..n] + [k.todo[0]] == k.all[..n + 1];
      assert k.todo[1..] == k.all[n + 1..];
    }
  }

  /** Another worker's message is another session's. */
  lemma OthersUnserved(k: WorkerPc, q: seq<Outbound>, x: Outbound)
    requires FanoutOk(k, q) && (k.Fanout? ==> x.meta.src != k.msg.sid)
    ensures FanoutOk(k, q + [x])
  {
    if k.Fanout? {
      MadeFromSnoc(q, x, k.msg.sid, k.msg.frameNo);
    }
  }

  lemma PushFanouts(c: Config, f: Flow, w: nat)
    requires ValidConfig(c) && CanWorkerPush(f.link, w) && LinkOk(c, f.src.log, f.dst.log, f.link)
    requires FanoutsOk(f.link, f.dst.egress.enqueued)
    ensures FanoutsOk(WorkerPushLink(c, f.link, w, f.dst.egress), WorkerPushEgress(c, f.link, w, f.dst.egress).enqueued)
  {
    hide FanoutOk, InboxOk, MsgOk, TargetsOk;
    var e := f.dst.egress;
    var k, e' := f.link.workers[w], WorkerPushEgress(c, f.link, w, e);
    assert WorkerOk(c, f.src.log, f.dst.log, w, k);
    PushServes(c, f.link, w, e);
    forall v | 0 <= v < |f.link.workers| && v != w
      ensures FanoutOk(f.link.workers[v], e'.enqueued)
    {
      assert WorkerOk(c, f.src.log, f.dst.log, v, f.link.workers[v]);
      if WorkerOutcome(c, f.link, w, e).Pushed? {
        OthersUnserved(f.link.workers[v], e.enqueued, MakeFrame(k.msg, k.published, k.todo[0], k.attempt));
      }
    }
  }

  // ---------- messages done with ----------

  predicate HoldsMsg(k: WorkerPc, S: nat, n: nat) {
    !k.Free? && k.msg.sid == S && k.msg.frameNo == n
  }

  /** Frame `n` of session S is with its reactor, in its worker's queue, or in its worker's hand. */
  ghost predicate InPlay(c: Config, src: Plane, link: Link, S: nat, n: nat)
    requires ValidConfig(c)
  {
    var w := PickWorker(c, S);
    || (w < |link.workers| && HoldsMsg(link.workers[w], S, n))
    || (w < |link.recvQ| && n in InboxProj(link.recvQ[w], S))
    || n in PcProj(src, S)
  }

  /** Popped, and not on its way any more. */
  ghost predicate Past(c: Config, src: Plane, link: Link, S: nat, n: nat)
    requires ValidConfig(c)
  {
    n < Popped(src.log, S) && !InPlay(c, src, link, S, n)
  }

  ghost predicate FinishedOk(c: Config, f: Flow, x: Finished)
    requires ValidConfig(c)
  {
    && x.served <= |x.all|
    && Served(f.dst.egress.enqueued, x.msg, x.published, x.all[..x.served])
    && Past(c, f.src, f.link, x.msg.sid, x.msg.frameNo)
  }

  ghost predicate PublishesOk(c: Config, f: Flow)
    requires ValidConfig(c)
  {
    && FanoutsOk(f.link, f.dst.egress.enqueued)
    && forall i :: 0 <= i < |f.link.finished| ==> FinishedOk(c, f, f.link.finished[i])
  }

  lemma SourceIsPast(c: Config, s: Plane, t: Plane, link: Link, S: nat, n: nat)
    requires ValidConfig(c) && SourceStep(s, t, S) && Past(c, s, link, S, n)
    ensures Past(c, t, link, S, n)
  {
    hide PcProj, Popped, InboxProj, PickWorker;
  }

  /** A receive push moves a message from the reactor to the queue. */
  lemma RecvMoves(c: Config, src: Plane, link: Link, r: nat, S: nat, n: nat)
    requires ValidConfig(c) && CanRecvPush(c, src, link, r) && PickWorker(c, S) < |link.recvQ|
    ensures var m, link', w := src.reactors[r].pc.msg, RecvPushLink(c, src, link, r), PickWorker(c, S);
            && link'.workers == link.workers && link'.finished == link.finished && |link'.recvQ| == |link.recvQ|
            && (n in InboxProj(link'.recvQ[w], S) ==>
                n in InboxProj(link.recvQ[w], S) || (S == m.sid && n == m.frameNo))
  {
    hide PickWorker, InboxProj, RecvOutcome;
    var pc := src.reactors[r].pc;
    InboxSnoc(link.recvQ[PickWorker(c, pc.msg.sid)], InboundAfterRetries(pc.msg, pc.attempt), S);
  }

  lemma RecvIsPast(c: Config, peer: Log, src: Plane, link: Link, r: nat, S: nat, n: nat)
    requires ValidConfig(c) && PlaneInv(c, peer, src) && CanRecvPush(c, src, link, r) && Past(c, src, link, S, n)
    ensures Past(c, RecvPushPlane(c, src, link, r), RecvPushLink(c, src, link, r), S, n)
  {
    hide PlaneInv, PcProj, InboxProj, RecvPushLink, RecvOutcome, PickWorker;
    PushingOwner(c, peer, src, r);
    RecvPc(c, src, link, r, S);
    if PickWorker(c, S) < |link.recvQ| {
      RecvMoves(c, src, link, r, S, n);
    } else {
      RecvElsewhere(c, src, link, r);
    }
  }

  lemma RecvElsewhere(c: Config, src: Plane, link: Link, r: nat)
    requires ValidConfig(c) && CanRecvPush(c, src, link, r)
    ensures var link' := RecvPushLink(c, src, link, r); link'.workers == link.workers && |link'.recvQ| == |link.recvQ|
  {
  }

  lemma PopIsPast(c: Config, src: Plane, link: Link, w: nat, S: nat, n: nat)
    requires ValidConfig(c) && CanWorkerPop(link, w) && Past(c, src, link, S, n)
    ensures Past(c, src, WorkerPop(link, w), S, n)
  {
    hide PcProj, PickWorker, InboxProj, Popped;
    InboxHead(link.recvQ[w], S);
  }

  /** A worker that keeps its message or lets go of it. */
  lemma WorkerIsPast(c: Config, src: Plane, link: Link, link': Link, w: nat, S: nat, n: nat)
    requires ValidConfig(c) && w < |link.workers| && w < |link'.workers| && Past(c, src, link, S, n)
    requires link'.workers == link.workers[w := link'.workers[w]] && link'.recvQ == link.recvQ
    requires link'.workers[w].Free? || (!link.workers[w].Free? && link'.workers[w].msg == link.workers[w].msg)
    ensures Past(c, src, link', S, n)
  {
    hide PcProj, PickWorker, InboxProj, Popped;
  }

  /** The message a worker lets go of is nowhere else. */
  lemma LetGoIsPast(c: Config, f: Flow, link': Link, w: nat, D: nat)
    requires ValidConfig(c) && w < |f.link.workers| && LinkOk(c, f.src.log, f.dst.log, f.link)
    requires var k := f.link.workers[w]; k.Taken? || (k.Fanout? && Aims(k.todo, D))
    requires PairOk(c, f, f.link.workers[w].msg.sid, D)
    requires link'.workers == f.link.workers[w := Free] && link'.recvQ == f.link.recvQ
    ensures Past(c, f.src, link', f.link.workers[w].msg.sid, f.link.workers[w].msg.frameNo)
  {
    hide InboxOk, MsgOk, TargetsOk, InboxProj, PcProj, Proj, Out, Aims;
    var m := f.link.workers[w].msg;
    assert WorkerOk(c, f.src.log, f.dst.log, w, f.link.workers[w]);
    var inbox, pc := InboxProj(f.link.recvQ[w], m.sid), PcProj(f.src, m.sid);
    assert Tail(c, f.src, f.link, m.sid, D) == [m.frameNo] + inbox + pc;
    assert [m.frameNo] + inbox + pc == [m.frameNo] + (inbox + pc);
    OnlyFirst(Out(f.dst, m.sid, D), m.frameNo, inbox + pc, Popped(f.src.log, m.sid));
    assert forall n :: n in inbox || n in pc ==> n in inbox + pc;
  }

  lemma OnlyFirst(p: seq<nat>, n: nat, rest: seq<nat>, bound: nat)
    requires Sound(p + ([n] + rest), bound)
    ensures n !in rest && n < bound
  {
    var all := p + ([n] + rest);
    assert all[|p|] == n;
    forall i | 0 <= i < |rest|
      ensures rest[i] != n
    {
      assert all[|p| + 1 + i] == rest[i];
    }
  }

  /** A frame of a message in a worker's hand is no frame of one done with. */
  lemma StaysServed(c: Config, f: Flow, x: Finished, y: Outbound, w: nat)
    requires ValidConfig(c) && FinishedOk(c, f, x) && LinkOk(c, f.src.log, f.dst.log, f.link)
    requires w < |f.link.workers| && HoldsMsg(f.link.workers[w], y.meta.src, y.meta.frameNo)
    ensures Served(f.dst.egress.enqueued + [y], x.msg, x.published, x.all[..x.served])
  {
    hide InboxOk, MsgOk, TargetsOk, CopyFor, MadeFrom, InboxProj, PcProj;
    assert WorkerOk(c, f.src.log, f.dst.log, w, f.link.workers[w]);
    MadeFromSnoc(f.dst.egress.enqueued, y, x.msg.sid, x.msg.frameNo);
  }

  lemma LookupFinished(c: Config, dir: Dir, f: Flow, w: nat)
    requires ValidConfig(c) && CanLookup(f.link, w) && LinkOk(c, f.src.log, f.dst.log, f.link) && OrderOk(c, f)
    requires PublishesOk(c, f)
    ensures PublishesOk(c, f.(link := Lookup(dir, f.link, w, f.dst.tables)))
  {
    hide LinkOk, FanoutsOk, Past, MadeFrom, CopyFor, Recipients, PairOk;
    LookupFanouts(c, dir, f, w);
    var m, f' := f.link.workers[w].msg, f.(link := Lookup(dir, f.link, w, f.dst.tables));
    NothingYet(c, f, w);
    if f'.link.workers[w].Free? {
      assert PairOk(c, f, m.sid, 0);
      LetGoIsPast(c, f, f'.link, w, 0);
    }
    forall i | 0 <= i < |f.link.finished|
      ensures FinishedOk(c, f', f.link.finished[i])
    {
      var x := f.link.finished[i];
      assert FinishedOk(c, f, x);
      WorkerIsPast(c, f.src, f.link, f'.link, w, x.msg.sid, x.msg.frameNo);
    }
  }

  lemma PushFinished(c: Config, f: Flow, w: nat)
    requires ValidConfig(c) && CanWorkerPush(f.link, w) && LinkOk(c, f.src.log, f.dst.log, f.link) && OrderOk(c, f)
    requires PublishesOk(c, f)
    ensures PublishesOk(c, f.(link := WorkerPushLink(c, f.link, w, f.dst.egress),
                              dst := f.dst.(egress := WorkerPushEgress(c, f.link, w, f.dst.egress))))
  {
    hide LinkOk, FanoutsOk, FinishedOk, OrderOk;
    PushFanouts(c, f, w);
    var f' := f.(link := WorkerPushLink(c, f.link, w, f.dst.egress),
                 dst := f.dst.(egress := WorkerPushEgress(c, f.link, w, f.dst.egress)));
    forall i | 0 <= i < |f.link.finished|
      ensures FinishedOk(c, f', f.link.finished[i])
    {
      PushKeepsFinished(c, f, w, f.link.finished[i]);
    }
    if f'.link.workers[w].Free? {
      assert FanoutOk(f.link.workers[w], f.dst.egress.enqueued) by { OneFanout(f.link, f.dst.egress.enqueued, w); }
      PushFinishes(c, f, w);
    }
  }

  lemma OneFanout(link: Link, enqueued: seq<Outbound>, w: nat)
    requires FanoutsOk(link, enqueued) && w < |link.workers|
    ensures FanoutOk(link.workers[w], enqueued)
  {
  }

  /** Messages done with stay as they are when a worker pushes. */
  lemma PushKeepsFinished(c: Config, f: Flow, w: nat, x: Finished)
    requires ValidConfig(c) && CanWorkerPush(f.link, w) && LinkOk(c, f.src.log, f.dst.log, f.link)
             && FinishedOk(c, f, x)
    ensures FinishedOk(c, f.(link := WorkerPushLink(c, f.link, w, f.dst.egress),
                             dst := f.dst.(egress := WorkerPushEgress(c, f.link, w, f.dst.egress))), x)
  {
    hide LinkOk, Served, Past, MakeFrame;
    var e, k := f.dst.egress, f.link.workers[w];
    var y := MakeFrame(k.msg, k.published, k.todo[0], k.attempt);
    if WorkerOutcome(c, f.link, w, e).Pushed? {
      PushCopies(k.msg, k.published, k.todo[0], k.attempt);
      StaysServed(c, f, x, y, w);
    }
    WorkerIsPast(c, f.src, f.link, WorkerPushLink(c, f.link, w, e), w, x.msg.sid, x.msg.frameNo);
  }

  /** The message a worker has just finished with. */
  lemma PushFinishes(c: Config, f: Flow, w: nat)
    requires ValidConfig(c) && CanWorkerPush(f.link, w) && LinkOk(c, f.src.log, f.dst.log, f.link) && OrderOk(c, f)
    requires FanoutOk(f.link.workers[w], f.dst.egress.enqueued)
    requires WorkerPushLink(c, f.link, w, f.dst.egress).workers[w].Free?
    ensures var f' := f.(link := WorkerPushLink(c, f.link, w, f.dst.egress),
                         dst := f.dst.(egress := WorkerPushEgress(c, f.link, w, f.dst.egress)));
            && f'.link.finished != [] && FinishedOk(c, f', f'.link.finished[|f'.link.finished| - 1])
  {
    hide LinkOk, Served, Past, MakeFrame, PairOk;
    var k := f.link.workers[w];
    PushServes(c, f.link, w, f.dst.egress);
    assert Aims(k.todo, k.todo[0].sid);
    assert PairOk(c, f, k.msg.sid, k.todo[0].sid);
    LetGoIsPast(c, f, WorkerPushLink(c, f.link, w, f.dst.egress), w, k.todo[0].sid);
  }

  // ---------- every action ----------

  lemma LinkActionPublishes(c: Config, dir: Dir, f: Flow, a: LinkAction)
    requires ValidConfig(c) && LinkEnabled(c, f, a) && PlaneInv(c, f.dst.log, f.src)
    requires LinkOk(c, f.src.log, f.dst.log, f.link) && OrderOk(c, f) && PublishesOk(c, f)
    ensures PublishesOk(c, LinkStep(c, dir, f, a))
  {
    hide PlaneInv, LinkOk, OrderOk, FanoutOk, Lookup, WorkerPushLink, WorkerPushEgress, RecvOutcome, Past, Served,
         PublishesOk;
    match a
    case ARecvPush(r) => RecvPublishes(c, f, r);
    case AWorkerPop(w) => PopPublishes(c, f, w);
    case ALookup(w) => LookupFinished(c, dir, f, w);
    case AWorkerPush(w) => PushFinished(c, f, w);
  }

  lemma RecvPublishes(c: Config, f: Flow, r: nat)
    requires ValidConfig(c) && CanRecvPush(c, f.src, f.link, r) && PlaneInv(c, f.dst.log, f.src) && PublishesOk(c, f)
    ensures PublishesOk(c, f.(src := RecvPushPlane(c, f.src, f.link, r), link := RecvPushLink(c, f.src, f.link, r)))
  {
    hide PlaneInv, FanoutOk, Past, Served, RecvPushPlane, RecvOutcome;
    var f' := f.(src := RecvPushPlane(c, f.src, f.link, r), link := RecvPushLink(c, f.src, f.link, r));
    forall i | 0 <= i < |f.link.finished|
      ensures FinishedOk(c, f', f.link.finished[i])
    {
      var x := f.link.finished[i];
      assert FinishedOk(c, f, x);
      RecvIsPast(c, f.dst.log, f.src, f.link, r, x.msg.sid, x.msg.frameNo);
    }
  }

  lemma PopPublishes(c: Config, f: Flow, w: nat)
    requires ValidConfig(c) && CanWorkerPop(f.link, w) && PublishesOk(c, f)
    ensures PublishesOk(c, f.(link := WorkerPop(f.link, w)))
  {
    hide FanoutOk, Past, Served;
    var f' := f.(link := WorkerPop(f.link, w));
    TakenFanout(f.link, w, f.dst.egress.enqueued);
    forall i | 0 <= i < |f.link.finished|
      ensures FinishedOk(c, f', f.link.finished[i])
    {
      var x := f.link.finished[i];
      assert FinishedOk(c, f, x);
      PopIsPast(c, f.src, f.link, w, x.msg.sid, x.msg.frameNo);
    }
  }

  lemma TakenFanout(link: Link, w: nat, q: seq<Outbound>)
    requires CanWorkerPop(link, w)
    ensures FanoutOk(WorkerPop(link, w).workers[w], q)
  {
  }

  lemma PlaneActionEnqueues(c: Config, src: Log, s: Plane, a: PlaneAction)
    requires PlaneInv(c, src, s) && PlaneEnabled(c, s, a)
    ensures PlaneStep(c, s, a).egress.enqueued == s.egress.enqueued
  {
    hide PlaneInv, PlaneStep, PlaneEnabled, Out, Drops;
    PlaneSettled(c, src, s, a, 0, 0);
  }

  /** An action of the source plane. */
  lemma SourcePublishes(c: Config, f: Flow, a: PlaneAction)
    requires ValidConfig(c) && PlaneInv(c, f.dst.log, f.src) && PlaneEnabled(c, f.src, a) && PublishesOk(c, f)
    ensures PublishesOk(c, f.(src := PlaneStep(c, f.src, a)))
  {
    hide PlaneInv, PlaneStep, PlaneEnabled, FanoutsOk, Past, Served, SourceStep;
    var f' := f.(src := PlaneStep(c, f.src, a));
    forall i | 0 <= i < |f.link.finished|
      ensures FinishedOk(c, f', f.link.finished[i])
    {
      var x := f.link.finished[i];
      assert FinishedOk(c, f, x);
      PlaneSource(c, f.dst.log, f.src, a, x.msg.sid);
      SourceIsPast(c, f.src, f'.src, f.link, x.msg.sid, x.msg.frameNo);
    }
  }

  /** What the publishes of a flow depend on. */
  lemma SamePublishes(c: Config, g: Flow, g': Flow)
    requires ValidConfig(c) && PublishesOk(c, g) && g'.link == g.link && g'.dst.egress.enqueued == g.dst.egress.enqueued
    requires g'.src.log == g.src.log && forall S :: PcProj(g'.src, S) == PcProj(g.src, S)
    ensures PublishesOk(c, g')
  {
    hide FanoutsOk, Served, PcProj, PickWorker, InboxProj;
    forall i | 0 <= i < |g.link.finished|
      ensures FinishedOk(c, g', g.link.finished[i])
    {
      assert FinishedOk(c, g, g.link.finished[i]);
    }
  }
}
