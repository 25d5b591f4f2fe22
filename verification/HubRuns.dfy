/** The full invariant holds in every reachable state of the hub. */
module HubRuns {
  import opened Bytes
  import opened HubModel
  import opened HubInvariant
  import opened HubLink
  import opened HubFlow
  import opened HubOrder
  import opened HubPublish

  ghost predicate FlowInv(c: Config, f: Flow)
    requires ValidConfig(c)
  {
    OrderOk(c, f) && AccountsOk(f.dst) && PublishesOk(c, f)
  }

  ghost predicate FullInv(c: Config, h: Hub)
    requires ValidConfig(c)
  {
    HubInv(c, h) && FlowInv(c, FlowAt(h, Forward)) && FlowInv(c, FlowAt(h, Backend))
  }

  // ---------- the start ----------

  lemma InitPair(c: Config, S: nat, D: nat)
    requires ValidConfig(c)
    ensures PairOk(c, Flow(InitPlane(c), InitLink(c), InitPlane(c)), S, D) && Accounted(InitPlane(c), S, D)
  {
    var s, k := InitPlane(c), InitLink(c);
    assert Out(s, S, D) == [];
    assert Tail(c, s, k, S, D) == [];
  }

  lemma InitFull(c: Config)
    requires ValidConfig(c)
    ensures FullInv(c, Init(c))
  {
    hide HubInv, PairOk, Accounted;
    InitOk(c);
    forall S: nat, D: nat
      ensures PairOk(c, Flow(InitPlane(c), InitLink(c), InitPlane(c)), S, D) && Accounted(InitPlane(c), S, D)
    {
      InitPair(c, S, D);
    }
  }

  // ---------- a plane action ----------

  lemma DestinationFlow(c: Config, f: Flow, a: PlaneAction)
    requires ValidConfig(c) && PlaneInv(c, f.src.log, f.dst) && PlaneEnabled(c, f.dst, a) && FlowInv(c, f)
    ensures FlowInv(c, f.(dst := PlaneStep(c, f.dst, a)))
  {
    hide PlaneInv, PlaneStep, PlaneEnabled, PairOk, Accounted, PublishesOk;
    PlaneActionEnqueues(c, f.src.log, f.dst, a);
    SamePublishes(c, f, f.(dst := PlaneStep(c, f.dst, a)));
    forall S: nat, D: nat
      ensures PairOk(c, f.(dst := PlaneStep(c, f.dst, a)), S, D) && Accounted(PlaneStep(c, f.dst, a), S, D)
    {
      DestinationOrder(c, f, a, S, D);
    }
  }

  lemma SourceFlow(c: Config, f: Flow, a: PlaneAction)
    requires ValidConfig(c) && PlaneInv(c, f.dst.log, f.src) && PlaneEnabled(c, f.src, a) && FlowInv(c, f)
    ensures FlowInv(c, f.(src := PlaneStep(c, f.src, a)))
  {
    hide PlaneInv, PlaneStep, PlaneEnabled, PairOk, Accounted, PublishesOk;
    SourcePublishes(c, f, a);
    forall S: nat, D: nat
      ensures PairOk(c, f.(src := PlaneStep(c, f.src, a)), S, D)
    {
      SourceOrder(c, f, a, S, D);
    }
  }

  // ---------- a link action ----------

  lemma LinkFlow(c: Config, dir: Dir, f: Flow, a: LinkAction)
    requires ValidConfig(c) && LinkEnabled(c, f, a) && FlowInv(c, f)
    requires PlaneInv(c, f.dst.log, f.src) && LinkOk(c, f.src.log, f.dst.log, f.link)
    ensures FlowInv(c, LinkStep(c, dir, f, a))
  {
    hide PlaneInv, LinkOk, LinkStep, LinkEnabled, PairOk, Accounted, PublishesOk;
    LinkActionPublishes(c, dir, f, a);
    forall S: nat, D: nat
      ensures PairOk(c, LinkStep(c, dir, f, a), S, D) && Accounted(LinkStep(c, dir, f, a).dst, S, D)
    {
      LinkActionOrder(c, dir, f, a, S, D);
    }
  }

  /** The opposite direction does not see a link action. */
  lemma OppositeFlow(c: Config, dir: Dir, f: Flow, a: LinkAction, g: Flow)
    requires ValidConfig(c) && LinkEnabled(c, f, a) && g.src == f.dst && g.dst == f.src && FlowInv(c, g)
    ensures FlowInv(c, g.(src := LinkStep(c, dir, f, a).dst, dst := LinkStep(c, dir, f, a).src))
  {
    hide LinkStep, LinkEnabled, PublishesOk, PairOk, Accounted, Out, PcProj;
    OppositePair(c, dir, f, a, 0, 0);
    var f' := LinkStep(c, dir, f, a);
    var g' := g.(src := f'.dst, dst := f'.src);
    forall S: nat, D: nat
      ensures PairOk(c, g', S, D) && Accounted(g'.dst, S, D)
    {
      assert PairOk(c, g, S, D) && Accounted(g.dst, S, D);
      OppositePair(c, dir, f, a, S, D);
      SamePair(c, g, g', S, D);
    }
    forall S: nat
      ensures PcProj(g'.src, S) == PcProj(g.src, S)
    {
      OppositePair(c, dir, f, a, S, 0);
    }
    SamePublishes(c, g, g');
  }

  /** A pair depends only on these parts of a flow. */
  lemma SamePair(c: Config, g: Flow, g': Flow, S: nat, D: nat)
    requires ValidConfig(c) && PairOk(c, g, S, D) && Accounted(g.dst, S, D)
    requires g'.link == g.link && g'.dst.egress == g.dst.egress && Out(g'.dst, S, D) == Out(g.dst, S, D)
    requires PcProj(g'.src, S) == PcProj(g.src, S) && g'.src.log == g.src.log
    ensures PairOk(c, g', S, D) && Accounted(g'.dst, S, D)
  {
    hide Out, Proj, PcProj, Inbox, Sound, Popped, Drops;
  }

  lemma OppositePair(c: Config, dir: Dir, f: Flow, a: LinkAction, S: nat, D: nat)
    requires ValidConfig(c) && LinkEnabled(c, f, a)
    ensures var f' := LinkStep(c, dir, f, a);
            && Out(f'.src, S, D) == Out(f.src, S, D) && f'.src.egress == f.src.egress
            && PcProj(f'.dst, S) == PcProj(f.dst, S) && f'.dst.log == f.dst.log
  {
    hide Delivered, Proj, HandProj, RecvPushLink, WorkerPop, Lookup, WorkerPushLink, WorkerPushEgress, RecvOutcome;
  }

  // ---------- all actions ----------

  lemma FullStep(c: Config, h: Hub, a: Action)
    requires ValidConfig(c) && FullInv(c, h) && Enabled(c, h, a)
    ensures FullInv(c, Step(c, h, a))
  {
    StepKeeps(c, h, a);
    hide PlaneInv, LinkOk, PlaneStep, PlaneEnabled, LinkStep, LinkEnabled, FlowInv;
    match a
    case OnPlane(d, p) =>
      if d.Forward? {
        SourceFlow(c, FlowAt(h, Forward), p);
        DestinationFlow(c, FlowAt(h, Backend), p);
      } else {
        SourceFlow(c, FlowAt(h, Backend), p);
        DestinationFlow(c, FlowAt(h, Forward), p);
      }
    case OnLink(d, k) =>
      LinkFlow(c, d, FlowAt(h, d), k);
      OppositeFlow(c, d, FlowAt(h, d), k, FlowAt(h, if d.Forward? then Backend else Forward));
  }

  lemma {:induction false} FullRun(c: Config, actions: seq<Action>)
    requires ValidConfig(c)
    ensures Run(c, actions).Some? ==> FullInv(c, Run(c, actions).value)
  {
    hide FullInv, Enabled, Step;
    if actions == [] {
      InitFull(c);
    } else if Run(c, actions).Some? {
      FullRun(c, actions[..|actions| - 1]);
      FullStep(c, Run(c, actions[..|actions| - 1]).value, actions[|actions| - 1]);
    }
  }

  /** Under every interleaving, every reachable state satisfies the full invariant. */
  lemma EveryReachableState(c: Config, h: Hub)
    requires ValidConfig(c) && Reachable(c, h)
    ensures FullInv(c, h)
  {
    hide FullInv;
    var actions :| Run(c, actions) == Some(h);
    FullRun(c, actions);
  }
}
