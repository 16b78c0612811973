/** Conservation of solutions over whole runs: what the leader accepted is held by regions or in
    flight. Bags are compared by counting one arbitrary solution `x`. */
module Conservation {
  import opened Analyser
  import opened Options
  import opened Regions
  import opened RegionSelector
  import opened Messages
  import opened Leader
  import opened RegionActors
  import opened Protocol
  import opened ProtocolRuns

  // ----- how often a state holds a solution

  function Count(s: seq<Solution>, x: Solution): nat {
    multiset(s)[x]
  }

  function InFlight(m: RegionMessage, x: Solution): nat {
    Count(Payload(m), x)
  }

  function ToLeader(m: LeaderMessage, x: Solution): nat {
    if m.RegionSplit? then Count(m.lower, x) + Count(m.higher, x) else 0
  }

  function InboxCount(inbox: seq<RegionMessage>, x: Solution): nat {
    if inbox == [] then 0 else InboxCount(inbox[..|inbox| - 1], x) + InFlight(inbox[|inbox| - 1], x)
  }

  function OutboxCount(outbox: seq<LeaderMessage>, x: Solution): nat {
    if outbox == [] then 0 else OutboxCount(outbox[..|outbox| - 1], x) + ToLeader(outbox[|outbox| - 1], x)
  }

  function LifeCount(life: Option<seq<Solution>>, x: Solution): nat {
    if life.Some? then Count(life.value, x) else 0
  }

  function NodeCount(node: Node, x: Solution): nat {
    LifeCount(node.life, x) + InboxCount(node.inbox, x) + OutboxCount(node.outbox, x)
  }

  /** How often `x` is held by a region or carried by a message in flight. */
  function Held(nodes: seq<Node>, x: Solution): nat {
    if nodes == [] then 0 else Held(nodes[..|nodes| - 1], x) + NodeCount(nodes[|nodes| - 1], x)
  }

  function SentCount(envelopes: seq<Envelope>, x: Solution): nat {
    if envelopes == [] then 0
    else
      SentCount(envelopes[..|envelopes| - 1], x) + EnvelopeCount(envelopes[|envelopes| - 1], x)
  }

  function EnvelopeCount(e: Envelope, x: Solution): nat {
    if e.ToRegion? then InFlight(e.message, x) else 0
  }

  lemma CountAppend(a: seq<Solution>, b: seq<Solution>, x: Solution)
    ensures Count(a + b, x) == Count(a, x) + Count(b, x)
    ensures Count([], x) == 0
  {
  }

  lemma {:induction false} InboxConcat(a: seq<RegionMessage>, b: seq<RegionMessage>, x: Solution)
    ensures InboxCount(a + b, x) == InboxCount(a, x) + InboxCount(b, x)
  {
    if b == [] {
      assert a + b == a;
    } else {
      InboxConcat(a, b[..|b| - 1], x);
      assert (a + b)[..|a + b| - 1] == a + b[..|b| - 1];
    }
  }

  lemma {:induction false} OutboxConcat(a: seq<LeaderMessage>, b: seq<LeaderMessage>, x: Solution)
    ensures OutboxCount(a + b, x) == OutboxCount(a, x) + OutboxCount(b, x)
  {
    if b == [] {
      assert a + b == a;
    } else {
      OutboxConcat(a, b[..|b| - 1], x);
      assert (a + b)[..|a + b| - 1] == a + b[..|b| - 1];
    }
  }

  lemma InboxOne(m: RegionMessage, x: Solution)
    ensures InboxCount([m], x) == InFlight(m, x)
  {
    assert [m][..0] == [];
  }

  lemma OutboxOne(m: LeaderMessage, x: Solution)
    ensures OutboxCount([m], x) == ToLeader(m, x)
  {
    assert [m][..0] == [];
  }

  lemma InboxWithout(inbox: seq<RegionMessage>, k: nat, x: Solution)
    requires k < |inbox|
    ensures InboxCount(inbox, x) == InboxCount(Without(inbox, k), x) + InFlight(inbox[k], x)
  {
    hide InboxCount, InFlight;
    var a, m, b := inbox[..k], inbox[k], inbox[k + 1..];
    InboxConcat(a + [m], b, x);
    InboxConcat(a, [m], x);
    InboxConcat(a, b, x);
    InboxOne(m, x);
    assert inbox == a + [m] + b;
  }

  lemma OutboxHead(outbox: seq<LeaderMessage>, x: Solution)
    requires outbox != []
    ensures OutboxCount(outbox, x) == ToLeader(outbox[0], x) + OutboxCount(outbox[1..], x)
  {
    hide OutboxCount, ToLeader;
    assert outbox == [outbox[0]] + outbox[1..];
    OutboxConcat([outbox[0]], outbox[1..], x);
    OutboxOne(outbox[0], x);
  }

  lemma {:induction false} HeldUpdate(nodes: seq<Node>, i: nat, node: Node, x: Solution)
    requires i < |nodes|
    ensures Held(nodes[i := node], x) + NodeCount(nodes[i], x) == Held(nodes, x) + NodeCount(node, x)
  {
    hide NodeCount;
    var last, updated := |nodes| - 1, nodes[i := node];
    if i == last {
      assert updated[..last] == nodes[..last];
    } else {
      assert updated[..last] == nodes[..last][i := node];
      HeldUpdate(nodes[..last], i, node, x);
    }
  }

  /** Every envelope addresses a region that exists. */
  predicate Addressed(envelopes: seq<Envelope>, n: nat) {
    forall e :: e in envelopes && e.ToRegion? ==> e.id < n
  }

  lemma {:induction false} DeliverHolds(nodes: seq<Node>, envelopes: seq<Envelope>, x: Solution)
    requires Addressed(envelopes, |nodes|)
    ensures Held(Deliver(nodes, envelopes), x) == Held(nodes, x) + SentCount(envelopes, x)
  {
    hide Held, EnvelopeCount;
    if envelopes != [] {
      var last := |envelopes| - 1;
      var init, e := envelopes[..last], envelopes[last];
      assert e in envelopes && forall y :: y in init ==> y in envelopes;
      DeliverHolds(nodes, init, x);
      DeliverOneHolds(Deliver(nodes, init), e, x);
    }
  }

  lemma DeliverOneHolds(nodes: seq<Node>, e: Envelope, x: Solution)
    requires e.ToRegion? ==> e.id < |nodes|
    ensures Held(DeliverOne(nodes, e), x) == Held(nodes, x) + EnvelopeCount(e, x)
  {
    hide Held, InFlight, InboxCount, OutboxCount, LifeCount;
    if e.ToRegion? {
      var node := nodes[e.id];
      HeldUpdate(nodes, e.id, node.(inbox := node.inbox + [e.message]), x);
      InboxConcat(node.inbox, [e.message], x);
      InboxOne(e.message, x);
    }
  }

  lemma SentAppend(envelopes: seq<Envelope>, e: Envelope, x: Solution)
    ensures SentCount(envelopes + [e], x) == SentCount(envelopes, x) + EnvelopeCount(e, x)
    ensures SentCount([], x) == 0
  {
    assert (envelopes + [e])[..|envelopes|] == envelopes;
  }

  lemma SentOne(e: Envelope, x: Solution)
    ensures SentCount([e], x) == EnvelopeCount(e, x)
  {
    assert [e][..0] == [];
  }

  // ----- what each handler sends

  lemma ResultSends(cfg: Settings, s: LeaderState, solutions: seq<Solution>, pick: Option<nat>, x: Solution)
    requires WellSized(cfg, s) && s.sent == [] && OnSolutionResult(cfg, s, solutions, pick).Some?
    ensures var r := OnSolutionResult(cfg, s, solutions, pick).value;
      && Addressed(r.sent, cfg.maxRegions)
      && SentCount(r.sent, x)
         + (if |s.regionUsedIds| < cfg.minRegions && s.regionsIds == [] then Count(solutions, x) else 0)
         == Count(solutions, x)
  {
    hide Count, SentCount;
    CountAppend([], [], x);
    SentAppend([], SimulationStopped, x);
    if solutions != [] {
      if |s.regionUsedIds| >= cfg.minRegions {
        SentAppend([], ToRegion(pick.value, SolutionResponse(solutions)), x);
      } else if s.regionsIds != [] {
        SentAppend([], ToRegion(s.regionsIds[0], CreateRegion(solutions)), x);
      }
    }
  }

  lemma HalfSends(cfg: Settings, s: LeaderState, half: seq<Solution>, rerouted: seq<Solution>, pick: Option<nat>, x: Solution)
    requires WellSized(cfg, s) && Addressed(s.sent, cfg.maxRegions) && PlaceHalf(s, half, rerouted, pick).Some?
    ensures var r := PlaceHalf(s, half, rerouted, pick).value;
      && WellSized(cfg, r) && Addressed(r.sent, cfg.maxRegions)
      && SentCount(r.sent, x) == SentCount(s.sent, x)
           + (if half == [] then 0 else if s.regionsIds == [] then Count(rerouted, x) else Count(half, x))
  {
    hide Count, SentCount;
    if half != [] {
      if s.regionsIds != [] {
        SentAppend(s.sent, ToRegion(s.regionsIds[0], CreateRegion(half)), x);
      } else {
        SentAppend(s.sent, ToRegion(pick.value, SolutionResponse(rerouted)), x);
      }
    }
  }

  /** Without a free id the lower half is dropped and the higher half goes out once more. */
  lemma SplitSends(cfg: Settings, s: LeaderState, lower: seq<Solution>, higher: seq<Solution>,
                   pickLower: Option<nat>, pickHigher: Option<nat>, x: Solution)
    requires WellSized(cfg, s) && s.sent == [] && OnRegionSplit(s, lower, higher, pickLower, pickHigher).Some?
    ensures var r := OnRegionSplit(s, lower, higher, pickLower, pickHigher).value;
      && Addressed(r.sent, cfg.maxRegions)
      && SentCount(r.sent, x) + (if s.regionsIds == [] then Count(lower, x) else 0)
         == Count(lower, x) + Count(higher, x) + (if s.regionsIds == [] && lower != [] then Count(higher, x) else 0)
  {
    hide SentCount, Count;
    SentAppend([], SimulationStopped, x);
    CountAppend([], [], x);
    HalfSends(cfg, s, lower, higher, pickLower, x);
    var placed := PlaceHalf(s, lower, higher, pickLower).value;
    HalfSends(cfg, placed, higher, higher, pickHigher, x);
  }

  lemma {:induction false} MergeEnvelopesCarryNothing(regions: seq<bool>, from: nat, n: nat, x: Solution)
    requires |regions| <= n
    ensures Addressed(MergeEnvelopes(regions, from), n) && SentCount(MergeEnvelopes(regions, from), x) == 0
  {
    if regions != [] {
      var last := |regions| - 1;
      MergeEnvelopesCarryNothing(regions[..last], from, n, x);
      if regions[last] && last != from {
        SentAppend(MergeEnvelopes(regions[..last], from), ToRegion(last, MergeRequest(from)), x);
      } else {
        assert MergeEnvelopes(regions, from) == MergeEnvelopes(regions[..last], from);
      }
    }
  }

  lemma LeaderSends(cfg: Settings, s: System, i: nat, pickLower: Option<nat>, pickHigher: Option<nat>, x: Solution)
    requires Inv(cfg, s) && Enabled(cfg, s, LeaderReceives(i, pickLower, pickHigher))
    ensures var (a, m) := (LeaderReceives(i, pickLower, pickHigher), s.nodes[i].outbox[0]);
      var sent := LeaderHandles(cfg, s.leader, i, m, pickLower, pickHigher).value.sent;
      && Addressed(sent, cfg.maxRegions)
      && SentCount(sent, x) + Loss(cfg, s, a)[x] == ToLeader(m, x) + Duplicate(s, a)[x]
  {
    hide SentCount;
    SentAppend([], SimulationStopped, x);
    var m := s.nodes[i].outbox[0];
    match m {
      case RegionRegister(stats) =>
        BeforeLimit(cfg, s.leader.(regions := s.leader.regions[i := true],
                                   regionsSummary := s.leader.regionsSummary[i := Some(stats)]));
      case UpdateRegionSummary(summary) =>
        BeforeLimit(cfg, s.leader.(regionsSummary := s.leader.regionsSummary[i := Some(summary)]));
      case RegionSplit(lower, higher) =>
        SplitSends(cfg, s.leader, lower, higher, pickLower, pickHigher, x);
      case RegionRelease =>
        BeforeLimit(cfg, Forget(s.leader, i));
      case MergeRequested =>
        MergeEnvelopesCarryNothing(s.leader.regions, i, cfg.maxRegions, x);
        assert [] + MergeEnvelopes(s.leader.regions, i) == MergeEnvelopes(s.leader.regions, i);
    }
  }

  // ----- what each step keeps

  lemma LeaderMoveHolds(s: System, i: nat, leader: LeaderState, x: Solution)
    requires i < |s.nodes| && s.nodes[i].outbox != [] && Addressed(leader.sent, |s.nodes|)
    ensures var nodes := s.nodes[i := s.nodes[i].(outbox := s.nodes[i].outbox[1..])];
      Held(AfterLeader(s, nodes, leader).nodes, x) + ToLeader(s.nodes[i].outbox[0], x)
      == Held(s.nodes, x) + SentCount(leader.sent, x)
  {
    hide Held, SentCount, InboxCount, OutboxCount, ToLeader, LifeCount;
    var node := s.nodes[i].(outbox := s.nodes[i].outbox[1..]);
    OutboxHead(s.nodes[i].outbox, x);
    HeldUpdate(s.nodes, i, node, x);
    DeliverHolds(s.nodes[i := node], leader.sent, x);
  }

  /** A region step moves what its life, its inbox and its messages carry, and drops `dropped`. */
  lemma RegionMoveHolds(s: System, i: nat, inbox: seq<RegionMessage>, r: Reaction, dropped: nat, x: Solution)
    requires i < |s.nodes| && Addressed(r.toRegions, |s.nodes|)
    requires LifeCount(r.life, x) + InboxCount(inbox, x) + OutboxCount(r.toLeader, x) + SentCount(r.toRegions, x) + dropped
          == LifeCount(s.nodes[i].life, x) + InboxCount(s.nodes[i].inbox, x)
    ensures Held(AfterRegion(s, i, inbox, r).nodes, x) + dropped == Held(s.nodes, x)
  {
    hide Held, SentCount, InboxCount, OutboxCount, LifeCount;
    var node := Node(r.life, inbox, s.nodes[i].outbox + r.toLeader);
    OutboxConcat(s.nodes[i].outbox, r.toLeader, x);
    HeldUpdate(s.nodes, i, node, x);
    DeliverHolds(s.nodes[i := node], r.toRegions, x);
  }

  lemma AbsorbCarries(life: Option<seq<Solution>>, solutions: seq<Solution>, reported: Summary, x: Solution)
    ensures var r := Absorb(life, solutions, reported);
      && r.toRegions == []
      && LifeCount(r.life, x) + OutboxCount(r.toLeader, x) + (if life.None? then Count(solutions, x) else 0)
         == LifeCount(life, x) + Count(solutions, x)
  {
    OutboxOne(UpdateRegionSummary(reported), x);
    if life.Some? {
      CountAppend(life.value, solutions, x);
    }
  }

  lemma ReactionCarries(i: nat, life: Option<seq<Solution>>, m: RegionMessage, reported: Summary, merged: Summary, n: nat, x: Solution)
    requires !m.StopSimulation? && (m.CreateRegion? ==> life.None?)
    requires m.MergeRequest? ==> m.requester < n
    requires m.MergeResponse? ==> m.responder < n
    ensures var r := React(i, life, m, reported, merged);
      && Addressed(r.toRegions, n)
      && LifeCount(r.life, x) + OutboxCount(r.toLeader, x) + SentCount(r.toRegions, x)
         + (if life.None? && !m.CreateRegion? then InFlight(m, x) else 0)
         == LifeCount(life, x) + InFlight(m, x)
  {
    hide Count;
    CountAppend([], [], x);
    var r := React(i, life, m, reported, merged);
    match m
    case CreateRegion(solutions) =>
      OutboxConcat([UpdateRegionSummary(reported)], [RegionRegister(reported)], x);
      assert r.toLeader == [UpdateRegionSummary(reported)] + [RegionRegister(reported)];
      OutboxOne(UpdateRegionSummary(reported), x);
      OutboxOne(RegionRegister(reported), x);
    case SolutionResponse(solutions) => AbsorbCarries(life, solutions, reported, x);
    case MergeResult(solutions) => AbsorbCarries(life, solutions, reported, x);
    case MergeRequest(requester) => SentOne(ToRegion(requester, MergeResponse(i)), x);
    case MergeResponse(responder) =>
      OutboxOne(RegionRelease, x);
      if life.Some? {
        SentOne(ToRegion(responder, MergeResult(life.value)), x);
      }
  }

  lemma ReactHolds(cfg: Settings, s: System, i: nat, k: nat, reported: Summary, merged: Summary, x: Solution)
    requires Inv(cfg, s) && Enabled(cfg, s, RegionReceives(i, k, reported, merged))
    ensures var a := RegionReceives(i, k, reported, merged);
      Held(Move(cfg, s, a).nodes, x) + Loss(cfg, s, a)[x] == Held(s.nodes, x)
  {
    hide Held, InboxCount, OutboxCount, LifeCount, SentCount;
    var node := s.nodes[i];
    assert NodeOk(cfg, s.leader, node, i);
    var m, r := node.inbox[k], React(i, node.life, node.inbox[k], reported, merged);
    ReactKeepsNode(cfg, s.leader, node, i, k, reported, merged);
    WithoutOk(node.inbox, k, cfg.maxRegions);
    InboxWithout(node.inbox, k, x);
    ReactionCarries(i, node.life, m, reported, merged, cfg.maxRegions, x);
    RegionMoveHolds(s, i, Without(node.inbox, k), r, Loss(cfg, s, RegionReceives(i, k, reported, merged))[x], x);
  }

  lemma BandCounts(a: seq<Solution>, b: seq<Solution>, c: seq<Solution>, s: seq<Solution>, x: Solution)
    requires multiset(a) + multiset(b) + multiset(c) == multiset(s)
    ensures Count(a, x) + Count(b, x) + Count(c, x) == Count(s, x)
  {
    assert (multiset(a) + multiset(b) + multiset(c))[x] == multiset(a)[x] + multiset(b)[x] + multiset(c)[x];
  }

  lemma StimulusHolds(cfg: Settings, s: System, i: nat, global: Option<Summary>, summary: Summary, x: Solution)
    requires Inv(cfg, s) && Enabled(cfg, s, RegionStimulus(i, global, summary))
    ensures Held(Move(cfg, s, RegionStimulus(i, global, summary)).nodes, x) == Held(s.nodes, x)
  {
    hide Held, InboxCount;
    var life := s.nodes[i].life;
    var r := Stimulate(life, global, summary, cfg.minSolutionsToSplit);
    if life.Some? {
      SplitPartitions(life.value, cfg.minSolutionsToSplit, summary.deviation);
      var b := SplitBands(life.value, cfg.minSolutionsToSplit, summary.deviation);
      BandCounts(b.lower, b.staying, b.higher, life.value, x);
      OutboxOne(RegionSplit(b.lower, b.higher), x);
    }
    RegionMoveHolds(s, i, s.nodes[i].inbox, r, 0, x);
  }

  /** Every step, exactly: what is held afterwards and what the step drops make up what was held, what
      the step brings in and what it duplicates. */
  lemma StepBalance(cfg: Settings, s: System, a: Action, x: Solution)
    requires Inv(cfg, s) && Enabled(cfg, s, a)
    ensures Held(Next(cfg, s, a).nodes, x) + Loss(cfg, s, a)[x] == Held(s.nodes, x) + Gain(a)[x] + Duplicate(s, a)[x]
  {
    hide Held, ToLeader, SentCount;
    match a
    case AgentResult(solutions, pick) =>
      ResultSends(cfg, s.leader, solutions, pick, x);
      DeliverHolds(s.nodes, OnSolutionResult(cfg, s.leader, solutions, pick).value.sent, x);
    case LeaderReceives(i, pickLower, pickHigher) =>
      LeaderSends(cfg, s, i, pickLower, pickHigher, x);
      LeaderMoveHolds(s, i, LeaderHandles(cfg, s.leader, i, s.nodes[i].outbox[0], pickLower, pickHigher).value, x);
    case RegionReceives(i, k, reported, merged) =>
      ReactHolds(cfg, s, i, k, reported, merged, x);
    case RegionStimulus(i, global, summary) =>
      StimulusHolds(cfg, s, i, global, summary, x);
    case AskMerge(i) =>
      AskHolds(cfg, s, i, x);
  }

  lemma AskHolds(cfg: Settings, s: System, i: nat, x: Solution)
    requires Inv(cfg, s) && Enabled(cfg, s, AskMerge(i))
    ensures Held(Move(cfg, s, AskMerge(i)).nodes, x) == Held(s.nodes, x)
  {
    hide Held, InboxCount;
    OutboxOne(MergeRequested, x);
    RegionMoveHolds(s, i, s.nodes[i].inbox, Reaction(s.nodes[i].life, [MergeRequested], []), 0, x);
  }

  ghost predicate Balanced(s: System) {
    forall x :: s.accepted[x] + s.duplicated[x] == Held(s.nodes, x) + s.lost[x]
  }

  lemma {:induction false} NothingHeld(nodes: seq<Node>, x: Solution)
    requires forall i :: 0 <= i < |nodes| ==> nodes[i] == Node(None, [], [])
    ensures Held(nodes, x) == 0
  {
    if nodes != [] {
      NothingHeld(nodes[..|nodes| - 1], x);
    }
  }

  lemma StepKeepsBalance(cfg: Settings, s: System, a: Action)
    requires Inv(cfg, s) && Enabled(cfg, s, a) && Balanced(s)
    ensures Balanced(Next(cfg, s, a))
  {
    var t := Next(cfg, s, a);
    forall x
      ensures t.accepted[x] + t.duplicated[x] == Held(t.nodes, x) + t.lost[x]
    {
      StepBalance(cfg, s, a, x);
      History(cfg, s, a, x);
    }
  }

  lemma History(cfg: Settings, s: System, a: Action, x: Solution)
    requires Inv(cfg, s) && Enabled(cfg, s, a)
    ensures var t := Next(cfg, s, a);
      && t.accepted[x] == s.accepted[x] + Gain(a)[x]
      && t.duplicated[x] == s.duplicated[x] + Duplicate(s, a)[x]
      && t.lost[x] == s.lost[x] + Loss(cfg, s, a)[x]
  {
  }

  /** Over every run, merges included: all solutions accepted, plus those sent twice, are held by
      regions, in flight, or accounted for as lost. */
  lemma {:induction false} RunBalance(cfg: Settings, states: seq<System>, actions: seq<Action>, k: nat)
    requires IsRun(cfg, states, actions) && k < |states|
    ensures Balanced(states[k])
  {
    hide Balanced, Inv, Enabled, Next, InitialSystem;
    if k == 0 {
      InitialBalance(cfg);
    } else {
      RunBalance(cfg, states, actions, k - 1);
      RunKeepsInv(cfg, states, actions, k - 1);
      assert CanStep(cfg, states[k - 1], actions[k - 1], states[k]);
      StepKeepsBalance(cfg, states[k - 1], actions[k - 1]);
    }
  }

  lemma InitialBalance(cfg: Settings)
    ensures Balanced(InitialSystem(cfg))
  {
    var s := InitialSystem(cfg);
    forall x
      ensures s.accepted[x] + s.duplicated[x] == Held(s.nodes, x) + s.lost[x]
    {
      NothingHeld(s.nodes, x);
    }
  }

  // ----- when exactly a step keeps every solution

  /** The guards a step has to meet to keep every solution exactly once. */
  ghost predicate Keeps(cfg: Settings, s: System, a: Action)
    requires WellSized(cfg, s.leader) && |s.nodes| == cfg.maxRegions
    requires Enabled(cfg, s, a)
  {
    match a
    case AgentResult(solutions, _) =>
      solutions == [] || |s.leader.regionUsedIds| >= cfg.minRegions || s.leader.regionsIds != []
    case LeaderReceives(i, _, _) =>
      var m := s.nodes[i].outbox[0];
      m.RegionSplit? ==> m.lower == [] || s.leader.regionsIds != []
    case RegionReceives(i, k, _, _) =>
      var m := s.nodes[i].inbox[k];
      m.CreateRegion? || Payload(m) == [] || s.nodes[i].life.Some?
    case _ => true
  }

  /** A step conserves every solution iff it meets its guard: in particular a split that finds no free
      id for a non-empty lower half never does, because the lower half is answered with the higher one. */
  lemma StepConservesIff(cfg: Settings, s: System, a: Action)
    requires Inv(cfg, s) && Enabled(cfg, s, a)
    ensures Keeps(cfg, s, a)
       <==> forall x :: Held(Next(cfg, s, a).nodes, x) == Held(s.nodes, x) + Gain(a)[x]
  {
    hide Held;
    var t := Next(cfg, s, a);
    forall x
      ensures Held(t.nodes, x) + Loss(cfg, s, a)[x] == Held(s.nodes, x) + Gain(a)[x] + Duplicate(s, a)[x]
    {
      StepBalance(cfg, s, a, x);
    }
    if Keeps(cfg, s, a) {
      KeptExactly(cfg, s, a);
    } else {
      var x := SomethingLost(cfg, s, a);
      assert Held(t.nodes, x) != Held(s.nodes, x) + Gain(a)[x];
    }
  }

  lemma KeptExactly(cfg: Settings, s: System, a: Action)
    requires Inv(cfg, s) && Enabled(cfg, s, a) && Keeps(cfg, s, a)
    ensures Loss(cfg, s, a) == multiset{} == Duplicate(s, a)
  {
  }

  lemma SomethingLost(cfg: Settings, s: System, a: Action) returns (x: Solution)
    requires Inv(cfg, s) && Enabled(cfg, s, a) && !Keeps(cfg, s, a)
    ensures Loss(cfg, s, a)[x] > 0 == Duplicate(s, a)[x]
  {
    match a
    case AgentResult(solutions, _) =>
      x := solutions[0];
    case LeaderReceives(i, _, _) =>
      var m := s.nodes[i].outbox[0];
      x := m.lower[0];
      assert NodeOk(cfg, s.leader, s.nodes[i], i);
      assert m in s.nodes[i].outbox;
      NotInBoth(m.lower, m.higher, x);
    case RegionReceives(i, k, _, _) =>
      x := Payload(s.nodes[i].inbox[k])[0];
  }

  lemma NotInBoth(a: seq<Solution>, b: seq<Solution>, x: Solution)
    requires Precedes(a, b) && x in a
    ensures multiset(a)[x] > 0 == multiset(b)[x]
  {
    assert x !in b;
  }

  // ----- runs without losses

  lemma {:induction false} SizeOfPool(m: multiset<nat>, n: nat)
    requires forall i: nat :: m[i] == if i < n then 1 else 0
    ensures |m| == n
  {
    if n > 0 {
      var rest := m - multiset{n - 1};
      SizeOfPool(rest, n - 1);
      assert m == rest + multiset{n - 1};
    } else {
      assert forall i: nat :: m[i] == 0;
      assert m == multiset{};
    }
  }

  lemma EmptyPool(cfg: Settings, s: System)
    requires Inv(cfg, s) && s.leader.regionsIds == []
    ensures |s.leader.regionUsedIds| == cfg.maxRegions
  {
    var used: multiset<nat> := multiset(s.leader.regionUsedIds);
    forall i: nat
      ensures used[i] == if i < cfg.maxRegions then 1 else 0
    {
      assert used[i] == Uses(s.leader.regionUsedIds, i);
      IdInPool(cfg, s, i);
      if i < cfg.maxRegions {
        assert NodeOk(cfg, s.leader, s.nodes[i], i);
      }
    }
    SizeOfPool(used, cfg.maxRegions);
    assert |used| == |s.leader.regionUsedIds|;
  }

  /** With at least as many ids as the minimum asks for, a free id exists below the minimum. */
  lemma FreeIdBelowMinimum(cfg: Settings, s: System)
    requires Inv(cfg, s) && cfg.minRegions <= cfg.maxRegions
    requires |s.leader.regionUsedIds| < cfg.minRegions
    ensures s.leader.regionsIds != []
  {
    if s.leader.regionsIds == [] {
      EmptyPool(cfg, s);
    }
  }

  /** The guards under which nothing but a merge can lose a solution. */
  ghost predicate GuardedSplits(states: seq<System>, actions: seq<Action>)
    requires |states| == |actions| + 1
  {
    forall k :: 0 <= k < |actions| ==> SplitFindsId(states[k], actions[k])
  }

  ghost predicate SplitFindsId(s: System, a: Action) {
    (a.LeaderReceives? && a.i < |s.nodes| && s.nodes[a.i].outbox != [] && s.nodes[a.i].outbox[0].RegionSplit?
     && s.nodes[a.i].outbox[0].lower != []) ==> s.leader.regionsIds != []
  }

  /** With merges on, the only loss is a payload delivered to a region whose life has ended. */
  lemma OnlyDeadRegionsLose(cfg: Settings, s: System, a: Action)
    requires Inv(cfg, s) && Enabled(cfg, s, a) && cfg.minRegions <= cfg.maxRegions && SplitFindsId(s, a)
    ensures Duplicate(s, a) == multiset{}
    ensures Loss(cfg, s, a) != multiset{} ==>
      a.RegionReceives? && s.nodes[a.i].life == None && Payload(s.nodes[a.i].inbox[a.k]) != []
  {
    if a.AgentResult? && |s.leader.regionUsedIds| < cfg.minRegions {
      FreeIdBelowMinimum(cfg, s);
    }
  }

  /** No merge is under way at this node, and solutions only travel to a live region. */
  ghost predicate NoMerge(leader: LeaderState, node: Node, i: nat) {
    && (forall m :: m in node.inbox ==> m.CreateRegion? || m.SolutionResponse?)
    && (forall m :: m in node.inbox && m.SolutionResponse? ==> node.life.Some?)
    && (forall m :: m in node.outbox ==> !m.RegionRelease? && !m.MergeRequested?)
  }

  ghost predicate MergeFree(cfg: Settings, s: System) {
    && |s.nodes| == cfg.maxRegions
    && forall i :: 0 <= i < cfg.maxRegions ==> NoMerge(s.leader, s.nodes[i], i)
  }

  lemma {:induction false} NoReleasesCount(outbox: seq<LeaderMessage>)
    requires forall m :: m in outbox ==> !m.RegionRelease?
    ensures Releases(outbox) == 0
  {
    if outbox != [] {
      NoReleasesCount(outbox[..|outbox| - 1]);
    }
  }

  /** Without merges every registered region is alive. */
  lemma RegisteredIsAlive(cfg: Settings, s: System, i: nat)
    requires Inv(cfg, s) && MergeFree(cfg, s) && i < cfg.maxRegions && s.leader.regions[i]
    ensures s.nodes[i].life.Some?
  {
    assert NodeOk(cfg, s.leader, s.nodes[i], i) && NoMerge(s.leader, s.nodes[i], i);
    NoReleasesCount(s.nodes[i].outbox);
  }

  /** Messages that carry solutions to a region that is alive, or create one. */
  ghost predicate Harmless(nodes: seq<Node>, envelopes: seq<Envelope>) {
    forall e :: e in envelopes && e.ToRegion? && e.id < |nodes| ==>
      e.message.CreateRegion? || (e.message.SolutionResponse? && nodes[e.id].life.Some?)
  }

  ghost predicate NodesMergeFree(leader: LeaderState, nodes: seq<Node>) {
    forall i :: 0 <= i < |nodes| ==> NoMerge(leader, nodes[i], i)
  }

  lemma {:induction false} DeliverMergeFree(leader: LeaderState, nodes: seq<Node>, envelopes: seq<Envelope>)
    requires NodesMergeFree(leader, nodes) && Harmless(nodes, envelopes)
    ensures NodesMergeFree(leader, Deliver(nodes, envelopes))
    ensures forall i :: 0 <= i < |nodes| ==> Deliver(nodes, envelopes)[i].life == nodes[i].life
  {
    if envelopes != [] {
      var last := |envelopes| - 1;
      assert envelopes[last] in envelopes && forall e :: e in envelopes[..last] ==> e in envelopes;
      DeliverMergeFree(leader, nodes, envelopes[..last]);
    }
  }

  lemma MergeFreeAfterLeader(cfg: Settings, s: System, nodes: seq<Node>, leader: LeaderState)
    requires |nodes| == cfg.maxRegions && NodesMergeFree(s.leader, nodes) && Harmless(nodes, leader.sent)
    ensures MergeFree(cfg, AfterLeader(s, nodes, leader))
  {
    forall i | 0 <= i < |nodes|
      ensures NoMerge(leader, nodes[i], i)
    {
      assert NoMerge(s.leader, nodes[i], i);
    }
    DeliverMergeFree(leader, nodes, leader.sent);
    var delivered := Deliver(nodes, leader.sent);
    forall i | 0 <= i < |nodes|
      ensures NoMerge(leader.(sent := []), delivered[i], i)
    {
      assert NoMerge(leader, delivered[i], i);
    }
  }

  lemma MergeFreeAfterRegion(cfg: Settings, s: System, i: nat, inbox: seq<RegionMessage>, r: Reaction)
    requires MergeFree(cfg, s) && i < cfg.maxRegions && r.toRegions == []
    requires forall m :: m in inbox ==> m in s.nodes[i].inbox
    requires s.nodes[i].life.Some? ==> r.life.Some?
    requires forall m :: m in r.toLeader ==> !m.RegionRelease? && !m.MergeRequested?
    ensures MergeFree(cfg, AfterRegion(s, i, inbox, r))
  {
    var t := AfterRegion(s, i, inbox, r);
    forall j | 0 <= j < cfg.maxRegions
      ensures NoMerge(t.leader, t.nodes[j], j)
    {
      assert NoMerge(s.leader, s.nodes[j], j) && NoMerge(s.leader, s.nodes[i], i);
    }
  }

  lemma PoppedMergeFree(cfg: Settings, s: System, i: nat)
    requires MergeFree(cfg, s) && i < cfg.maxRegions && s.nodes[i].outbox != []
    ensures var nodes := s.nodes[i := s.nodes[i].(outbox := s.nodes[i].outbox[1..])];
      NodesMergeFree(s.leader, nodes)
  {
    var nodes := s.nodes[i := s.nodes[i].(outbox := s.nodes[i].outbox[1..])];
    forall j | 0 <= j < |nodes|
      ensures NoMerge(s.leader, nodes[j], j)
    {
      assert NoMerge(s.leader, s.nodes[j], j);
      assert forall m :: m in s.nodes[i].outbox[1..] ==> m in s.nodes[i].outbox;
    }
  }

  lemma RoutedHarmless(cfg: Settings, s: System, nodes: seq<Node>, leader: LeaderState, solutions: seq<Solution>, pick: Option<nat>)
    requires Inv(cfg, s) && MergeFree(cfg, s) && |nodes| == cfg.maxRegions && leader.regions == s.leader.regions
    requires forall j :: 0 <= j < cfg.maxRegions ==> nodes[j].life == s.nodes[j].life
    requires Harmless(nodes, leader.sent) && RouteTo(leader, solutions, pick).Some?
    ensures Harmless(nodes, RouteTo(leader, solutions, pick).value.sent)
  {
    RegisteredIsAlive(cfg, s, pick.value);
  }

  lemma HalfHarmless(cfg: Settings, s: System, nodes: seq<Node>, leader: LeaderState, half: seq<Solution>,
                     rerouted: seq<Solution>, pick: Option<nat>)
    requires Inv(cfg, s) && MergeFree(cfg, s) && |nodes| == cfg.maxRegions && leader.regions == s.leader.regions
    requires forall j :: 0 <= j < cfg.maxRegions ==> nodes[j].life == s.nodes[j].life
    requires Harmless(nodes, leader.sent) && PlaceHalf(leader, half, rerouted, pick).Some?
    ensures Harmless(nodes, PlaceHalf(leader, half, rerouted, pick).value.sent)
    ensures PlaceHalf(leader, half, rerouted, pick).value.regions == s.leader.regions
  {
    if half != [] && leader.regionsIds == [] {
      RoutedHarmless(cfg, s, nodes, leader, rerouted, pick);
    }
  }

  lemma LeaderMergeFree(cfg: Settings, s: System, i: nat, pickLower: Option<nat>, pickHigher: Option<nat>)
    requires Inv(cfg, s) && MergeFree(cfg, s) && Enabled(cfg, s, LeaderReceives(i, pickLower, pickHigher))
    ensures MergeFree(cfg, Move(cfg, s, LeaderReceives(i, pickLower, pickHigher)))
  {
    var m, nodes := s.nodes[i].outbox[0], s.nodes[i := s.nodes[i].(outbox := s.nodes[i].outbox[1..])];
    assert NoMerge(s.leader, s.nodes[i], i) && m in s.nodes[i].outbox;
    PoppedMergeFree(cfg, s, i);
    match m {
      case RegionRegister(stats) =>
        BeforeLimit(cfg, s.leader.(regions := s.leader.regions[i := true],
                                   regionsSummary := s.leader.regionsSummary[i := Some(stats)]));
      case UpdateRegionSummary(summary) =>
        BeforeLimit(cfg, s.leader.(regionsSummary := s.leader.regionsSummary[i := Some(summary)]));
      case RegionSplit(lower, higher) =>
        HalfHarmless(cfg, s, nodes, s.leader, lower, higher, pickLower);
        HalfHarmless(cfg, s, nodes, PlaceHalf(s.leader, lower, higher, pickLower).value, higher, higher, pickHigher);
    }
    MergeFreeAfterLeader(cfg, s, nodes, LeaderHandles(cfg, s.leader, i, m, pickLower, pickHigher).value);
  }

  lemma ResultMergeFree(cfg: Settings, s: System, solutions: seq<Solution>, pick: Option<nat>)
    requires Inv(cfg, s) && MergeFree(cfg, s) && Enabled(cfg, s, AgentResult(solutions, pick))
    ensures MergeFree(cfg, Move(cfg, s, AgentResult(solutions, pick)))
  {
    var leader := OnSolutionResult(cfg, s.leader, solutions, pick).value;
    if solutions != [] && |s.leader.regionUsedIds| >= cfg.minRegions {
      RoutedHarmless(cfg, s, s.nodes, s.leader, solutions, pick);
    }
    MergeFreeAfterLeader(cfg, s, s.nodes, leader);
  }

  /** A step other than a merge request starts no merge and loses nothing at a dead region. */
  lemma StepStaysMergeFree(cfg: Settings, s: System, a: Action)
    requires Inv(cfg, s) && MergeFree(cfg, s) && Enabled(cfg, s, a) && !a.AskMerge?
    ensures MergeFree(cfg, Next(cfg, s, a))
    ensures a.RegionReceives? ==> Loss(cfg, s, a) == multiset{}
  {
    match a
    case AgentResult(solutions, pick) =>
      ResultMergeFree(cfg, s, solutions, pick);
    case LeaderReceives(i, pickLower, pickHigher) =>
      LeaderMergeFree(cfg, s, i, pickLower, pickHigher);
    case RegionReceives(i, k, reported, merged) =>
      assert NoMerge(s.leader, s.nodes[i], i);
      WithoutOk(s.nodes[i].inbox, k, cfg.maxRegions);
      ForgetOne(s.nodes[i].inbox, k);
      MergeFreeAfterRegion(cfg, s, i, Without(s.nodes[i].inbox, k),
                           React(i, s.nodes[i].life, s.nodes[i].inbox[k], reported, merged));
    case RegionStimulus(i, global, summary) =>
      MergeFreeAfterRegion(cfg, s, i, s.nodes[i].inbox,
                           Stimulate(s.nodes[i].life, global, summary, cfg.minSolutionsToSplit));
  }

  lemma ForgetOne(inbox: seq<RegionMessage>, k: nat)
    requires k < |inbox|
    ensures inbox[k] in inbox
    ensures forall m :: m in Without(inbox, k) ==> m in inbox
  {
  }

  /** Conservation: over every run without merge requests, when no lower half is split off without a
      free id and the minimum of regions does not exceed the maximum, each solution the leader has
      accepted is held by a region or in flight exactly as often as it was accepted. */
  lemma {:induction false} MergeFreeRunsConserve(cfg: Settings, states: seq<System>, actions: seq<Action>, k: nat)
    requires IsRun(cfg, states, actions) && k < |states|
    requires GuardedSplits(states, actions) && cfg.minRegions <= cfg.maxRegions
    requires forall j :: 0 <= j < |actions| ==> !actions[j].AskMerge?
    ensures states[k].lost == multiset{} == states[k].duplicated
    ensures forall x :: states[k].accepted[x] == Held(states[k].nodes, x)
  {
    NothingLost(cfg, states, actions, k);
    RunBalance(cfg, states, actions, k);
  }

  lemma {:induction false} NothingLost(cfg: Settings, states: seq<System>, actions: seq<Action>, k: nat)
    requires IsRun(cfg, states, actions) && k < |states|
    requires GuardedSplits(states, actions) && cfg.minRegions <= cfg.maxRegions
    requires forall j :: 0 <= j < |actions| ==> !actions[j].AskMerge?
    ensures MergeFree(cfg, states[k]) && states[k].lost == multiset{} == states[k].duplicated
  {
    if k > 0 {
      NothingLost(cfg, states, actions, k - 1);
      RunKeepsInv(cfg, states, actions, k - 1);
      assert CanStep(cfg, states[k - 1], actions[k - 1], states[k]);
      assert SplitFindsId(states[k - 1], actions[k - 1]);
      StepStaysMergeFree(cfg, states[k - 1], actions[k - 1]);
      OnlyDeadRegionsLose(cfg, states[k - 1], actions[k - 1]);
    }
  }
}
