/** Two short runs that show where the protocol does not do what it is meant to do. */
module ProtocolExamples {
  import opened Analyser
  import opened Options
  import opened Statistics
  import opened Regions
  import opened RegionSelector
  import opened Messages
  import opened Leader
  import opened SimulationActors
  import opened RegionActors
  import opened Protocol
  import opened ProtocolRuns
  import opened Conservation

  /** One region at most, splitting from four solutions on, without a time limit. */
  const SINGLE := Settings(1, 1, 0, true, 4)

  const FIRST := Solution(0, [], 2.0)
  const SECOND := Solution(1, [], 2.0)
  const THIRD := Solution(2, [], 2.0)
  const FAR := Solution(3, [], -2.0)

  const NEAR := [FIRST, SECOND, THIRD]
  const ALL := [FIRST, SECOND, THIRD, FAR]

  const ONE := Summary(1, 2.0, 0.0)
  const FOUR := Summary(4, 1.0, 2.0)

  function Busy(registered: bool, summary: Option<Summary>, time: int): LeaderState {
    LeaderState([], [0], [registered], [summary], time, InitialState(SINGLE).status, [])
  }

  function Single(leader: LeaderState, node: Node, accepted: seq<Solution>): System {
    System(leader, [node], multiset(accepted), multiset{}, multiset{})
  }

  function Fresh(): System {
    Single(Busy(false, None, 0), Node(None, [CreateRegion([FIRST])], []), [FIRST])
  }

  function Alive(): System {
    Single(Busy(false, None, 0), Node(Some([FIRST]), [], [UpdateRegionSummary(ONE), RegionRegister(ONE)]), [FIRST])
  }

  function Summarised(): System {
    Single(Busy(false, Some(ONE), 1), Node(Some([FIRST]), [], [RegionRegister(ONE)]), [FIRST])
  }

  function Known(): System {
    Single(Busy(true, Some(ONE), 2), Node(Some([FIRST]), [], []), [FIRST])
  }

  function Routed(): System {
    Single(Busy(true, Some(ONE), 2), Node(Some([FIRST]), [SolutionResponse([SECOND, THIRD, FAR])], []), ALL)
  }

  function Grown(): System {
    Single(Busy(true, Some(ONE), 2), Node(Some(ALL), [], [UpdateRegionSummary(FOUR)]), ALL)
  }

  function Divided(): System {
    Single(Busy(true, Some(ONE), 2), Node(Some(NEAR), [], [UpdateRegionSummary(FOUR), RegionSplit([FAR], [])]), ALL)
  }

  function Reported(): System {
    Single(Busy(true, Some(FOUR), 3), Node(Some(NEAR), [], [RegionSplit([FAR], [])]), ALL)
  }

  function Dropped(): System {
    Single(Busy(true, Some(FOUR), 3), Node(Some(NEAR), [SolutionResponse([])], []), ALL).(lost := multiset{FAR})
  }

  /** The run: a region is created from one solution, three more are routed to it, and with the global
      summary still that of the first solution it splits off the one that lies below. */
  function States(): seq<System> {
    [InitialSystem(SINGLE), Fresh(), Alive(), Summarised(), Known(), Routed(), Grown(), Divided(), Reported(), Dropped()]
  }

  function Actions(): seq<Action> {
    [AgentResult([FIRST], None), RegionReceives(0, 0, ONE, ONE),
     LeaderReceives(0, None, None), LeaderReceives(0, None, None),
     AgentResult([SECOND, THIRD, FAR], Some(0)), RegionReceives(0, 0, FOUR, FOUR),
     RegionStimulus(0, Some(ONE), FOUR),
     LeaderReceives(0, None, None), LeaderReceives(0, Some(0), None)]
  }

  lemma DeliverOneTo(nodes: seq<Node>, m: RegionMessage)
    requires |nodes| == 1
    ensures Deliver(nodes, [ToRegion(0, m)]) == [nodes[0].(inbox := nodes[0].inbox + [m])]
    ensures Deliver(nodes, []) == nodes
  {
    assert [ToRegion(0, m)][..0] == [];
  }

  lemma ValuesOf()
    ensures Values([FIRST]) == [2.0]
    ensures Values([FIRST, SECOND, THIRD, FAR]) == [2.0, 2.0, 2.0, -2.0]
  {
    ValuesAppend([], FIRST);
    ValuesAppend([FIRST], SECOND);
    ValuesAppend([FIRST, SECOND], THIRD);
    ValuesAppend(NEAR, FAR);
    assert [] + [FIRST] == [FIRST] && [FIRST] + [SECOND] == [FIRST, SECOND];
    assert [FIRST, SECOND] + [THIRD] == NEAR && NEAR + [FAR] == ALL;
  }

  lemma Added(v: seq<real>, x: real, c: real)
    ensures Sum(v + [x]) == Sum(v) + x && Sum([]) == 0.0
    ensures SquaredDeviation(v + [x], c) == SquaredDeviation(v, c) + Square(x - c) && SquaredDeviation([], c) == 0.0
  {
    assert (v + [x])[..|v|] == v;
  }

  lemma MomentsOf(a: real, b: real, c: real, d: real, m: real)
    ensures Sum([a]) == a && Sum([a, b, c, d]) == a + b + c + d
    ensures SquaredDeviation([a, b, c, d], m) == Square(a - m) + Square(b - m) + Square(c - m) + Square(d - m)
  {
    Added([], a, m);
    Added([a], b, m);
    Added([a, b], c, m);
    Added([a, b, c], d, m);
    assert [] + [a] == [a] && [a] + [b] == [a, b] && [a, b] + [c] == [a, b, c] && [a, b, c] + [d] == [a, b, c, d];
  }

  lemma Described()
    ensures Describes(ONE, [FIRST]) && Describes(FOUR, [FIRST, SECOND, THIRD, FAR])
  {
    ValuesOf();
    MomentsOf(2.0, 2.0, 2.0, -2.0, 1.0);
    assert Times(3, 4.0) == 12.0;
  }

  lemma FarIsLower()
    ensures SplitBands([FIRST, SECOND, THIRD, FAR], 4, 2.0) == Bands([FAR], [FIRST, SECOND, THIRD], [])
  {
    Described();
    assert Mean(Values(ALL)) == 1.0;
    SelectEach(Lower);
    SelectEach(Staying);
    SelectEach(Higher);
  }

  lemma Selected(s: seq<Solution>, x: Solution, band: Band)
    ensures Select(s + [x], -1.0, 3.0, band) == Select(s, -1.0, 3.0, band) + Keep(x, BandOf(x.value, -1.0, 3.0) == band)
  {
    assert (s + [x])[..|s|] == s;
  }

  lemma SelectEach(band: Band)
    ensures Select(ALL, -1.0, 3.0, band)
         == match band case Lower => [FAR] case Staying => NEAR case Higher => []
  {
    Selected([], FIRST, band);
    Selected([FIRST], SECOND, band);
    Selected([FIRST, SECOND], THIRD, band);
    Selected(NEAR, FAR, band);
    assert [] + [FIRST] == [FIRST] && [FIRST] + [SECOND] == [FIRST, SECOND];
    assert [FIRST, SECOND] + [THIRD] == NEAR && NEAR + [FAR] == ALL;
  }

  lemma Stepped(s: System, a: Action, t: System)
    requires WellSized(SINGLE, s.leader) && |s.nodes| == 1 && Enabled(SINGLE, s, a)
    requires Move(SINGLE, s, a).leader == t.leader && Move(SINGLE, s, a).nodes == t.nodes
    requires t.accepted == s.accepted + Gain(a) && t.duplicated == s.duplicated + Duplicate(s, a)
    requires t.lost == s.lost + Loss(SINGLE, s, a)
    ensures CanStep(SINGLE, s, a, t)
  {
  }

  /** The leader's slot before, between and after the reports of the only region. */
  lemma SlotUpdates(summary: Summary, before: Option<Summary>, registered: bool)
    ensures [before][0 := Some(summary)] == [Some(summary)]
    ensures [registered][0 := true] == [true]
  {
  }

  lemma CreationSent()
    ensures CanStep(SINGLE, InitialSystem(SINGLE), AgentResult([FIRST], None), Fresh())
  {
    var s := InitialSystem(SINGLE);
    var start := s.leader;
    assert start.regionsIds == [0] && start.regionUsedIds == [] && s.nodes == [Node(None, [], [])];
    assert start.regions == [false] && start.regionsSummary == [None];
    var leader := OnSolutionResult(SINGLE, start, [FIRST], None).value;
    assert leader.sent == [ToRegion(0, CreateRegion([FIRST]))];
    DeliverOneTo(s.nodes, CreateRegion([FIRST]));
    assert leader.(sent := []) == Fresh().leader by {
      assert leader.regionsIds == [] && leader.regionUsedIds == [0];
    }
    assert [] + [CreateRegion([FIRST])] == [CreateRegion([FIRST])];
    assert multiset{} + multiset([FIRST]) == multiset([FIRST]);
    Stepped(s, AgentResult([FIRST], None), Fresh());
  }

  /** The only region, with a single message to read and none sent, after its reaction. */
  lemma OneReacts(s: System, r: Reaction)
    requires |s.nodes| == 1 && |s.nodes[0].inbox| == 1 && s.nodes[0].outbox == [] && r.toRegions == []
    ensures AfterRegion(s, 0, Without(s.nodes[0].inbox, 0), r) == s.(nodes := [Node(r.life, [], r.toLeader)])
  {
    assert Without(s.nodes[0].inbox, 0) == [] && [] + r.toLeader == r.toLeader;
    DeliverOneTo([Node(r.life, [], r.toLeader)], StopSimulation);
    assert s.nodes[0 := Node(r.life, [], r.toLeader)] == [Node(r.life, [], r.toLeader)];
  }

  /** The only region after the leader has handled its first report without an answer. */
  lemma OneHandled(s: System, leader: LeaderState)
    requires |s.nodes| == 1 && s.nodes[0].outbox != [] && leader.sent == []
    ensures var nodes := s.nodes[0 := s.nodes[0].(outbox := s.nodes[0].outbox[1..])];
      && nodes == [s.nodes[0].(outbox := s.nodes[0].outbox[1..])]
      && AfterLeader(s, nodes, leader).nodes == nodes
  {
    DeliverOneTo(s.nodes, StopSimulation);
  }

  lemma RegionCreated()
    ensures CanStep(SINGLE, Fresh(), RegionReceives(0, 0, ONE, ONE), Alive())
  {
    Described();
    OneReacts(Fresh(), Reaction(Some([FIRST]), [UpdateRegionSummary(ONE), RegionRegister(ONE)], []));
    Stepped(Fresh(), RegionReceives(0, 0, ONE, ONE), Alive());
  }

  lemma SummaryReported()
    ensures CanStep(SINGLE, Alive(), LeaderReceives(0, None, None), Summarised())
  {
    OneHandled(Alive(), Summarised().leader);
    SlotUpdates(ONE, None, false);
    Stepped(Alive(), LeaderReceives(0, None, None), Summarised());
  }

  lemma RegionRegistered()
    ensures CanStep(SINGLE, Summarised(), LeaderReceives(0, None, None), Known())
  {
    OneHandled(Summarised(), Known().leader);
    assert Summarised().nodes[0].outbox[1..] == [];
    SlotUpdates(ONE, Some(ONE), false);
    Stepped(Summarised(), LeaderReceives(0, None, None), Known());
  }

  lemma ResultRouted()
    ensures CanStep(SINGLE, Known(), AgentResult([SECOND, THIRD, FAR], Some(0)), Routed())
  {
    var s, solutions := Known(), [SECOND, THIRD, FAR];
    var leader := OnSolutionResult(SINGLE, s.leader, solutions, Some(0)).value;
    assert leader.sent == [ToRegion(0, SolutionResponse(solutions))];
    DeliverOneTo(s.nodes, SolutionResponse(solutions));
    assert [] + [SolutionResponse(solutions)] == [SolutionResponse(solutions)];
    assert ALL == [FIRST] + solutions;
    Stepped(s, AgentResult(solutions, Some(0)), Routed());
  }

  lemma ResultAbsorbed()
    ensures CanStep(SINGLE, Routed(), RegionReceives(0, 0, FOUR, FOUR), Grown())
  {
    hide Describes, VariationRate;
    Described();
    assert [FIRST] + [SECOND, THIRD, FAR] == ALL;
    OneReacts(Routed(), Reaction(Some(ALL), [UpdateRegionSummary(FOUR)], []));
    Stepped(Routed(), RegionReceives(0, 0, FOUR, FOUR), Grown());
  }

  lemma Diverges()
    ensures LessThan(VariationRate(ONE), VariationRate(FOUR))
  {
  }

  lemma RegionDivided()
    ensures CanStep(SINGLE, Grown(), RegionStimulus(0, Some(ONE), FOUR), Divided())
  {
    hide Describes, VariationRate;
    Described();
    FarIsLower();
    Diverges();
    var s, r := Grown(), Stimulate(Some(ALL), Some(ONE), FOUR, 4);
    assert r == Reaction(Some(NEAR), [RegionSplit([FAR], [])], []);
    DeliverOneTo(Divided().nodes, StopSimulation);
    assert s.nodes[0].outbox + r.toLeader == Divided().nodes[0].outbox;
    assert s.nodes[0 := Divided().nodes[0]] == Divided().nodes;
    Stepped(s, RegionStimulus(0, Some(ONE), FOUR), Divided());
  }

  lemma SummaryUpdated()
    ensures CanStep(SINGLE, Divided(), LeaderReceives(0, None, None), Reported())
  {
    OneHandled(Divided(), Reported().leader);
    SlotUpdates(FOUR, Some(ONE), true);
    Stepped(Divided(), LeaderReceives(0, None, None), Reported());
  }

  lemma SplitHandled()
    ensures CanStep(SINGLE, Reported(), LeaderReceives(0, Some(0), None), Dropped())
  {
    var s := Reported();
    var leader := OnRegionSplit(s.leader, [FAR], [], Some(0), None).value;
    assert leader.sent == [ToRegion(0, SolutionResponse([]))];
    OneHandled(s, s.leader);
    assert s.nodes[0].outbox[1..] == [];
    DeliverOneTo([s.nodes[0].(outbox := [])], SolutionResponse([]));
    assert [] + [SolutionResponse([])] == [SolutionResponse([])];
    assert multiset{} + multiset([FAR]) == multiset{FAR};
    Stepped(s, LeaderReceives(0, Some(0), None), Dropped());
  }

  lemma RunOfExample()
    ensures IsRun(SINGLE, States(), Actions())
  {
    hide CanStep, InitialSystem, Fresh, Alive, Summarised, Known, Routed, Grown, Divided, Reported, Dropped;
    CreationSent();
    RegionCreated();
    SummaryReported();
    RegionRegistered();
    ResultRouted();
    ResultAbsorbed();
    RegionDivided();
    SummaryUpdated();
    SplitHandled();
  }

  /** A lower half that finds no free id is gone: the leader answers it with the empty higher half. */
  lemma LowerHalfLost()
    ensures IsRun(SINGLE, States(), Actions())
    ensures var s := States()[9]; s.accepted[FAR] == 1 && Held(s.nodes, FAR) == 0 && s.lost == multiset{FAR}
  {
    RunOfExample();
    RunBalance(SINGLE, States(), Actions(), 9);
  }

  /** With a time limit of one tick the same region's first summary is what reaches the limit. */
  const LIMITED := SINGLE.(benchmark := false, executionTime := 1)

  lemma LimitedSteps()
    ensures CanStep(LIMITED, InitialSystem(LIMITED), AgentResult([FIRST], None), Fresh())
    ensures CanStep(LIMITED, Fresh(), RegionReceives(0, 0, ONE, ONE), Alive())
  {
    CreationSent();
    RegionCreated();
    assert InitialSystem(LIMITED) == InitialSystem(SINGLE);
  }

  /** The simulation ends with a summary in the slot of a region that never registered. */
  lemma SummaryOutlivesStop()
    ensures IsRun(LIMITED, [InitialSystem(LIMITED), Fresh(), Alive()],
                  [AgentResult([FIRST], None), RegionReceives(0, 0, ONE, ONE)])
    ensures ReachesLimit(LIMITED, Alive(), 0)
    ensures var handled := LeaderHandles(LIMITED, Alive().leader, 0, UpdateRegionSummary(ONE), None, None);
      handled.Some? && handled.value.status == Finished && handled.value.regionsSummary == [Some(ONE)]
  {
    hide CanStep, InitialSystem, Fresh;
    LimitedSteps();
    LimitReachedAtOnce();
  }

  lemma LimitReachedAtOnce()
    ensures ReachesLimit(LIMITED, Alive(), 0)
    ensures var handled := LeaderHandles(LIMITED, Alive().leader, 0, UpdateRegionSummary(ONE), None, None);
      handled.Some? && handled.value.status == Finished && handled.value.regionsSummary == [Some(ONE)]
  {
    var leader := Alive().leader;
    var reported := leader.(regionsSummary := [Some(ONE)]);
    assert leader.regionsSummary[0 := Some(ONE)] == [Some(ONE)];
    TimeLimitShutdown(LIMITED, reported);
    RegisteredIdsMembers(reported.regions, 0, 0);
  }

  /** Between a region's summary and its registration the roulette can only pick it, and the leader
      has no region to send to: handling a result throws. */
  lemma PickedBeforeRegistered(solutions: seq<Solution>, pick: nat)
    requires solutions != []
    ensures IsRun(SINGLE, States(), Actions())
    ensures var leader := States()[3].leader;
      && WellSized(SINGLE, leader)
      && (PickAllowed(leader, Some(pick)) <==> pick == 0)
      && OnSolutionResult(SINGLE, leader, solutions, Some(pick)) == None
  {
    RunOfExample();
  }
}
