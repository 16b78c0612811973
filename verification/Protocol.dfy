/** The region protocol: one leader, its regions, and the messages in flight. A region's messages to
    the leader arrive in order; messages to a region are delivered in any order. */
module Protocol {
  import opened Analyser
  import opened Options
  import opened Regions
  import opened RegionSelector
  import opened Messages
  import opened Leader
  import opened Sequences
  import opened SimulationActors
  import opened RegionActors

  /** A region entity: its life, what is in flight to it, and what is in flight from it to the leader. */
  datatype Node = Node(life: Option<seq<Solution>>, inbox: seq<RegionMessage>, outbox: seq<LeaderMessage>)

  /** The last three fields are history: every solution the leader was handed, every solution that
      was sent twice, and every solution that was dropped. */
  datatype System = System(
    leader: LeaderState,
    nodes: seq<Node>,
    accepted: multiset<Solution>,
    duplicated: multiset<Solution>,
    lost: multiset<Solution>)

  datatype Action =
    | AgentResult(solutions: seq<Solution>, pick: Option<nat>)
    | LeaderReceives(i: nat, pickLower: Option<nat>, pickHigher: Option<nat>)
    | RegionReceives(i: nat, k: nat, reported: Summary, merged: Summary)
    | RegionStimulus(i: nat, global: Option<Summary>, summary: Summary)
    | AskMerge(i: nat)

  function InitialSystem(cfg: Settings): System {
    System(InitialState(cfg), seq(cfg.maxRegions, _ => Node(None, [], [])), multiset{}, multiset{}, multiset{})
  }

  // ----- delivery

  function DeliverOne(nodes: seq<Node>, e: Envelope): seq<Node> {
    if e.ToRegion? && e.id < |nodes|
    then nodes[e.id := nodes[e.id].(inbox := nodes[e.id].inbox + [e.message])]
    else nodes
  }

  function Deliver(nodes: seq<Node>, envelopes: seq<Envelope>): (r: seq<Node>)
    ensures |r| == |nodes|
  {
    if envelopes == [] then nodes
    else DeliverOne(Deliver(nodes, envelopes[..|envelopes| - 1]), envelopes[|envelopes| - 1])
  }

  function MessagesTo(envelopes: seq<Envelope>, j: nat): seq<RegionMessage> {
    if envelopes == [] then []
    else
      var e := envelopes[|envelopes| - 1];
      MessagesTo(envelopes[..|envelopes| - 1], j) + if e.ToRegion? && e.id == j then [e.message] else []
  }

  lemma {:induction false} DeliverAppends(nodes: seq<Node>, envelopes: seq<Envelope>, j: nat)
    requires j < |nodes|
    ensures Deliver(nodes, envelopes)[j] == nodes[j].(inbox := nodes[j].inbox + MessagesTo(envelopes, j))
  {
    if envelopes == [] {
      assert nodes[j].inbox + [] == nodes[j].inbox;
    } else {
      var init, e := envelopes[..|envelopes| - 1], envelopes[|envelopes| - 1];
      DeliverAppends(nodes, init, j);
      assert nodes[j].inbox + MessagesTo(envelopes, j)
          == nodes[j].inbox + MessagesTo(init, j) + if e.ToRegion? && e.id == j then [e.message] else [];
    }
  }

  function Without<T>(s: seq<T>, k: nat): seq<T>
    requires k < |s|
  {
    s[..k] + s[k + 1..]
  }

  // ----- the leader's handlers, dispatched on the message

  function LeaderHandles(cfg: Settings, s: LeaderState, i: nat, m: LeaderMessage,
                         pickLower: Option<nat>, pickHigher: Option<nat>): Option<LeaderState>
    requires i < |s.regions| == |s.regionsSummary|
  {
    match m
    case RegionRegister(stats) => Some(OnRegionRegister(cfg, s, i, stats))
    case UpdateRegionSummary(summary) => Some(OnUpdateRegionSummary(cfg, s, i, summary))
    case RegionSplit(lower, higher) => OnRegionSplit(s, lower, higher, pickLower, pickHigher)
    case RegionRelease => Some(OnRegionRelease(cfg, s, i))
    case MergeRequested => Some(OnMergeRequest(s, i))
  }

  ghost predicate PickAllowed(s: LeaderState, pick: Option<nat>) {
    pick.Some? ==>
      && |s.regions| == |s.regionsSummary| && AllIds(s.regionUsedIds, |s.regions|)
      && MaySelect(s.regionUsedIds, s.regions, s.regionsSummary, pick.value)
  }

  /** The picks of a split: the second roulette turns after the first half has been placed. */
  ghost predicate SplitPicksAllowed(s: LeaderState, lower: seq<Solution>, higher: seq<Solution>,
                                    pickLower: Option<nat>, pickHigher: Option<nat>)
  {
    && PickAllowed(s, pickLower)
    && var placed := PlaceHalf(s, lower, higher, pickLower);
       placed.Some? ==> PickAllowed(placed.value, pickHigher)
  }

  /** The messages whose handlers advance the clock. */
  predicate Ticks(m: LeaderMessage) {
    m.RegionRegister? || m.UpdateRegionSummary? || m.RegionRelease?
  }

  /** Which actions can happen: no handler throws at the leader, and the clock does not reach the limit. */
  ghost predicate Enabled(cfg: Settings, s: System, a: Action)
    requires WellSized(cfg, s.leader) && |s.nodes| == cfg.maxRegions
  {
    match a
    case AgentResult(solutions, pick) =>
      PickAllowed(s.leader, pick) && OnSolutionResult(cfg, s.leader, solutions, pick).Some?
    case LeaderReceives(i, pickLower, pickHigher) =>
      && i < |s.nodes| && s.nodes[i].outbox != []
      && var m := s.nodes[i].outbox[0];
      && (Ticks(m) ==> !LimitReached(cfg, s.leader.time + 1))
      && (m.RegionSplit? ==> SplitPicksAllowed(s.leader, m.lower, m.higher, pickLower, pickHigher))
      && LeaderHandles(cfg, s.leader, i, m, pickLower, pickHigher).Some?
    case RegionReceives(i, k, reported, _) =>
      && i < |s.nodes| && k < |s.nodes[i].inbox|
      && Describes(reported, Joined(s.nodes[i].life, s.nodes[i].inbox[k]))
    case RegionStimulus(i, _, summary) =>
      && i < |s.nodes|
      && (s.nodes[i].life.Some? ==> Describes(summary, s.nodes[i].life.value))
    case AskMerge(i) => i < |s.nodes| && s.nodes[i].life.Some?
  }

  /** What an action hands to the leader for the first time. */
  function Gain(a: Action): multiset<Solution> {
    if a.AgentResult? then multiset(a.solutions) else multiset{}
  }

  function Payload(m: RegionMessage): seq<Solution> {
    match m
    case CreateRegion(solutions) => solutions
    case SolutionResponse(solutions) => solutions
    case MergeResult(solutions) => solutions
    case _ => []
  }

  /** What an action drops. */
  function Loss(cfg: Settings, s: System, a: Action): multiset<Solution> {
    match a
    case AgentResult(solutions, _) =>
      if |s.leader.regionUsedIds| < cfg.minRegions && s.leader.regionsIds == [] then multiset(solutions) else multiset{}
    case LeaderReceives(i, _, _) =>
      if i < |s.nodes| && s.nodes[i].outbox != [] && s.nodes[i].outbox[0].RegionSplit? && s.leader.regionsIds == []
      then multiset(s.nodes[i].outbox[0].lower) else multiset{}
    case RegionReceives(i, k, _, _) =>
      if i < |s.nodes| && k < |s.nodes[i].inbox| && s.nodes[i].life.None? && !s.nodes[i].inbox[k].CreateRegion?
      then multiset(Payload(s.nodes[i].inbox[k])) else multiset{}
    case _ => multiset{}
  }

  /** What an action sends a second time. */
  function Duplicate(s: System, a: Action): multiset<Solution> {
    if a.LeaderReceives? && a.i < |s.nodes| && s.nodes[a.i].outbox != [] && s.nodes[a.i].outbox[0].RegionSplit?
       && s.leader.regionsIds == [] && s.nodes[a.i].outbox[0].lower != []
    then multiset(s.nodes[a.i].outbox[0].higher) else multiset{}
  }

  function AfterLeader(s: System, nodes: seq<Node>, leader: LeaderState): System {
    s.(leader := leader.(sent := []), nodes := Deliver(nodes, leader.sent))
  }

  function AfterRegion(s: System, i: nat, inbox: seq<RegionMessage>, r: Reaction): System
    requires i < |s.nodes|
  {
    s.(nodes := Deliver(s.nodes[i := Node(r.life, inbox, s.nodes[i].outbox + r.toLeader)], r.toRegions))
  }

  /** One step, without its history. */
  ghost function Move(cfg: Settings, s: System, a: Action): System
    requires WellSized(cfg, s.leader) && |s.nodes| == cfg.maxRegions
    requires Enabled(cfg, s, a)
  {
    match a
    case AgentResult(solutions, pick) =>
      AfterLeader(s, s.nodes, OnSolutionResult(cfg, s.leader, solutions, pick).value)
    case LeaderReceives(i, pickLower, pickHigher) =>
      var node := s.nodes[i];
      AfterLeader(s, s.nodes[i := node.(outbox := node.outbox[1..])],
                  LeaderHandles(cfg, s.leader, i, node.outbox[0], pickLower, pickHigher).value)
    case RegionReceives(i, k, reported, merged) =>
      var node := s.nodes[i];
      AfterRegion(s, i, Without(node.inbox, k), React(i, node.life, node.inbox[k], reported, merged))
    case RegionStimulus(i, global, summary) =>
      AfterRegion(s, i, s.nodes[i].inbox, Stimulate(s.nodes[i].life, global, summary, cfg.minSolutionsToSplit))
    case AskMerge(i) =>
      AfterRegion(s, i, s.nodes[i].inbox, Reaction(s.nodes[i].life, [MergeRequested], []))
  }

  ghost function Next(cfg: Settings, s: System, a: Action): System
    requires WellSized(cfg, s.leader) && |s.nodes| == cfg.maxRegions
    requires Enabled(cfg, s, a)
  {
    Move(cfg, s, a).(accepted := s.accepted + Gain(a), duplicated := s.duplicated + Duplicate(s, a),
                     lost := s.lost + Loss(cfg, s, a))
  }

  // ----- the invariant

  function Creates(inbox: seq<RegionMessage>): nat {
    if inbox == [] then 0
    else Creates(inbox[..|inbox| - 1]) + if inbox[|inbox| - 1].CreateRegion? then 1 else 0
  }

  function Releases(outbox: seq<LeaderMessage>): nat {
    if outbox == [] then 0
    else Releases(outbox[..|outbox| - 1]) + if outbox[|outbox| - 1].RegionRelease? then 1 else 0
  }

  /** How many of the three carriers of an id exist: a creation in flight, a live region, a release in flight. */
  function Tokens(node: Node): nat {
    Creates(node.inbox) + (if node.life.Some? then 1 else 0) + Releases(node.outbox)
  }

  function Uses(ids: seq<nat>, i: nat): nat {
    multiset(ids)[i]
  }

  /** Nothing of an earlier life is left: the leader's slot is empty and no message is in flight to it. */
  predicate SlotEmpty(leader: LeaderState, node: Node, i: nat)
    requires i < |leader.regions| == |leader.regionsSummary|
  {
    !leader.regions[i] && leader.regionsSummary[i] == None && node.outbox == []
  }

  predicate ReleaseIsLast(outbox: seq<LeaderMessage>) {
    forall j :: 0 <= j < |outbox| - 1 ==> !outbox[j].RegionRelease?
  }

  predicate InboxOk(inbox: seq<RegionMessage>, n: nat) {
    forall m :: m in inbox ==>
      && !m.StopSimulation?
      && (m.CreateRegion? ==> m.initialSolutions != [])
      && (m.MergeRequest? ==> m.requester < n)
      && (m.MergeResponse? ==> m.responder < n)
  }

  ghost predicate OutboxOk(outbox: seq<LeaderMessage>) {
    && ReleaseIsLast(outbox)
    && forall m :: m in outbox && m.RegionSplit? ==> Precedes(m.lower, m.higher)
  }

  ghost predicate NodeOk(cfg: Settings, leader: LeaderState, node: Node, i: nat)
    requires i < |leader.regions| == |leader.regionsSummary|
  {
    && Uses(leader.regionsIds, i) + Uses(leader.regionUsedIds, i) == 1
    && Tokens(node) == Uses(leader.regionUsedIds, i)
    && (node.life.None? && Releases(node.outbox) == 0 ==> SlotEmpty(leader, node, i))
    && (node.life.Some? ==> node.life.value != [])
    && InboxOk(node.inbox, cfg.maxRegions)
    && OutboxOk(node.outbox)
  }

  ghost predicate Inv(cfg: Settings, s: System) {
    && WellSized(cfg, s.leader) && |s.nodes| == cfg.maxRegions
    && s.leader.sent == []
    && forall i :: 0 <= i < cfg.maxRegions ==> NodeOk(cfg, s.leader, s.nodes[i], i)
  }

  // ----- counting lemmas

  lemma {:induction false} CreatesConcat(a: seq<RegionMessage>, b: seq<RegionMessage>)
    ensures Creates(a + b) == Creates(a) + Creates(b)
  {
    if b == [] {
      assert a + b == a;
    } else {
      CreatesConcat(a, b[..|b| - 1]);
      assert (a + b)[..|a + b| - 1] == a + b[..|b| - 1];
    }
  }

  lemma {:induction false} ReleasesConcat(a: seq<LeaderMessage>, b: seq<LeaderMessage>)
    ensures Releases(a + b) == Releases(a) + Releases(b)
  {
    if b == [] {
      assert a + b == a;
    } else {
      ReleasesConcat(a, b[..|b| - 1]);
      assert (a + b)[..|a + b| - 1] == a + b[..|b| - 1];
    }
  }

  lemma CreatesOne(m: RegionMessage)
    ensures Creates([m]) == if m.CreateRegion? then 1 else 0
  {
    assert [m][..0] == [];
  }

  lemma ReleasesOne(m: LeaderMessage)
    ensures Releases([m]) == if m.RegionRelease? then 1 else 0
  {
    assert [m][..0] == [];
  }

  lemma CreatesMiddle(a: seq<RegionMessage>, m: RegionMessage, b: seq<RegionMessage>)
    ensures Creates(a + [m] + b) == Creates(a + b) + if m.CreateRegion? then 1 else 0
  {
    hide Creates;
    CreatesConcat(a + [m], b);
    CreatesConcat(a, [m]);
    CreatesConcat(a, b);
    CreatesOne(m);
  }

  lemma CreatesWithout(inbox: seq<RegionMessage>, k: nat)
    requires k < |inbox|
    ensures Creates(inbox) == Creates(Without(inbox, k)) + if inbox[k].CreateRegion? then 1 else 0
  {
    hide Creates;
    CreatesMiddle(inbox[..k], inbox[k], inbox[k + 1..]);
    assert inbox == inbox[..k] + [inbox[k]] + inbox[k + 1..];
  }

  lemma ReleasesHead(outbox: seq<LeaderMessage>)
    requires outbox != []
    ensures Releases(outbox) == Releases(outbox[1..]) + if outbox[0].RegionRelease? then 1 else 0
  {
    assert outbox == [outbox[0]] + outbox[1..];
    ReleasesConcat([outbox[0]], outbox[1..]);
    ReleasesOne(outbox[0]);
  }

  /** A release at the head of a region's queue is the whole queue. */
  lemma ReleaseAtHead(outbox: seq<LeaderMessage>)
    requires outbox != [] && outbox[0].RegionRelease? && ReleaseIsLast(outbox)
    ensures outbox == [RegionRelease]
  {
  }

  // ----- every step keeps the invariant

  ghost predicate AllOk(cfg: Settings, leader: LeaderState, nodes: seq<Node>) {
    && WellSized(cfg, leader) && |nodes| == cfg.maxRegions
    && forall i :: 0 <= i < cfg.maxRegions ==> NodeOk(cfg, leader, nodes[i], i)
  }

  /** The nodes are in order once everything the leader has sent is in their inboxes. */
  ghost predicate Settled(cfg: Settings, leader: LeaderState, nodes: seq<Node>) {
    AllOk(cfg, leader, Deliver(nodes, leader.sent))
  }

  /** A message that creates and stops nothing. */
  predicate Quiet(cfg: Settings, e: Envelope) {
    e.ToRegion? ==>
      && !e.message.CreateRegion? && !e.message.StopSimulation?
      && (e.message.MergeRequest? ==> e.message.requester < cfg.maxRegions)
      && (e.message.MergeResponse? ==> e.message.responder < cfg.maxRegions)
  }

  lemma QuietMessage(cfg: Settings, leader: LeaderState, node: Node, i: nat, m: RegionMessage)
    requires i < |leader.regions| == |leader.regionsSummary|
    requires NodeOk(cfg, leader, node, i) && Quiet(cfg, ToRegion(i, m))
    ensures NodeOk(cfg, leader, node.(inbox := node.inbox + [m]), i)
  {
    CreatesConcat(node.inbox, [m]);
    CreatesOne(m);
  }

  lemma DeliverOneQuiet(cfg: Settings, leader: LeaderState, nodes: seq<Node>, e: Envelope)
    requires AllOk(cfg, leader, nodes) && Quiet(cfg, e)
    ensures AllOk(cfg, leader, DeliverOne(nodes, e))
  {
    if e.ToRegion? && e.id < |nodes| {
      QuietMessage(cfg, leader, nodes[e.id], e.id, e.message);
    }
  }

  lemma {:induction false} DeliverQuiet(cfg: Settings, leader: LeaderState, nodes: seq<Node>, envelopes: seq<Envelope>)
    requires AllOk(cfg, leader, nodes)
    requires forall e :: e in envelopes ==> Quiet(cfg, e)
    ensures AllOk(cfg, leader, Deliver(nodes, envelopes))
  {
    hide AllOk, Quiet;
    if envelopes != [] {
      var last := |envelopes| - 1;
      assert envelopes[last] in envelopes && forall e :: e in envelopes[..last] ==> e in envelopes;
      DeliverQuiet(cfg, leader, nodes, envelopes[..last]);
      DeliverOneQuiet(cfg, leader, Deliver(nodes, envelopes[..last]), envelopes[last]);
    }
  }

  lemma DeliverLast(nodes: seq<Node>, envelopes: seq<Envelope>, e: Envelope)
    ensures Deliver(nodes, envelopes + [e]) == DeliverOne(Deliver(nodes, envelopes), e)
  {
    assert (envelopes + [e])[..|envelopes|] == envelopes;
  }

  lemma RouteSettles(cfg: Settings, leader: LeaderState, nodes: seq<Node>, solutions: seq<Solution>, pick: Option<nat>)
    requires Settled(cfg, leader, nodes)
    ensures var r := RouteTo(leader, solutions, pick); r.Some? ==> Settled(cfg, r.value, nodes)
  {
    if RouteTo(leader, solutions, pick).Some? {
      var e := ToRegion(pick.value, SolutionResponse(solutions));
      DeliverLast(nodes, leader.sent, e);
      DeliverOneQuiet(cfg, leader, Deliver(nodes, leader.sent), e);
    }
  }

  lemma UsesAppend(ids: seq<nat>, id: nat, i: nat)
    ensures Uses(ids + [id], i) == Uses(ids, i) + if i == id then 1 else 0
  {
  }

  lemma UsesTail(ids: seq<nat>, i: nat)
    requires ids != []
    ensures Uses(ids, i) == Uses(ids[1..], i) + if i == ids[0] then 1 else 0
  {
    assert ids == [ids[0]] + ids[1..];
  }

  lemma NodeCreated(cfg: Settings, leader: LeaderState, node: Node, i: nat, solutions: seq<Solution>)
    requires WellSized(cfg, leader) && i < cfg.maxRegions
    requires leader.regionsIds != [] && solutions != []
    requires NodeOk(cfg, leader, node, i)
    ensures i != leader.regionsIds[0] ==> NodeOk(cfg, TakeId(leader), node, i)
    ensures i == leader.regionsIds[0] ==>
      NodeOk(cfg, TakeId(leader), node.(inbox := node.inbox + [CreateRegion(solutions)]), i)
  {
    UsesTail(leader.regionsIds, i);
    UsesAppend(leader.regionUsedIds, leader.regionsIds[0], i);
    CreatesConcat(node.inbox, [CreateRegion(solutions)]);
    CreatesOne(CreateRegion(solutions));
  }

  lemma CreateSettles(cfg: Settings, leader: LeaderState, nodes: seq<Node>, solutions: seq<Solution>)
    requires Settled(cfg, leader, nodes) && leader.regionsIds != [] && solutions != []
    ensures Settled(cfg, CreateOn(leader, solutions), nodes)
  {
    var e := ToRegion(leader.regionsIds[0], CreateRegion(solutions));
    var before := Deliver(nodes, leader.sent);
    DeliverLast(nodes, leader.sent, e);
    var created := CreateOn(leader, solutions);
    forall i | 0 <= i < cfg.maxRegions
      ensures NodeOk(cfg, created, DeliverOne(before, e)[i], i)
    {
      NodeCreated(cfg, leader, before[i], i, solutions);
    }
  }

  lemma ResultSettles(cfg: Settings, leader: LeaderState, nodes: seq<Node>, solutions: seq<Solution>, pick: Option<nat>)
    requires Settled(cfg, leader, nodes)
    ensures var r := OnSolutionResult(cfg, leader, solutions, pick); r.Some? ==> Settled(cfg, r.value, nodes)
  {
    hide Settled;
    RouteSettles(cfg, leader, nodes, solutions, pick);
    if solutions != [] && leader.regionsIds != [] {
      CreateSettles(cfg, leader, nodes, solutions);
    }
  }

  lemma HalfSettles(cfg: Settings, leader: LeaderState, nodes: seq<Node>, half: seq<Solution>, rerouted: seq<Solution>,
                    pick: Option<nat>)
    requires Settled(cfg, leader, nodes)
    ensures var r := PlaceHalf(leader, half, rerouted, pick); r.Some? ==> Settled(cfg, r.value, nodes)
  {
    hide Settled;
    RouteSettles(cfg, leader, nodes, rerouted, pick);
    if half != [] && leader.regionsIds != [] {
      CreateSettles(cfg, leader, nodes, half);
    }
  }

  lemma SplitSettles(cfg: Settings, leader: LeaderState, nodes: seq<Node>, lower: seq<Solution>, higher: seq<Solution>,
                     pickLower: Option<nat>, pickHigher: Option<nat>)
    requires Settled(cfg, leader, nodes)
    ensures var r := OnRegionSplit(leader, lower, higher, pickLower, pickHigher); r.Some? ==> Settled(cfg, r.value, nodes)
  {
    hide Settled, PlaceHalf;
    HalfSettles(cfg, leader, nodes, lower, higher, pickLower);
    var placed := PlaceHalf(leader, lower, higher, pickLower);
    if placed.Some? {
      HalfSettles(cfg, placed.value, nodes, higher, higher, pickHigher);
    }
  }

  lemma {:induction false} MergeEnvelopesQuiet(cfg: Settings, regions: seq<bool>, from: nat)
    requires from < cfg.maxRegions
    ensures forall e :: e in MergeEnvelopes(regions, from) ==> Quiet(cfg, e)
  {
    if regions != [] {
      MergeEnvelopesQuiet(cfg, regions[..|regions| - 1], from);
    }
  }

  /** Taking a message other than a release from the head of a queue. */
  lemma PopKeepsNode(cfg: Settings, leader: LeaderState, later: LeaderState, node: Node, i: nat)
    requires i < |leader.regions| == |leader.regionsSummary| == |later.regions| == |later.regionsSummary|
    requires later.regionsIds == leader.regionsIds && later.regionUsedIds == leader.regionUsedIds
    requires NodeOk(cfg, leader, node, i) && node.outbox != [] && !node.outbox[0].RegionRelease?
    ensures NodeOk(cfg, later, node.(outbox := node.outbox[1..]), i)
  {
    ReleasesHead(node.outbox);
  }

  lemma PopKeepsAll(cfg: Settings, leader: LeaderState, later: LeaderState, nodes: seq<Node>, i: nat)
    requires AllOk(cfg, leader, nodes) && WellSized(cfg, later) && i < |nodes|
    requires later.regionsIds == leader.regionsIds && later.regionUsedIds == leader.regionUsedIds
    requires forall j :: 0 <= j < cfg.maxRegions && j != i ==>
      later.regions[j] == leader.regions[j] && later.regionsSummary[j] == leader.regionsSummary[j]
    requires nodes[i].outbox != [] && !nodes[i].outbox[0].RegionRelease?
    ensures AllOk(cfg, later, nodes[i := nodes[i].(outbox := nodes[i].outbox[1..])])
  {
    var nodes' := nodes[i := nodes[i].(outbox := nodes[i].outbox[1..])];
    forall j | 0 <= j < cfg.maxRegions
      ensures NodeOk(cfg, later, nodes'[j], j)
    {
      if j == i {
        PopKeepsNode(cfg, leader, later, nodes[i], i);
      }
    }
  }

  lemma UsesReleased(ids: seq<nat>, id: nat, i: nat)
    requires id in ids
    ensures Uses(RemoveFirst(ids, id), i) == Uses(ids, i) - if i == id then 1 else 0
  {
    RemoveFirstMembers(ids, id);
  }

  /** Handling the release of region `i`: its queue is empty and so is its slot. */
  lemma ReleaseKeepsAll(cfg: Settings, leader: LeaderState, nodes: seq<Node>, i: nat)
    requires AllOk(cfg, leader, nodes) && i < |nodes|
    requires nodes[i].outbox != [] && nodes[i].outbox[0].RegionRelease?
    ensures AllOk(cfg, Forget(leader, i), nodes[i := nodes[i].(outbox := nodes[i].outbox[1..])])
    ensures SlotEmpty(Forget(leader, i), nodes[i].(outbox := nodes[i].outbox[1..]), i)
  {
    ForgetKeepsSize(cfg, leader, i);
    ReleaseAtHead(nodes[i].outbox);
    ReleasesOne(RegionRelease);
    var later, nodes' := Forget(leader, i), nodes[i := nodes[i].(outbox := nodes[i].outbox[1..])];
    assert i in leader.regionUsedIds;
    forall j | 0 <= j < cfg.maxRegions
      ensures NodeOk(cfg, later, nodes'[j], j)
    {
      UsesReleased(leader.regionUsedIds, i, j);
      UsesAppend(leader.regionsIds, i, j);
    }
  }

  // ----- region steps

  lemma OutboxAppend(a: seq<LeaderMessage>, b: seq<LeaderMessage>)
    requires OutboxOk(a) && OutboxOk(b) && Releases(a) == 0
    ensures OutboxOk(a + b)
    ensures Releases(a + b) == Releases(b)
  {
    ReleasesConcat(a, b);
    NoReleaseIn(a);
  }

  lemma {:induction false} NoReleaseIn(a: seq<LeaderMessage>)
    requires Releases(a) == 0
    ensures forall m :: m in a ==> !m.RegionRelease?
  {
    if a != [] {
      NoReleaseIn(a[..|a| - 1]);
    }
  }

  /** A region whose life goes on, or starts, with one more release sent iff the life ends. */
  lemma LifeGoesOn(cfg: Settings, leader: LeaderState, node: Node, i: nat, inbox: seq<RegionMessage>, r: Reaction)
    requires i < |leader.regions| == |leader.regionsSummary|
    requires NodeOk(cfg, leader, node, i) && Releases(node.outbox) == 0
    requires OutboxOk(r.toLeader) && InboxOk(inbox, cfg.maxRegions)
    requires r.life.Some? ==> r.life.value != []
    requires Creates(inbox) + (if r.life.Some? then 1 else 0) + Releases(r.toLeader) == Tokens(node)
    requires r.life.None? && Releases(r.toLeader) == 0 ==> node.life.None? && r.toLeader == []
    ensures NodeOk(cfg, leader, Node(r.life, inbox, node.outbox + r.toLeader), i)
  {
    OutboxAppend(node.outbox, r.toLeader);
    if r.toLeader == [] {
      assert node.outbox + [] == node.outbox;
    }
  }

  /** A region with a release in flight reacts to nothing. */
  lemma DeadKeepsNode(cfg: Settings, leader: LeaderState, node: Node, i: nat, inbox: seq<RegionMessage>)
    requires i < |leader.regions| == |leader.regionsSummary|
    requires NodeOk(cfg, leader, node, i) && node.life.None?
    requires InboxOk(inbox, cfg.maxRegions) && Creates(inbox) == Creates(node.inbox)
    ensures NodeOk(cfg, leader, Node(None, inbox, node.outbox + []), i)
  {
    assert node.outbox + [] == node.outbox;
  }

  lemma WithoutOk(inbox: seq<RegionMessage>, k: nat, n: nat)
    requires k < |inbox| && InboxOk(inbox, n)
    ensures InboxOk(Without(inbox, k), n)
    ensures inbox[k] in inbox
  {
    forall m | m in Without(inbox, k)
      ensures m in inbox
    {
    }
  }

  lemma ReactionOutbox(id: nat, life: Option<seq<Solution>>, m: RegionMessage, reported: Summary, merged: Summary)
    requires !m.StopSimulation?
    ensures var r := React(id, life, m, reported, merged);
      && OutboxOk(r.toLeader)
      && Releases(r.toLeader) == if m.MergeResponse? && life.Some? then 1 else 0
  {
    var r := React(id, life, m, reported, merged);
    if r.toLeader != [] {
      var last := |r.toLeader| - 1;
      assert r.toLeader[..last] == [] || r.toLeader[..last] == [UpdateRegionSummary(reported)];
      ReleasesOne(UpdateRegionSummary(reported));
    }
  }

  lemma ReactKeepsNode(cfg: Settings, leader: LeaderState, node: Node, i: nat, k: nat, reported: Summary, merged: Summary)
    requires i < |leader.regions| == |leader.regionsSummary|
    requires NodeOk(cfg, leader, node, i) && k < |node.inbox|
    ensures var r := React(i, node.life, node.inbox[k], reported, merged);
      NodeOk(cfg, leader, Node(r.life, Without(node.inbox, k), node.outbox + r.toLeader), i)
    ensures node.inbox[k].CreateRegion? ==> node.life.None?
  {
    var m, inbox := node.inbox[k], Without(node.inbox, k);
    CreatesWithout(node.inbox, k);
    WithoutOk(node.inbox, k, cfg.maxRegions);
    ReactionOutbox(i, node.life, m, reported, merged);
    var r := React(i, node.life, m, reported, merged);
    if node.life.None? && !m.CreateRegion? {
      DeadKeepsNode(cfg, leader, node, i, inbox);
    } else {
      LifeGoesOn(cfg, leader, node, i, inbox, r);
    }
  }

  lemma RegionSettles(cfg: Settings, s: System, i: nat, inbox: seq<RegionMessage>, r: Reaction)
    requires Inv(cfg, s) && i < |s.nodes|
    requires NodeOk(cfg, s.leader, Node(r.life, inbox, s.nodes[i].outbox + r.toLeader), i)
    requires forall e :: e in r.toRegions ==> Quiet(cfg, e)
    ensures Inv(cfg, AfterRegion(s, i, inbox, r))
  {
    var nodes := s.nodes[i := Node(r.life, inbox, s.nodes[i].outbox + r.toLeader)];
    assert AllOk(cfg, s.leader, nodes);
    DeliverQuiet(cfg, s.leader, nodes, r.toRegions);
  }

  lemma LeaderSettles(cfg: Settings, s: System, nodes: seq<Node>, leader: LeaderState)
    requires Inv(cfg, s) && Settled(cfg, leader, nodes)
    ensures Inv(cfg, AfterLeader(s, nodes, leader))
  {
    var quiet := leader.(sent := []);
    var delivered := Deliver(nodes, leader.sent);
    forall i | 0 <= i < cfg.maxRegions
      ensures NodeOk(cfg, quiet, delivered[i], i)
    {
      assert NodeOk(cfg, leader, delivered[i], i);
    }
  }

  lemma NothingSent(cfg: Settings, leader: LeaderState, nodes: seq<Node>)
    requires AllOk(cfg, leader, nodes) && leader.sent == []
    ensures Settled(cfg, leader, nodes)
  {
  }

  lemma LeaderStepKeepsInv(cfg: Settings, s: System, i: nat, pickLower: Option<nat>, pickHigher: Option<nat>)
    requires Inv(cfg, s) && Enabled(cfg, s, LeaderReceives(i, pickLower, pickHigher))
    ensures Inv(cfg, Move(cfg, s, LeaderReceives(i, pickLower, pickHigher)))
  {
    var node := s.nodes[i];
    var m, nodes := node.outbox[0], s.nodes[i := node.(outbox := node.outbox[1..])];
    var later := LeaderHandles(cfg, s.leader, i, m, pickLower, pickHigher).value;
    assert AllOk(cfg, s.leader, s.nodes);
    match m {
      case RegionRegister(stats) =>
        BeforeLimit(cfg, s.leader.(regions := s.leader.regions[i := true],
                                   regionsSummary := s.leader.regionsSummary[i := Some(stats)]));
        PopKeepsAll(cfg, s.leader, later, s.nodes, i);
        NothingSent(cfg, later, nodes);
      case UpdateRegionSummary(summary) =>
        BeforeLimit(cfg, s.leader.(regionsSummary := s.leader.regionsSummary[i := Some(summary)]));
        PopKeepsAll(cfg, s.leader, later, s.nodes, i);
        NothingSent(cfg, later, nodes);
      case RegionSplit(lower, higher) =>
        PopKeepsAll(cfg, s.leader, s.leader, s.nodes, i);
        NothingSent(cfg, s.leader, nodes);
        SplitSettles(cfg, s.leader, nodes, lower, higher, pickLower, pickHigher);
      case RegionRelease =>
        ReleaseKeepsAll(cfg, s.leader, s.nodes, i);
        ReleaseTicks(cfg, s.leader, nodes, i);
      case MergeRequested =>
        PopKeepsAll(cfg, s.leader, s.leader, s.nodes, i);
        MergeEnvelopesQuiet(cfg, s.leader.regions, i);
        DeliverQuiet(cfg, s.leader, nodes, MergeEnvelopes(s.leader.regions, i));
        MergeSettles(cfg, s.leader, nodes, i);
    }
    LeaderSettles(cfg, s, nodes, later);
  }

  lemma ReleaseTicks(cfg: Settings, leader: LeaderState, nodes: seq<Node>, i: nat)
    requires WellSized(cfg, leader) && i < cfg.maxRegions && leader.sent == []
    requires !LimitReached(cfg, leader.time + 1) && AllOk(cfg, Forget(leader, i), nodes)
    ensures Settled(cfg, OnRegionRelease(cfg, leader, i), nodes)
  {
    var later := OnRegionRelease(cfg, leader, i);
    BeforeLimit(cfg, Forget(leader, i));
    assert later == Forget(leader, i).(time := leader.time + 1);
    forall j | 0 <= j < cfg.maxRegions
      ensures NodeOk(cfg, later, nodes[j], j)
    {
      assert NodeOk(cfg, Forget(leader, i), nodes[j], j);
    }
  }

  lemma MergeSettles(cfg: Settings, leader: LeaderState, nodes: seq<Node>, i: nat)
    requires leader.sent == [] && AllOk(cfg, leader, Deliver(nodes, MergeEnvelopes(leader.regions, i)))
    ensures Settled(cfg, OnMergeRequest(leader, i), nodes)
  {
    var later, delivered := OnMergeRequest(leader, i), Deliver(nodes, MergeEnvelopes(leader.regions, i));
    assert later.sent == MergeEnvelopes(leader.regions, i);
    forall j | 0 <= j < cfg.maxRegions
      ensures NodeOk(cfg, later, delivered[j], j)
    {
      assert NodeOk(cfg, leader, delivered[j], j);
    }
  }

  lemma StimulusKeepsNode(cfg: Settings, leader: LeaderState, node: Node, i: nat, global: Option<Summary>, summary: Summary)
    requires i < |leader.regions| == |leader.regionsSummary|
    requires NodeOk(cfg, leader, node, i)
    requires node.life.Some? ==> Describes(summary, node.life.value)
    ensures var r := Stimulate(node.life, global, summary, cfg.minSolutionsToSplit);
      NodeOk(cfg, leader, Node(r.life, node.inbox, node.outbox + r.toLeader), i)
  {
    var r := Stimulate(node.life, global, summary, cfg.minSolutionsToSplit);
    if node.life.None? {
      DeadKeepsNode(cfg, leader, node, i, node.inbox);
    } else {
      var held := node.life.value;
      StimulateKeepsRegion(held, global, summary, cfg.minSolutionsToSplit);
      SplitPartitions(held, cfg.minSolutionsToSplit, summary.deviation);
      if r.toLeader != [] {
        ReleasesOne(r.toLeader[0]);
      }
      LifeGoesOn(cfg, leader, node, i, node.inbox, r);
    }
  }

  lemma AskKeepsNode(cfg: Settings, leader: LeaderState, node: Node, i: nat)
    requires i < |leader.regions| == |leader.regionsSummary|
    requires NodeOk(cfg, leader, node, i) && node.life.Some?
    ensures NodeOk(cfg, leader, Node(node.life, node.inbox, node.outbox + [MergeRequested]), i)
  {
    ReleasesOne(MergeRequested);
    LifeGoesOn(cfg, leader, node, i, node.inbox, Reaction(node.life, [MergeRequested], []));
  }

  /** Every step of every interleaving keeps the invariant. */
  lemma StepKeepsInv(cfg: Settings, s: System, a: Action)
    requires Inv(cfg, s) && Enabled(cfg, s, a)
    ensures Inv(cfg, Next(cfg, s, a))
  {
    match a
    case AgentResult(solutions, pick) =>
      NothingSent(cfg, s.leader, s.nodes);
      ResultSettles(cfg, s.leader, s.nodes, solutions, pick);
      LeaderSettles(cfg, s, s.nodes, OnSolutionResult(cfg, s.leader, solutions, pick).value);
    case LeaderReceives(i, pickLower, pickHigher) =>
      LeaderStepKeepsInv(cfg, s, i, pickLower, pickHigher);
    case RegionReceives(i, k, reported, merged) =>
      var node := s.nodes[i];
      var r := React(i, node.life, node.inbox[k], reported, merged);
      ReactKeepsNode(cfg, s.leader, node, i, k, reported, merged);
      WithoutOk(node.inbox, k, cfg.maxRegions);
      RegionSettles(cfg, s, i, Without(node.inbox, k), r);
    case RegionStimulus(i, global, summary) =>
      StimulusKeepsNode(cfg, s.leader, s.nodes[i], i, global, summary);
      RegionSettles(cfg, s, i, s.nodes[i].inbox, Stimulate(s.nodes[i].life, global, summary, cfg.minSolutionsToSplit));
    case AskMerge(i) =>
      AskKeepsNode(cfg, s.leader, s.nodes[i], i);
      RegionSettles(cfg, s, i, s.nodes[i].inbox, Reaction(s.nodes[i].life, [MergeRequested], []));
  }

  lemma {:induction false} AscendingOnce(n: nat, i: nat)
    ensures Uses(AscendingIds(n), i) == if i < n then 1 else 0
  {
    if n > 0 {
      assert AscendingIds(n) == AscendingIds(n - 1) + [n - 1];
      AscendingOnce(n - 1, i);
      UsesAppend(AscendingIds(n - 1), n - 1, i);
    }
  }

  lemma InitialInv(cfg: Settings)
    ensures Inv(cfg, InitialSystem(cfg))
  {
    var s := InitialSystem(cfg);
    forall i | 0 <= i < cfg.maxRegions
      ensures NodeOk(cfg, s.leader, s.nodes[i], i)
    {
      AscendingOnce(cfg.maxRegions, i);
    }
  }
}
