/** Where a step of the leader sends solutions: exactly which inbox grows, and by what. */
module Deliveries {
  import opened Analyser
  import opened Options
  import opened RegionSelector
  import opened Messages
  import opened Leader
  import opened RegionActors
  import opened Protocol

  /** Node `j` with the messages appended to its inbox. */
  function Received(node: Node, messages: seq<RegionMessage>): Node {
    node.(inbox := node.inbox + messages)
  }

  lemma DeliversOne(nodes: seq<Node>, i: nat, m: RegionMessage, j: nat)
    requires j < |nodes|
    ensures Deliver(nodes, [ToRegion(i, m)])[j] == Received(nodes[j], if i == j then [m] else [])
  {
    DeliverAppends(nodes, [ToRegion(i, m)], j);
    assert [ToRegion(i, m)][..0] == [];
    assert MessagesTo([ToRegion(i, m)], j) == [] + if i == j then [m] else [];
  }

  lemma {:induction false} DeliverTwice(nodes: seq<Node>, a: seq<Envelope>, b: seq<Envelope>)
    ensures Deliver(nodes, a + b) == Deliver(Deliver(nodes, a), b)
  {
    if b == [] {
      assert a + b == a;
    } else {
      var last := |b| - 1;
      DeliverTwice(nodes, a, b[..last]);
      assert (a + b)[..|a + b| - 1] == a + b[..last];
    }
  }

  /** At or above the minimum a result goes to the region the roulette picked, as one message, and
      nothing else changes. */
  lemma ResultGoesToPicked(cfg: Settings, s: System, solutions: seq<Solution>, i: nat)
    requires Inv(cfg, s) && Enabled(cfg, s, AgentResult(solutions, Some(i)))
    requires solutions != [] && |s.leader.regionUsedIds| >= cfg.minRegions
    ensures var t := Next(cfg, s, AgentResult(solutions, Some(i)));
      && i < |s.nodes| == |t.nodes| && t.leader == s.leader
      && t.nodes[i] == s.nodes[i].(inbox := s.nodes[i].inbox + [SolutionResponse(solutions)])
      && forall j :: 0 <= j < |s.nodes| && j != i ==> t.nodes[j] == s.nodes[j]
  {
    var t := Next(cfg, s, AgentResult(solutions, Some(i)));
    var sent := OnSolutionResult(cfg, s.leader, solutions, Some(i)).value.sent;
    assert sent == [ToRegion(i, SolutionResponse(solutions))];
    forall j | 0 <= j < |s.nodes|
      ensures t.nodes[j] == Received(s.nodes[j], if i == j then [SolutionResponse(solutions)] else [])
    {
      DeliversOne(s.nodes, i, SolutionResponse(solutions), j);
    }
  }

  /** Below the minimum a result goes into a creation on the first free id, which becomes used; without
      a free id nothing is sent. */
  lemma ResultCreates(cfg: Settings, s: System, solutions: seq<Solution>, pick: Option<nat>)
    requires Inv(cfg, s) && Enabled(cfg, s, AgentResult(solutions, pick))
    requires solutions != [] && |s.leader.regionUsedIds| < cfg.minRegions
    ensures var t := Next(cfg, s, AgentResult(solutions, pick));
      && |t.nodes| == |s.nodes|
      && (s.leader.regionsIds == [] ==> t.leader == s.leader && t.nodes == s.nodes)
      && (s.leader.regionsIds != [] ==>
            var id := s.leader.regionsIds[0];
            && id < |s.nodes|
            && t.leader == s.leader.(regionsIds := s.leader.regionsIds[1..], regionUsedIds := s.leader.regionUsedIds + [id])
            && t.nodes[id] == s.nodes[id].(inbox := s.nodes[id].inbox + [CreateRegion(solutions)])
            && forall j :: 0 <= j < |s.nodes| && j != id ==> t.nodes[j] == s.nodes[j])
  {
    var t := Next(cfg, s, AgentResult(solutions, pick));
    if s.leader.regionsIds != [] {
      var id := s.leader.regionsIds[0];
      assert OnSolutionResult(cfg, s.leader, solutions, pick).value.sent == [ToRegion(id, CreateRegion(solutions))];
      forall j | 0 <= j < |s.nodes|
        ensures t.nodes[j] == Received(s.nodes[j], if id == j then [CreateRegion(solutions)] else [])
      {
        DeliversOne(s.nodes, id, CreateRegion(solutions), j);
      }
    }
  }

  /** What one half of a split is sent as, to whom: a creation on the first free id, or `rerouted` to the
      region picked. */
  function HalfGoes(free: seq<nat>, half: seq<Solution>, rerouted: seq<Solution>, pick: Option<nat>): seq<Envelope> {
    if half == [] then []
    else if free != [] then [ToRegion(free[0], CreateRegion(half))]
    else if pick.Some? then [ToRegion(pick.value, SolutionResponse(rerouted))]
    else []
  }

  /** The ids left after one half. */
  function FreeAfter(free: seq<nat>, half: seq<Solution>): seq<nat> {
    if half != [] && free != [] then free[1..] else free
  }

  lemma HalfSent(s: LeaderState, half: seq<Solution>, rerouted: seq<Solution>, pick: Option<nat>)
    requires PlaceHalf(s, half, rerouted, pick).Some?
    ensures var r := PlaceHalf(s, half, rerouted, pick).value;
      && r.sent == s.sent + HalfGoes(s.regionsIds, half, rerouted, pick)
      && r.regionsIds == FreeAfter(s.regionsIds, half)
      && r.regions == s.regions && r.regionsSummary == s.regionsSummary && r.time == s.time && r.status == s.status
      && (half != [] && s.regionsIds == [] ==> pick.Some? && pick.value < |s.regions| && s.regions[pick.value])
  {
    assert s.sent + [] == s.sent;
  }

  /** A split handled by the leader: the lower half first, then the higher one on the ids that are left;
      a half without an id goes to a registered region, the one picked for it, and there the higher half
      stands in for the lower one. Nothing but these messages reaches any region. */
  lemma SplitGoes(cfg: Settings, s: System, i: nat, pickLower: Option<nat>, pickHigher: Option<nat>)
    requires Inv(cfg, s) && Enabled(cfg, s, LeaderReceives(i, pickLower, pickHigher))
    requires s.nodes[i].outbox[0].RegionSplit?
    ensures var (m, free) := (s.nodes[i].outbox[0], s.leader.regionsIds);
      var t := Next(cfg, s, LeaderReceives(i, pickLower, pickHigher));
      var popped := s.nodes[i := s.nodes[i].(outbox := s.nodes[i].outbox[1..])];
      var rest := FreeAfter(free, m.lower);
      && t.nodes == Deliver(popped, HalfGoes(free, m.lower, m.higher, pickLower)
                                    + HalfGoes(rest, m.higher, m.higher, pickHigher))
      && t.leader.regionsIds == FreeAfter(rest, m.higher) && t.leader.regions == s.leader.regions
      && (m.lower != [] && free == [] ==> pickLower.Some? && pickLower.value < |s.nodes| && s.leader.regions[pickLower.value])
      && (m.higher != [] && rest == [] ==> pickHigher.Some? && pickHigher.value < |s.nodes| && s.leader.regions[pickHigher.value])
  {
    var m := s.nodes[i].outbox[0];
    HalfSent(s.leader, m.lower, m.higher, pickLower);
    var placed := PlaceHalf(s.leader, m.lower, m.higher, pickLower).value;
    HalfSent(placed, m.higher, m.higher, pickHigher);
    assert [] + HalfGoes(s.leader.regionsIds, m.lower, m.higher, pickLower)
        == HalfGoes(s.leader.regionsIds, m.lower, m.higher, pickLower);
  }

  /** So without a free id both halves reach the inboxes of the regions picked for them, in this order,
      and no other inbox changes. */
  lemma ReroutedHalvesArrive(cfg: Settings, s: System, i: nat, lower: nat, higher: nat, j: nat)
    requires Inv(cfg, s) && Enabled(cfg, s, LeaderReceives(i, Some(lower), Some(higher))) && j < |s.nodes|
    requires s.nodes[i].outbox[0].RegionSplit? && s.leader.regionsIds == []
    ensures var (m, t) := (s.nodes[i].outbox[0], Next(cfg, s, LeaderReceives(i, Some(lower), Some(higher))));
      && |t.nodes| == |s.nodes|
      && t.nodes[j].inbox == s.nodes[j].inbox
           + (if m.lower != [] && j == lower then [SolutionResponse(m.higher)] else [])
           + (if m.higher != [] && j == higher then [SolutionResponse(m.higher)] else [])
  {
    hide Inv, Next, Deliver, HalfGoes;
    SplitGoes(cfg, s, i, Some(lower), Some(higher));
    var m := s.nodes[i].outbox[0];
    var popped := s.nodes[i := s.nodes[i].(outbox := s.nodes[i].outbox[1..])];
    HalvesArrive(popped, m.lower, m.higher, lower, higher, j);
  }

  lemma HalvesArrive(nodes: seq<Node>, low: seq<Solution>, high: seq<Solution>, lower: nat, higher: nat, j: nat)
    requires j < |nodes|
    ensures var sent := HalfGoes([], low, high, Some(lower)) + HalfGoes([], high, high, Some(higher));
      Deliver(nodes, sent)[j].inbox == nodes[j].inbox
        + (if low != [] && j == lower then [SolutionResponse(high)] else [])
        + (if high != [] && j == higher then [SolutionResponse(high)] else [])
  {
    hide Deliver;
    var a, b := HalfGoes([], low, high, Some(lower)), HalfGoes([], high, high, Some(higher));
    DeliverTwice(nodes, a, b);
    NothingDelivered(nodes);
    NothingDelivered(Deliver(nodes, a));
    DeliversOne(nodes, lower, SolutionResponse(high), j);
    DeliversOne(Deliver(nodes, a), higher, SolutionResponse(high), j);
  }

  lemma NothingDelivered(nodes: seq<Node>)
    ensures Deliver(nodes, []) == nodes
  {
  }
}
