/** What holds in every state of every run of the region protocol before the simulation is stopped. */
module ProtocolRuns {
  import opened Analyser
  import opened Options
  import opened Regions
  import opened RegionSelector
  import opened Messages
  import opened Leader
  import opened RegionActors
  import opened Protocol

  ghost predicate CanStep(cfg: Settings, s: System, a: Action, t: System) {
    && WellSized(cfg, s.leader) && |s.nodes| == cfg.maxRegions
    && Enabled(cfg, s, a) && t == Next(cfg, s, a)
  }

  /** A run: the states it passes through and the actions between them, in any interleaving. */
  ghost predicate IsRun(cfg: Settings, states: seq<System>, actions: seq<Action>) {
    && |states| == |actions| + 1
    && states[0] == InitialSystem(cfg)
    && forall k :: 0 <= k < |actions| ==> CanStep(cfg, states[k], actions[k], states[k + 1])
  }

  lemma {:induction false} RunKeepsInv(cfg: Settings, states: seq<System>, actions: seq<Action>, k: nat)
    requires IsRun(cfg, states, actions) && k < |states|
    ensures Inv(cfg, states[k])
  {
    if k == 0 {
      InitialInv(cfg);
    } else {
      RunKeepsInv(cfg, states, actions, k - 1);
      assert CanStep(cfg, states[k - 1], actions[k - 1], states[k]);
      StepKeepsInv(cfg, states[k - 1], actions[k - 1]);
    }
  }

  // ----- ids

  predicate NoDuplicates(ids: seq<nat>) {
    forall p, q :: 0 <= p < q < |ids| ==> ids[p] != ids[q]
  }

  lemma {:induction false} UsedOnceIsDistinct(ids: seq<nat>)
    requires forall i :: i in ids ==> Uses(ids, i) <= 1
    ensures NoDuplicates(ids)
  {
    if ids != [] {
      var last := |ids| - 1;
      var init, x := ids[..last], ids[last];
      assert ids == init + [x];
      forall i | i in init
        ensures Uses(init, i) <= 1
      {
        assert i in ids;
        UsesAppend(init, x, i);
      }
      UsedOnceIsDistinct(init);
      UsesAppend(init, x, x);
      assert x in ids && x !in multiset(init);
      forall p | 0 <= p < last
        ensures ids[p] != x
      {
        assert init[p] in multiset(init);
      }
    }
  }

  /** In every reachable state the free and the used ids are duplicate-free and partition the pool,
      and an id is used iff exactly one carrier of it exists: a creation in flight, a live region,
      or a release in flight. */
  lemma IdsPartition(cfg: Settings, states: seq<System>, actions: seq<Action>, k: nat)
    requires IsRun(cfg, states, actions) && k < |states|
    ensures var s := states[k];
      && |s.nodes| == cfg.maxRegions
      && NoDuplicates(s.leader.regionsIds) && NoDuplicates(s.leader.regionUsedIds)
      && forall i: nat :: (i in s.leader.regionsIds || i in s.leader.regionUsedIds <==> i < cfg.maxRegions)
                    && !(i in s.leader.regionsIds && i in s.leader.regionUsedIds)
                    && (i < cfg.maxRegions ==> Tokens(s.nodes[i]) == if i in s.leader.regionUsedIds then 1 else 0)
  {
    RunKeepsInv(cfg, states, actions, k);
    var s := states[k];
    var free, used := s.leader.regionsIds, s.leader.regionUsedIds;
    forall i: nat
      ensures (i in free || i in used <==> i < cfg.maxRegions) && !(i in free && i in used)
           && (i in free ==> Uses(free, i) <= 1) && (i in used ==> Uses(used, i) <= 1)
           && (i < cfg.maxRegions ==> Tokens(s.nodes[i]) == if i in used then 1 else 0)
    {
      IdInPool(cfg, s, i);
    }
    UsedOnceIsDistinct(free);
    UsedOnceIsDistinct(used);
  }

  lemma IdInPool(cfg: Settings, s: System, i: nat)
    requires Inv(cfg, s)
    ensures var (free, used) := (s.leader.regionsIds, s.leader.regionUsedIds);
      && (i in free || i in used <==> i < cfg.maxRegions) && !(i in free && i in used)
      && (i in free ==> Uses(free, i) <= 1) && (i in used ==> Uses(used, i) <= 1)
      && (i < cfg.maxRegions ==> Tokens(s.nodes[i]) == if i in used then 1 else 0)
  {
    var free, used := s.leader.regionsIds, s.leader.regionUsedIds;
    assert i in free <==> Uses(free, i) > 0;
    assert i in used <==> Uses(used, i) > 0;
    if i < cfg.maxRegions {
      assert NodeOk(cfg, s.leader, s.nodes[i], i);
    }
  }

  /** A slot of the leader is filled only while its id is used and its region has been created: from
      the handling of a release until the id is handed out and the new region speaks, the slot stays
      empty and nothing is in flight from the region. */
  lemma SlotsOfUsedIdsOnly(cfg: Settings, states: seq<System>, actions: seq<Action>, k: nat, i: nat)
    requires IsRun(cfg, states, actions) && k < |states| && i < cfg.maxRegions
    ensures var s := states[k];
      && WellSized(cfg, s.leader) && |s.nodes| == cfg.maxRegions
      && (i !in s.leader.regionUsedIds || Creates(s.nodes[i].inbox) > 0 ==>
            SlotEmpty(s.leader, s.nodes[i], i) && s.nodes[i].life == None)
  {
    RunKeepsInv(cfg, states, actions, k);
    IdInPool(cfg, states[k], i);
    assert NodeOk(cfg, states[k].leader, states[k].nodes[i], i);
  }

  /** A creation never reaches a live region, and no live region is ever empty. */
  lemma CreationFindsNoRegion(cfg: Settings, states: seq<System>, actions: seq<Action>, k: nat, i: nat, m: nat)
    requires IsRun(cfg, states, actions) && k < |states| && i < cfg.maxRegions
    requires |states[k].nodes| == cfg.maxRegions && m < |states[k].nodes[i].inbox|
    ensures states[k].nodes[i].inbox[m].CreateRegion? ==> states[k].nodes[i].life == None
    ensures states[k].nodes[i].life.Some? ==> states[k].nodes[i].life.value != []
  {
    RunKeepsInv(cfg, states, actions, k);
    var node := states[k].nodes[i];
    assert NodeOk(cfg, states[k].leader, node, i);
    CreatesWithout(node.inbox, m);
  }

  // ----- one release for each life

  /** The region starts a life in this step. */
  function Born(s: System, a: Action, i: nat): nat {
    if a.RegionReceives? && a.i == i < |s.nodes| && a.k < |s.nodes[i].inbox| && s.nodes[i].inbox[a.k].CreateRegion?
    then 1 else 0
  }

  /** The leader takes the region's id back in this step. */
  function TakenBack(s: System, a: Action, i: nat): nat {
    if a.LeaderReceives? && a.i == i < |s.nodes| && s.nodes[i].outbox != [] && s.nodes[i].outbox[0].RegionRelease?
    then 1 else 0
  }

  function Lives(node: Node): nat {
    (if node.life.Some? then 1 else 0) + Releases(node.outbox)
  }

  lemma DeliverKeepsLives(nodes: seq<Node>, envelopes: seq<Envelope>, i: nat)
    requires i < |nodes|
    ensures Lives(Deliver(nodes, envelopes)[i]) == Lives(nodes[i])
  {
    DeliverAppends(nodes, envelopes, i);
  }

  lemma RegionStepLives(s: System, j: nat, inbox: seq<RegionMessage>, r: Reaction, i: nat)
    requires i < |s.nodes| && j < |s.nodes|
    ensures |AfterRegion(s, j, inbox, r).nodes| == |s.nodes|
    ensures var (before, after) := (s.nodes[i], AfterRegion(s, j, inbox, r).nodes[i]);
      if i == j then Lives(after) + (if before.life.Some? then 1 else 0)
                     == Lives(before) + (if r.life.Some? then 1 else 0) + Releases(r.toLeader)
      else Lives(after) == Lives(before)
  {
    ReleasesConcat(s.nodes[j].outbox, r.toLeader);
    DeliverKeepsLives(s.nodes[j := Node(r.life, inbox, s.nodes[j].outbox + r.toLeader)], r.toRegions, i);
  }

  lemma StimulusReleases(life: Option<seq<Solution>>, global: Option<Summary>, summary: Summary, min: int)
    ensures var r := Stimulate(life, global, summary, min);
      r.life.Some? == life.Some? && Releases(r.toLeader) == 0
  {
    var r := Stimulate(life, global, summary, min);
    if r.toLeader != [] {
      ReleasesOne(r.toLeader[0]);
    }
  }

  lemma StepLives(cfg: Settings, s: System, a: Action, i: nat)
    requires Inv(cfg, s) && Enabled(cfg, s, a) && i < cfg.maxRegions
    ensures |Next(cfg, s, a).nodes| == cfg.maxRegions
    ensures Lives(Next(cfg, s, a).nodes[i]) + TakenBack(s, a, i) == Lives(s.nodes[i]) + Born(s, a, i)
  {
    hide Releases, Deliver, NodeOk;
    match a
    case AgentResult(solutions, pick) =>
      DeliverKeepsLives(s.nodes, OnSolutionResult(cfg, s.leader, solutions, pick).value.sent, i);
    case LeaderReceives(j, pickLower, pickHigher) =>
      LeaderLives(s, j, LeaderHandles(cfg, s.leader, j, s.nodes[j].outbox[0], pickLower, pickHigher).value, i);
    case RegionReceives(j, k, reported, merged) =>
      ReceiveLives(cfg, s, j, k, reported, merged, i);
    case RegionStimulus(j, global, summary) =>
      StimulusReleases(s.nodes[j].life, global, summary, cfg.minSolutionsToSplit);
      RegionStepLives(s, j, s.nodes[j].inbox, Stimulate(s.nodes[j].life, global, summary, cfg.minSolutionsToSplit), i);
    case AskMerge(j) =>
      ReleasesOne(MergeRequested);
      RegionStepLives(s, j, s.nodes[j].inbox, Reaction(s.nodes[j].life, [MergeRequested], []), i);
  }

  lemma LeaderLives(s: System, j: nat, leader: LeaderState, i: nat)
    requires i < |s.nodes| && j < |s.nodes| && s.nodes[j].outbox != []
    ensures var nodes := s.nodes[j := s.nodes[j].(outbox := s.nodes[j].outbox[1..])];
      Lives(AfterLeader(s, nodes, leader).nodes[i])
      + (if i == j && s.nodes[j].outbox[0].RegionRelease? then 1 else 0) == Lives(s.nodes[i])
  {
    ReleasesHead(s.nodes[j].outbox);
    DeliverKeepsLives(s.nodes[j := s.nodes[j].(outbox := s.nodes[j].outbox[1..])], leader.sent, i);
  }

  lemma ReceiveLives(cfg: Settings, s: System, j: nat, k: nat, reported: Summary, merged: Summary, i: nat)
    requires Inv(cfg, s) && i < cfg.maxRegions && Enabled(cfg, s, RegionReceives(j, k, reported, merged))
    ensures |Move(cfg, s, RegionReceives(j, k, reported, merged)).nodes| == cfg.maxRegions
    ensures Lives(Move(cfg, s, RegionReceives(j, k, reported, merged)).nodes[i])
         == Lives(s.nodes[i]) + Born(s, RegionReceives(j, k, reported, merged), i)
  {
    var node := s.nodes[j];
    assert NodeOk(cfg, s.leader, node, j);
    WithoutOk(node.inbox, k, cfg.maxRegions);
    ReactionOutbox(j, node.life, node.inbox[k], reported, merged);
    ReactKeepsNode(cfg, s.leader, node, j, k, reported, merged);
    RegionStepLives(s, j, Without(node.inbox, k), React(j, node.life, node.inbox[k], reported, merged), i);
  }

  function Births(states: seq<System>, actions: seq<Action>, k: nat, i: nat): nat
    requires k <= |actions| < |states|
  {
    if k == 0 then 0 else Births(states, actions, k - 1, i) + Born(states[k - 1], actions[k - 1], i)
  }

  function Returns(states: seq<System>, actions: seq<Action>, k: nat, i: nat): nat
    requires k <= |actions| < |states|
  {
    if k == 0 then 0 else Returns(states, actions, k - 1, i) + TakenBack(states[k - 1], actions[k - 1], i)
  }

  lemma OneLifeAtMost(cfg: Settings, s: System, i: nat)
    requires Inv(cfg, s) && i < cfg.maxRegions
    ensures Lives(s.nodes[i]) <= 1
  {
    assert NodeOk(cfg, s.leader, s.nodes[i], i);
  }

  lemma NoLifeYet(cfg: Settings, i: nat)
    requires i < cfg.maxRegions
    ensures |InitialSystem(cfg).nodes| == cfg.maxRegions && Lives(InitialSystem(cfg).nodes[i]) == 0
  {
  }

  /** Over a whole run, each life of a region ends in exactly one release, however many merge
      responses reach it: the lives started are the ids taken back plus the one life or release
      still under way. */
  lemma {:induction false} OneReleasePerLife(cfg: Settings, states: seq<System>, actions: seq<Action>, k: nat, i: nat)
    requires IsRun(cfg, states, actions) && k < |states| && i < cfg.maxRegions
    ensures |states[k].nodes| == cfg.maxRegions
    ensures Births(states, actions, k, i) == Returns(states, actions, k, i) + Lives(states[k].nodes[i])
    ensures Lives(states[k].nodes[i]) <= 1
  {
    hide Enabled, Next, Born, TakenBack, Lives;
    RunKeepsInv(cfg, states, actions, k);
    OneLifeAtMost(cfg, states[k], i);
    if k == 0 {
      NoLifeYet(cfg, i);
    } else {
      OneReleasePerLife(cfg, states, actions, k - 1, i);
      RunKeepsInv(cfg, states, actions, k - 1);
      assert CanStep(cfg, states[k - 1], actions[k - 1], states[k]);
      StepLives(cfg, states[k - 1], actions[k - 1], i);
    }
  }

  // ----- the shutdown that ends a run

  /** The leader after a handler has written its slot, before the clock moves. */
  function Written(s: LeaderState, i: nat, m: LeaderMessage): LeaderState
    requires i < |s.regions| == |s.regionsSummary|
  {
    match m
    case RegionRegister(stats) =>
      s.(regions := s.regions[i := true], regionsSummary := s.regionsSummary[i := Some(stats)])
    case UpdateRegionSummary(summary) => s.(regionsSummary := s.regionsSummary[i := Some(summary)])
    case RegionRelease => Forget(s, i)
    case _ => s
  }

  /** The next message of region `i` makes the clock reach the limit. */
  ghost predicate ReachesLimit(cfg: Settings, s: System, i: nat) {
    && WellSized(cfg, s.leader) && |s.nodes| == cfg.maxRegions && i < cfg.maxRegions
    && s.nodes[i].outbox != [] && Ticks(s.nodes[i].outbox[0])
    && LimitReached(cfg, s.leader.time + 1)
  }

  /** The pool holds every id once, and whatever is registered is used. */
  ghost predicate PoolOk(cfg: Settings, s: LeaderState) {
    && |s.regions| == |s.regionsSummary| == cfg.maxRegions
    && forall j: nat :: j < cfg.maxRegions ==>
         Uses(s.regionsIds, j) + Uses(s.regionUsedIds, j) == 1 && (s.regions[j] ==> Uses(s.regionUsedIds, j) == 1)
  }

  lemma WrittenPoolOk(cfg: Settings, s: System, i: nat)
    requires Inv(cfg, s) && i < cfg.maxRegions && s.nodes[i].outbox != []
    ensures PoolOk(cfg, Written(s.leader, i, s.nodes[i].outbox[0]))
  {
    var leader, m := s.leader, s.nodes[i].outbox[0];
    var h := Written(leader, i, m);
    assert NodeOk(cfg, leader, s.nodes[i], i);
    assert Uses(leader.regionUsedIds, i) == 1;
    forall j: nat | j < cfg.maxRegions
      ensures Uses(h.regionsIds, j) + Uses(h.regionUsedIds, j) == 1
      ensures h.regions[j] ==> Uses(h.regionUsedIds, j) == 1
    {
      assert NodeOk(cfg, leader, s.nodes[j], j);
      if m.RegionRelease? {
        assert i in leader.regionUsedIds;
        UsesReleased(leader.regionUsedIds, i, j);
        UsesAppend(leader.regionsIds, i, j);
      }
    }
  }

  /** What a stop at the limit leaves of a pool in order. */
  ghost predicate StoppedAt(cfg: Settings, h: LeaderState, r: LeaderState) {
    && |r.regions| == |r.regionsSummary| == |h.regions| == |h.regionsSummary| == cfg.maxRegions
    && NoneRegistered(r.regions, cfg.maxRegions) && r.time == 0 && r.status == Finished
    && forall j: nat :: j < cfg.maxRegions ==>
         && Uses(r.regionsIds, j) + Uses(r.regionUsedIds, j) == 1
         && (j in r.regionsIds <==> j in h.regionsIds || h.regions[j])
         && (r.regionsSummary[j].None? <==> h.regions[j] || h.regionsSummary[j].None?)
  }

  lemma StopKeepsPool(cfg: Settings, h: LeaderState)
    requires PoolOk(cfg, h) && LimitReached(cfg, h.time + 1)
    ensures StoppedAt(cfg, h, IncreaseTime(cfg, h))
  {
    TimeLimitShutdown(cfg, h);
    var r, ids := IncreaseTime(cfg, h), RegisteredIds(h.regions, 0);
    forall j: nat | j < cfg.maxRegions
      ensures Uses(r.regionsIds, j) + Uses(r.regionUsedIds, j) == 1
      ensures j in r.regionsIds <==> j in h.regionsIds || h.regions[j]
      ensures r.regionsSummary[j].None? <==> h.regions[j] || h.regionsSummary[j].None?
    {
      StopEmptiesSummaryIff(cfg, h, j);
      RegisteredIdsOnce(h.regions, 0, j);
      RegisteredIdsMembers(h.regions, 0, j);
      RemoveEachMultiset(h.regionUsedIds, ids);
      UsesMoved(h.regionsIds, h.regionUsedIds, ids, r.regionUsedIds, j);
    }
  }

  lemma UsesMoved(free: seq<nat>, used: seq<nat>, ids: seq<nat>, left: seq<nat>, j: nat)
    requires multiset(left) == multiset(used) - multiset(ids) && Uses(ids, j) <= Uses(used, j)
    ensures Uses(free + ids, j) == Uses(free, j) + Uses(ids, j)
    ensures Uses(left, j) == Uses(used, j) - Uses(ids, j)
  {
  }

  lemma HandlerTicks(cfg: Settings, s: LeaderState, i: nat, m: LeaderMessage)
    requires i < |s.regions| == |s.regionsSummary| && Ticks(m)
    ensures LeaderHandles(cfg, s, i, m, None, None) == Some(IncreaseTime(cfg, Written(s, i, m)))
  {
    hide IncreaseTime;
    assert CalculateGlobalParameters(cfg, Written(s, i, m)) == IncreaseTime(cfg, Written(s, i, m));
  }

  /** The step that ends a run: from any reachable state, the handler whose tick reaches the limit (of a
      registration, a summary or a release) stops every region registered by then. None stays
      registered, every id is in the pool exactly once, the free ids are those free before and those
      registered, and a summary survives iff its region had reported and not registered. The parent is
      notified once for each region stopped and once more. */
  lemma ShutdownAfterRun(cfg: Settings, states: seq<System>, actions: seq<Action>, k: nat, i: nat)
    requires IsRun(cfg, states, actions) && k < |states| && ReachesLimit(cfg, states[k], i)
    ensures var (s, m) := (states[k].leader, states[k].nodes[i].outbox[0]);
      var (h, handled) := (Written(s, i, m), LeaderHandles(cfg, s, i, m, None, None));
      && handled.Some? && StoppedAt(cfg, h, handled.value)
      && handled.value.sent == StopRequests(RegisteredIds(h.regions, 0)) + Notices(|RegisteredIds(h.regions, 0)| + 1)
  {
    hide StoppedAt;
    RunKeepsInv(cfg, states, actions, k);
    var s, m := states[k].leader, states[k].nodes[i].outbox[0];
    var h := Written(s, i, m);
    WrittenPoolOk(cfg, states[k], i);
    StopKeepsPool(cfg, h);
    TimeLimitShutdown(cfg, h);
    HandlerTicks(cfg, s, i, m);
    assert [] + StopRequests(RegisteredIds(h.regions, 0)) == StopRequests(RegisteredIds(h.regions, 0));
  }
}
