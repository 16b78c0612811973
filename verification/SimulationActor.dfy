/** The leader's object: handlers that update its fields in place, each proved against `Leader`. */
module SimulationActors {
  import opened Analyser
  import opened Options
  import opened RegionSelector
  import opened Messages
  import opened Leader
  import opened Sequences

  function AscendingIds(n: nat): seq<nat> {
    seq(n, i => i)
  }

  /** A leader that has handed out nothing. */
  function InitialState(cfg: Settings): LeaderState {
    LeaderState(AscendingIds(cfg.maxRegions), [], seq(cfg.maxRegions, _ => false),
                seq(cfg.maxRegions, _ => None), 0, Stopped, [])
  }

  function Pick(o: Outcome): Option<nat> {
    if o.Chosen? then Some(o.id) else None
  }

  /** The outcome of the roulette over the leader's regions, for these draws. */
  ghost predicate Turns(s: LeaderState, draws: seq<real>, o: Outcome) {
    && |s.regions| == |s.regionsSummary| && AllIds(s.regionUsedIds, |s.regions|)
    && UnitDraws(draws) && draws != []
    && Selects(s.regionUsedIds, s.regions, s.regionsSummary, draws, o)
  }

  // ----- when no handler of the leader throws

  ghost predicate RouletteReady(s: LeaderState) {
    && |s.regions| == |s.regionsSummary| && AllIds(s.regionUsedIds, |s.regions|)
    && Routable(s.regionUsedIds, s.regions, s.regionsSummary)
  }

  /** A turn of the roulette that comes to an end. */
  ghost predicate Ends(s: LeaderState, draws: seq<real>, o: Outcome) {
    Turns(s, draws, o) && !o.Undecided?
  }

  lemma ReadyRoutes(s: LeaderState, solutions: seq<Solution>, draws: seq<real>, o: Outcome)
    requires RouletteReady(s) && Ends(s, draws, o)
    ensures RouteTo(s, solutions, Pick(o)).Some?
  {
    RoutableReaches(s.regionUsedIds, s.regions, s.regionsSummary, draws, o);
  }

  lemma ThrowingTurn(cfg: Settings, s: LeaderState) returns (draws: seq<real>, o: Outcome)
    requires WellSized(cfg, s) && !RouletteReady(s)
    ensures Ends(s, draws, o) && !Reaches(s.regions, o)
  {
    draws, o := ThrowingDraws(s.regionUsedIds, s.regions, s.regionsSummary);
  }

  /** Handling agent results never throws, whatever is drawn, iff the roulette is not needed or every
      region it can pick has registered. */
  lemma ResultNeverThrowsIff(cfg: Settings, s: LeaderState, solutions: seq<Solution>)
    requires WellSized(cfg, s)
    ensures solutions == [] || |s.regionUsedIds| < cfg.minRegions || RouletteReady(s)
       <==> forall draws, o :: Ends(s, draws, o) ==> OnSolutionResult(cfg, s, solutions, Pick(o)).Some?
  {
    hide RouletteReady, Ends;
    if solutions != [] && |s.regionUsedIds| >= cfg.minRegions {
      if RouletteReady(s) {
        forall draws, o | Ends(s, draws, o)
          ensures OnSolutionResult(cfg, s, solutions, Pick(o)).Some?
        {
          ReadyRoutes(s, solutions, draws, o);
        }
      } else {
        var draws, o := ThrowingTurn(cfg, s);
        assert OnSolutionResult(cfg, s, solutions, Pick(o)) == None;
      }
    }
  }

  /** What the placement of one half leaves of the pool, however it is placed. */
  function Placed(s: LeaderState, half: seq<Solution>): LeaderState {
    if half != [] && s.regionsIds != [] then TakeId(s) else s
  }

  /** Whether a half goes to the roulette. */
  predicate Rerouted(s: LeaderState, half: seq<Solution>) {
    half != [] && s.regionsIds == []
  }

  lemma ReadyAfterPlacing(s: LeaderState, half: seq<Solution>, rerouted: seq<Solution>, pick: Option<nat>)
    requires PlaceHalf(s, half, rerouted, pick).Some?
    ensures var r := PlaceHalf(s, half, rerouted, pick).value;
      && (RouletteReady(r) <==> RouletteReady(Placed(s, half)))
      && (forall draws, o :: Ends(r, draws, o) <==> Ends(Placed(s, half), draws, o))
      && r.regionsIds == Placed(s, half).regionsIds
  {
  }

  /** The guards of both halves of a split. */
  ghost predicate SplitReady(s: LeaderState, lower: seq<Solution>, higher: seq<Solution>) {
    && (Rerouted(s, lower) ==> RouletteReady(s))
    && (Rerouted(Placed(s, lower), higher) ==> RouletteReady(Placed(s, lower)))
  }

  /** The outcomes of both turns, as far as they are needed. */
  ghost predicate SplitEnds(s: LeaderState, lower: seq<Solution>, higher: seq<Solution>, draws: seq<real>, oLower: Outcome,
                            moreDraws: seq<real>, oHigher: Outcome)
  {
    && (Rerouted(s, lower) ==> Ends(s, draws, oLower))
    && (Rerouted(Placed(s, lower), higher) ==> Ends(Placed(s, lower), moreDraws, oHigher))
  }

  lemma SplitReadyPlaces(s: LeaderState, lower: seq<Solution>, higher: seq<Solution>, draws: seq<real>, oLower: Outcome,
                         moreDraws: seq<real>, oHigher: Outcome)
    requires SplitReady(s, lower, higher) && SplitEnds(s, lower, higher, draws, oLower, moreDraws, oHigher)
    ensures OnRegionSplit(s, lower, higher, Pick(oLower), Pick(oHigher)).Some?
  {
    hide RouletteReady, Ends;
    if Rerouted(s, lower) {
      ReadyRoutes(s, higher, draws, oLower);
    }
    ReadyAfterPlacing(s, lower, higher, Pick(oLower));
    var placed := PlaceHalf(s, lower, higher, Pick(oLower)).value;
    if Rerouted(placed, higher) {
      ReadyRoutes(placed, higher, moreDraws, oHigher);
    }
  }

  lemma ThrowingSplit(cfg: Settings, s: LeaderState, lower: seq<Solution>, higher: seq<Solution>)
    returns (draws: seq<real>, oLower: Outcome, moreDraws: seq<real>, oHigher: Outcome)
    requires WellSized(cfg, s) && !SplitReady(s, lower, higher)
    ensures SplitEnds(s, lower, higher, draws, oLower, moreDraws, oHigher)
    ensures OnRegionSplit(s, lower, higher, Pick(oLower), Pick(oHigher)) == None
  {
    hide RouletteReady, Ends;
    if Rerouted(s, lower) && !RouletteReady(s) {
      draws, oLower := ThrowingTurn(cfg, s);
      moreDraws, oHigher := draws, oLower;
    } else {
      draws, oLower := [], Undecided;
      moreDraws, oHigher := ThrowingTurn(cfg, Placed(s, lower));
    }
  }

  /** Handling a split never throws, whatever is drawn, iff each half that finds no free id finds every
      region the roulette can pick registered; a region the lower half has just created has not. */
  lemma SplitNeverThrowsIff(cfg: Settings, s: LeaderState, lower: seq<Solution>, higher: seq<Solution>)
    requires WellSized(cfg, s)
    ensures SplitReady(s, lower, higher)
       <==> forall draws, oLower, moreDraws, oHigher ::
              SplitEnds(s, lower, higher, draws, oLower, moreDraws, oHigher) ==>
                OnRegionSplit(s, lower, higher, Pick(oLower), Pick(oHigher)).Some?
  {
    hide SplitReady, SplitEnds;
    if SplitReady(s, lower, higher) {
      forall draws, oLower, moreDraws, oHigher | SplitEnds(s, lower, higher, draws, oLower, moreDraws, oHigher)
        ensures OnRegionSplit(s, lower, higher, Pick(oLower), Pick(oHigher)).Some?
      {
        SplitReadyPlaces(s, lower, higher, draws, oLower, moreDraws, oHigher);
      }
    } else {
      var draws, oLower, moreDraws, oHigher := ThrowingSplit(cfg, s, lower, higher);
    }
  }

  class SimulationActor {
    const cfg: Settings
    var regionsIds: seq<nat>
    var regionUsedIds: seq<nat>
    const regions: array<bool>
    const regionsSummary: array<Option<Summary>>
    var time: int
    var status: Status
    var sent: seq<Envelope>

    ghost predicate Valid()
      reads this, regions, regionsSummary
    {
      WellSized(cfg, State())
    }

    ghost function State(): LeaderState
      reads this, regions, regionsSummary
    {
      LeaderState(regionsIds, regionUsedIds, regions[..], regionsSummary[..], time, status, sent)
    }

    constructor (cfg: Settings)
      ensures Valid() && this.cfg == cfg && State() == InitialState(cfg)
      ensures fresh(regions) && fresh(regionsSummary)
    {
      this.cfg := cfg;
      regionsIds := AscendingIds(cfg.maxRegions);
      regionUsedIds, time, status, sent := [], 0, Stopped, [];
      regions := new bool[cfg.maxRegions](_ => false);
      regionsSummary := new Option<Summary>[cfg.maxRegions](_ => None);
    }

    method NextRegionId() returns (id: Option<nat>)
      requires Valid()
      modifies this`regionsIds, this`regionUsedIds
      ensures Valid()
      ensures old(regionsIds) == [] ==> id == None && State() == old(State())
      ensures old(regionsIds) != [] ==> id == Some(old(regionsIds)[0]) && State() == TakeId(old(State()))
      ensures old(regionsIds) != [] ==>
        regionsIds == old(regionsIds)[1..] && regionUsedIds == old(regionUsedIds) + [old(regionsIds)[0]]
    {
      if regionsIds == [] {
        return None;
      }
      id := Some(regionsIds[0]);
      regionsIds, regionUsedIds := regionsIds[1..], regionUsedIds + [regionsIds[0]];
    }

    method CreateRegionFor(id: nat, solutions: seq<Solution>)
      requires Valid()
      modifies this`sent
      ensures State() == Send(old(State()), [ToRegion(id, CreateRegion(solutions))])
      ensures sent == old(sent) + [ToRegion(id, CreateRegion(solutions))]
    {
      sent := sent + [ToRegion(id, CreateRegion(solutions))];
    }

    /** One turn of the roulette and one message; `ok` is false when that throws or never ends. */
    method Route(solutions: seq<Solution>, draws: seq<real>) returns (ok: bool, ghost o: Outcome)
      requires Valid() && UnitDraws(draws) && draws != []
      modifies this`sent
      ensures Valid()
      ensures Turns(old(State()), draws, o)
      ensures ok <==> o.Chosen? && o.id < regions.Length && regions[o.id]
      ensures sent == old(sent) + if ok then [ToRegion(o.id, SolutionResponse(solutions))] else []
      ensures RouteTo(old(State()), solutions, Pick(o)) == if ok then Some(State()) else None
    {
      var outcome := SelectRegion(regionUsedIds, regions[..], regionsSummary[..], draws);
      o := outcome;
      SelectsMaySelect(regionUsedIds, regions[..], regionsSummary[..], draws, o);
      if !outcome.Chosen? {
        return false, outcome;
      }
      MaySelectUsed(regionUsedIds, regions[..], regionsSummary[..], outcome.id);
      if !regions[outcome.id] {
        return false, outcome;
      }
      sent := sent + [ToRegion(outcome.id, SolutionResponse(solutions))];
      return true, outcome;
    }

    /** Nothing for no solutions; a region on the first free id below the minimum; otherwise exactly one
        message to the region the roulette picked, when that has registered. */
    method HandleSolutionResult(solutions: seq<Solution>, draws: seq<real>)
      returns (ok: bool, ghost o: Outcome)
      requires Valid() && UnitDraws(draws) && draws != []
      modifies this`regionsIds, this`regionUsedIds, this`sent
      ensures Valid()
      ensures solutions == [] ==> ok && State() == old(State())
      ensures solutions != [] && |old(regionUsedIds)| < cfg.minRegions && old(regionsIds) == [] ==>
        ok && State() == old(State())
      ensures solutions != [] && |old(regionUsedIds)| < cfg.minRegions && old(regionsIds) != [] ==>
        && ok && regionsIds == old(regionsIds)[1..] && regionUsedIds == old(regionUsedIds) + [old(regionsIds)[0]]
        && sent == old(sent) + [ToRegion(old(regionsIds)[0], CreateRegion(solutions))]
      ensures solutions != [] && |old(regionUsedIds)| >= cfg.minRegions ==>
        && Turns(old(State()), draws, o)
        && (ok <==> o.Chosen? && o.id < regions.Length && regions[o.id])
        && regionsIds == old(regionsIds) && regionUsedIds == old(regionUsedIds)
        && sent == old(sent) + if ok then [ToRegion(o.id, SolutionResponse(solutions))] else []
      ensures OnSolutionResult(cfg, old(State()), solutions, Pick(o)) == if ok then Some(State()) else None
    {
      if solutions == [] {
        return true, Undecided;
      }
      if |regionUsedIds| < cfg.minRegions {
        var id := NextRegionId();
        if id.Some? {
          CreateRegionFor(id.value, solutions);
        }
        return true, Undecided;
      }
      ok, o := Route(solutions, draws);
    }

    method PlaceOrRoute(half: seq<Solution>, rerouted: seq<Solution>, draws: seq<real>)
      returns (ok: bool, ghost o: Outcome)
      requires Valid() && UnitDraws(draws) && draws != []
      modifies this`regionsIds, this`regionUsedIds, this`sent
      ensures Valid()
      ensures half == [] ==> ok && State() == old(State())
      ensures half != [] && old(regionsIds) != [] ==>
        && ok && regionsIds == old(regionsIds)[1..] && regionUsedIds == old(regionUsedIds) + [old(regionsIds)[0]]
        && sent == old(sent) + [ToRegion(old(regionsIds)[0], CreateRegion(half))]
      ensures half != [] && old(regionsIds) == [] ==>
        && Turns(old(State()), draws, o)
        && (ok <==> o.Chosen? && o.id < regions.Length && regions[o.id])
        && regionsIds == old(regionsIds) && regionUsedIds == old(regionUsedIds)
        && sent == old(sent) + if ok then [ToRegion(o.id, SolutionResponse(rerouted))] else []
      ensures PlaceHalf(old(State()), half, rerouted, Pick(o)) == if ok then Some(State()) else None
    {
      if half == [] {
        return true, Undecided;
      }
      var id := NextRegionId();
      if id.Some? {
        CreateRegionFor(id.value, half);
        return true, Undecided;
      }
      ok, o := Route(rerouted, draws);
    }

    /** Each half goes to a new region on the next free id, or, when no id is left, to the region the
        roulette picks from the pool as it then is; there the higher half goes in place of the lower one. */
    method HandleRegionSplit(lower: seq<Solution>, higher: seq<Solution>, draws: seq<real>, moreDraws: seq<real>)
      returns (ok: bool, ghost oLower: Outcome, ghost oHigher: Outcome)
      requires Valid() && UnitDraws(draws) && draws != [] && UnitDraws(moreDraws) && moreDraws != []
      modifies this`regionsIds, this`regionUsedIds, this`sent
      ensures Valid()
      ensures lower != [] && old(regionsIds) == [] ==> Turns(old(State()), draws, oLower)
      ensures var placed := PlaceHalf(old(State()), lower, higher, Pick(oLower));
        placed.Some? && higher != [] && placed.value.regionsIds == [] ==> Turns(placed.value, moreDraws, oHigher)
      ensures OnRegionSplit(old(State()), lower, higher, Pick(oLower), Pick(oHigher)) == if ok then Some(State()) else None
      ensures ok && Rerouted(old(State()), lower) ==>
        oLower.Chosen? && oLower.id < regions.Length && regions[oLower.id]
      ensures ok && Rerouted(Placed(old(State()), lower), higher) ==>
        oHigher.Chosen? && oHigher.id < regions.Length && regions[oHigher.id]
      ensures ok ==>
        var free := old(regionsIds);
        var rest := if lower != [] && free != [] then free[1..] else free;
        && regionsIds == (if higher != [] && rest != [] then rest[1..] else rest)
        && regionUsedIds == old(regionUsedIds) + (if lower != [] && free != [] then [free[0]] else [])
                            + (if higher != [] && rest != [] then [rest[0]] else [])
        && sent == old(sent)
             + (if lower == [] then []
                else if free != [] then [ToRegion(free[0], CreateRegion(lower))]
                else [ToRegion(oLower.id, SolutionResponse(higher))])
             + (if higher == [] then []
                else if rest != [] then [ToRegion(rest[0], CreateRegion(higher))]
                else [ToRegion(oHigher.id, SolutionResponse(higher))])
    {
      oHigher := Undecided;
      ok, oLower := PlaceOrRoute(lower, higher, draws);
      if ok {
        ok, oHigher := PlaceOrRoute(higher, higher, moreDraws);
      }
    }

    method HandleMergeRequest(from: nat)
      requires Valid()
      modifies this`sent
      ensures Valid() && State() == OnMergeRequest(old(State()), from)
      ensures old(sent) <= sent
      ensures forall j: nat :: j < regions.Length ==>
        multiset(sent[|old(sent)|..])[ToRegion(j, MergeRequest(from))] == if regions[j] && j != from then 1 else 0
      ensures forall e :: e in sent[|old(sent)|..] ==> e.ToRegion? && e.id < regions.Length && e.message == MergeRequest(from)
    {
      var i := 0;
      while i < regions.Length
        invariant 0 <= i <= regions.Length
        invariant sent == old(sent) + MergeEnvelopes(regions[..i], from)
      {
        assert regions[..i + 1][..i] == regions[..i];
        if regions[i] && i != from {
          sent := sent + [ToRegion(i, MergeRequest(from))];
        }
        i := i + 1;
      }
      assert regions[..i] == regions[..];
      assert sent[|old(sent)|..] == MergeEnvelopes(regions[..], from);
      MergeReaches(regions[..], from);
    }

    // ----- the recursive group behind the time limit

    method ReleaseRegionId(id: nat)
      modifies this`regionsIds, this`regionUsedIds
      ensures State() == ReleaseId(old(State()), id)
      ensures regionsIds == old(regionsIds) + [id]
      ensures multiset(regionUsedIds) == multiset(old(regionUsedIds)) - multiset{id}
    {
      regionsIds := regionsIds + [id];
      RemoveFirstMembers(regionUsedIds, id);
      regionUsedIds := RemoveFirst(regionUsedIds, id);
    }

    method HandleRegionRelease(id: nat)
      requires Valid() && id < regions.Length
      modifies this, regions, regionsSummary
      ensures Valid() && State() == OnRegionRelease(cfg, old(State()), id)
      ensures cfg.benchmark || old(time) + 1 < cfg.executionTime ==>
        && regions[..] == old(regions[..])[id := false] && regionsSummary[..] == old(regionsSummary[..])[id := None]
        && regionsIds == old(regionsIds) + [id] && time == old(time) + 1 && status == old(status) && sent == old(sent)
      decreases Registered(regions[..][id := false]), 4, 0
    {
      ForgetKeepsSize(cfg, State(), id);
      ReleaseRegionId(id);
      regions[id] := false;
      regionsSummary[id] := None;
      assert regions[..] == old(regions[..])[id := false];
      assert regionsSummary[..] == old(regionsSummary[..])[id := None];
      UpdateGlobalParameters();
    }

    method UpdateGlobalParameters()
      requires Valid()
      modifies this, regions, regionsSummary
      ensures Valid() && State() == CalculateGlobalParameters(cfg, old(State()))
      ensures cfg.benchmark || old(time) + 1 < cfg.executionTime ==> State() == old(State()).(time := old(time) + 1)
      decreases Registered(regions[..]), 3, 0
    {
      AdvanceTime();
    }

    method AdvanceTime()
      requires Valid()
      modifies this, regions, regionsSummary
      ensures Valid() && State() == IncreaseTime(cfg, old(State()))
      ensures cfg.benchmark || old(time) + 1 < cfg.executionTime ==> State() == old(State()).(time := old(time) + 1)
      ensures !cfg.benchmark && old(time) + 1 >= cfg.executionTime ==>
        status == Finished && time == 0 && NoneRegistered(regions[..], regions.Length)
      decreases Registered(regions[..]), 2, 0
    {
      if !cfg.benchmark && time + 1 >= cfg.executionTime {
        TimeLimitShutdown(cfg, State());
      }
      time := time + 1;
      if LimitReached(cfg, time) {
        StopAgentsAndRegions();
        ResetRegionsData();
        status := Finished;
        sent := sent + [SimulationStopped];
      }
    }

    method StopAgentsAndRegions()
      requires Valid()
      modifies this, regions, regionsSummary
      ensures Valid() && State() == StopRegionsFrom(cfg, old(State()), 0)
      decreases Registered(regions[..]), 1, 0
    {
      var i := 0;
      while i < regions.Length
        invariant 0 <= i <= regions.Length && Valid()
        invariant Registered(regions[..]) <= old(Registered(regions[..]))
        invariant StopRegionsFrom(cfg, State(), i) == StopRegionsFrom(cfg, old(State()), 0)
        decreases regions.Length - i
      {
        if regions[i] {
          ghost var before := State();
          RegisteredUpdate(regions[..], i);
          sent := sent + [ToRegion(i, StopSimulation)];
          assert State() == Send(before, [ToRegion(i, StopSimulation)]);
          HandleRegionRelease(i);
        }
        i := i + 1;
      }
    }

    method ResetRegionsData()
      requires Valid()
      modifies this`regionsIds, this`regionUsedIds, this`time
      ensures Valid() && State() == ResetFrom(old(State()), 0)
    {
      ResetKeepsSlots(State(), 0);
      var i := 0;
      while i < regions.Length
        invariant 0 <= i <= regions.Length
        invariant ResetFrom(State(), i) == ResetFrom(old(State()), 0)
        invariant regions[..] == old(regions[..]) && regionsSummary[..] == old(regionsSummary[..])
      {
        if regions[i] {
          ReleaseRegionId(i);
        }
        i := i + 1;
      }
      time := 0;
    }

    method HandleRegionRegister(id: nat, stats: Summary)
      requires Valid() && id < regions.Length
      modifies this, regions, regionsSummary
      ensures Valid() && State() == OnRegionRegister(cfg, old(State()), id, stats)
      ensures cfg.benchmark || old(time) + 1 < cfg.executionTime ==>
        State() == old(State()).(regions := old(regions[..])[id := true],
                                 regionsSummary := old(regionsSummary[..])[id := Some(stats)], time := old(time) + 1)
    {
      regions[id] := true;
      regionsSummary[id] := Some(stats);
      assert regions[..] == old(regions[..])[id := true];
      assert regionsSummary[..] == old(regionsSummary[..])[id := Some(stats)];
      UpdateGlobalParameters();
    }

    method HandleUpdateRegionSummary(id: nat, summary: Summary)
      requires Valid() && id < regions.Length
      modifies this, regions, regionsSummary
      ensures Valid() && State() == OnUpdateRegionSummary(cfg, old(State()), id, summary)
      ensures cfg.benchmark || old(time) + 1 < cfg.executionTime ==>
        State() == old(State()).(regionsSummary := old(regionsSummary[..])[id := Some(summary)], time := old(time) + 1)
    {
      regionsSummary[id] := Some(summary);
      assert regionsSummary[..] == old(regionsSummary[..])[id := Some(summary)];
      UpdateGlobalParameters();
    }

    method HandleStopSimulation()
      requires Valid()
      modifies this, regions, regionsSummary
      ensures Valid() && State() == OnStopSimulation(cfg, old(State()))
      ensures status == Stopped && time == 0 && NoneRegistered(regions[..], regions.Length)
    {
      StopOnRequest(cfg, State());
      StopAgentsAndRegions();
      ResetRegionsData();
      status := Stopped;
    }
  }
}
