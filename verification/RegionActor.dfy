/** The region actor: what each message does to a region's life, and the object that does it. */
module RegionActors {
  import opened Analyser
  import opened Options
  import opened Statistics
  import opened Regions
  import opened RegionSelector
  import opened Messages

  /** The summary is the one of exactly these solutions. */
  ghost predicate Describes(summary: Summary, s: seq<Solution>) {
    && summary.n == |s|
    && (s != [] ==> summary.mean == Mean(Values(s)))
    && IsDeviationOf(s, summary.deviation)
  }

  /** `<` on doubles: false as soon as one side is not a number. */
  predicate LessThan(a: Extended, b: Extended) {
    a.Finite? && (b.Infinite? || (b.Finite? && a.value < b.value))
  }

  /** The first summary varies less than the second, without a quotient: the deviations compared after
      each is scaled by the other mean; against a mean of 0 any deviation is more. */
  predicate VariesLess(a: Summary, b: Summary) {
    && a.n > 0 && b.n > 0 && a.mean != 0.0
    && if b.mean == 0.0 then b.deviation != 0.0
       else Abs(a.deviation) * Abs(b.mean) < Abs(b.deviation) * Abs(a.mean)
  }

  lemma CrossMultiplied(p: real, q: real, x: real, y: real)
    requires x > 0.0 && y > 0.0
    ensures p < q <==> (p * x) * y < (q * y) * x
  {
    Scales(p, q, x * y);
    assert (p * x) * y == p * (x * y) && (q * y) * x == q * (x * y);
    assert x * y > 0.0;
  }

  lemma Scales(p: real, q: real, c: real)
    ensures c > 0.0 ==> (p < q <==> p * c < q * c)
  {
    if c > 0.0 {
      assert q * c - p * c == (q - p) * c;
      if p < q {
        assert (q - p) * c > 0.0;
      } else {
        assert (p - q) * c >= 0.0;
      }
    }
  }

  /** What the comparison of two variation rates decides. */
  lemma RatesCompared(a: Summary, b: Summary)
    ensures LessThan(VariationRate(a), VariationRate(b)) <==> VariesLess(a, b)
  {
    hide VariationRate;
    VariationRateMeans(a);
    VariationRateMeans(b);
    if VariationRate(a).Finite? && VariationRate(b).Finite? {
      FiniteHasMean(a);
      FiniteHasMean(b);
      CrossMultiplied(VariationRate(a).value, VariationRate(b).value, Abs(a.mean), Abs(b.mean));
    } else if VariationRate(a).Finite? {
      FiniteHasMean(a);
    }
  }

  lemma FiniteHasMean(s: Summary)
    requires VariationRate(s).Finite?
    ensures s.n > 0 && s.mean != 0.0
  {
  }

  /** A region's life after a message, with what it sends; no life is a null region. */
  datatype Reaction = Reaction(life: Option<seq<Solution>>, toLeader: seq<LeaderMessage>, toRegions: seq<Envelope>)

  /** Solutions delivered to a region without a life are lost with the exception they cause. */
  function Absorb(life: Option<seq<Solution>>, solutions: seq<Solution>, reported: Summary): Reaction {
    match life
    case None => Reaction(None, [], [])
    case Some(held) => Reaction(Some(held + solutions), [UpdateRegionSummary(reported)], [])
  }

  /** `reported` is the summary after the message, `merged` the aggregate a merge request is judged by. */
  function React(id: nat, life: Option<seq<Solution>>, message: RegionMessage, reported: Summary, merged: Summary)
    : Reaction
  {
    match message
    case CreateRegion(initial) =>
      Reaction(Some(initial), [UpdateRegionSummary(reported), RegionRegister(reported)], [])
    case SolutionResponse(solutions) => Absorb(life, solutions, reported)
    case MergeResult(solutions) => Absorb(life, solutions, reported)
    case MergeRequest(requester) =>
      Reaction(life, [],
        if life.Some? && LessThan(VariationRate(merged), VariationRate(reported))
        then [ToRegion(requester, MergeResponse(id))] else [])
    case MergeResponse(responder) =>
      if life.None? then Reaction(None, [], [])
      else Reaction(None, [RegionRelease], [ToRegion(responder, MergeResult(life.value))])
    case StopSimulation =>
      if life.None? then Reaction(None, [], []) else Reaction(Some([]), [RegionRelease], [])
  }

  /** The solutions of the message join the region; its summary is that of the union. */
  function Joined(life: Option<seq<Solution>>, message: RegionMessage): seq<Solution> {
    match message
    case CreateRegion(initial) => initial
    case SolutionResponse(solutions) => if life.Some? then life.value + solutions else []
    case MergeResult(solutions) => if life.Some? then life.value + solutions else []
    case _ => if life.Some? then life.value else []
  }

  /** The periodic stimulus: a live region that varies more than the whole splits. */
  function Stimulate(life: Option<seq<Solution>>, global: Option<Summary>, summary: Summary, minSolutionsToSplit: int)
    : Reaction
  {
    if life.None? || global.None? || !LessThan(VariationRate(global.value), VariationRate(summary))
    then Reaction(life, [], [])
    else
      var b := SplitBands(life.value, minSolutionsToSplit, summary.deviation);
      Reaction(Some(b.staying), [RegionSplit(b.lower, b.higher)], [])
  }

  /** A split leaves at least one solution behind, and at least two of two or more. */
  lemma StimulateKeepsRegion(held: seq<Solution>, global: Option<Summary>, summary: Summary, min: int)
    requires held != [] && Describes(summary, held)
    ensures var r := Stimulate(Some(held), global, summary, min);
      r.life.Some? && r.life.value != [] && (|held| >= 2 ==> |r.life.value| >= 2)
  {
    SplitKeepsTwo(held, min, summary.deviation);
  }

  /** A live region with a global summary splits iff the whole varies less than it does. */
  lemma SplitsIff(held: seq<Solution>, global: Option<Summary>, summary: Summary, min: int)
    ensures var r := Stimulate(Some(held), global, summary, min);
      && (global.Some? && VariesLess(global.value, summary) <==> r.toLeader != [])
      && (r.toLeader == [] ==> r.life == Some(held))
      && r.toRegions == [] && |r.toLeader| <= 1
  {
    if global.Some? {
      RatesCompared(global.value, summary);
    }
  }

  /** A stop empties a live region, leaves it in place, and releases its id. */
  lemma StopReleases(id: nat, held: seq<Solution>, reported: Summary, merged: Summary)
    ensures React(id, Some(held), StopSimulation, reported, merged) == Reaction(Some([]), [RegionRelease], [])
    ensures React(id, None, StopSimulation, reported, merged) == Reaction(None, [], [])
  {
  }

  class RegionActor {
    const id: nat
    const minSolutionsToSplit: int
    var region: Region?
    var globalSummary: Option<Summary>
    var regionStarted: bool
    var toLeader: seq<LeaderMessage>
    var toRegions: seq<Envelope>

    ghost predicate Valid()
      reads this, region
    {
      region != null ==> region.Valid() && region.minSolutionsToSplit == minSolutionsToSplit
    }

    ghost function Life(): Option<seq<Solution>>
      reads this, region
    {
      if region == null then None else Some(region.solutionList)
    }

    /** The object after reacting: its life and everything it has sent. */
    ghost predicate After(r: Reaction, leaderLog: seq<LeaderMessage>, regionLog: seq<Envelope>)
      reads this, region
    {
      && Valid() && Life() == r.life
      && toLeader == leaderLog + r.toLeader
      && toRegions == regionLog + r.toRegions
    }

    constructor (id: nat, minSolutionsToSplit: int)
      ensures Valid() && Life() == None && toLeader == [] && toRegions == []
      ensures this.id == id && this.minSolutionsToSplit == minSolutionsToSplit
    {
      this.id, this.minSolutionsToSplit := id, minSolutionsToSplit;
      region, globalSummary, regionStarted, toLeader, toRegions := null, None, false, [], [];
    }

    method AddSolutions(solutions: seq<Solution>, std: real) returns (reported: Summary)
      requires Valid() && region != null && IsDeviationOf(region.solutionList + solutions, std)
      modifies this`toLeader, region
      ensures Valid() && Life() == Some(old(region.solutionList) + solutions)
      ensures Describes(reported, old(region.solutionList) + solutions)
      ensures toLeader == old(toLeader) + [UpdateRegionSummary(reported)]
    {
      region.AddSolutionsCollection(solutions);
      reported := Summary(region.summary.n, region.summary.mean, std);
      toLeader := toLeader + [UpdateRegionSummary(reported)];
    }

    method HandleCreate(initialSolutions: seq<Solution>, std: real, ghost merged: Summary) returns (ghost reported: Summary)
      requires Valid() && IsDeviationOf(initialSolutions, std)
      modifies this, region
      ensures Describes(reported, initialSolutions)
      ensures region != null && region.solutionList == initialSolutions && toRegions == old(toRegions)
      ensures toLeader == old(toLeader) + [UpdateRegionSummary(reported), RegionRegister(reported)]
      ensures After(React(id, old(Life()), CreateRegion(initialSolutions), reported, merged), old(toLeader), old(toRegions))
    {
      region := new Region(minSolutionsToSplit);
      assert [] + initialSolutions == initialSolutions;
      var summary := AddSolutions(initialSolutions, std);
      toLeader := toLeader + [RegionRegister(summary)];
      regionStarted := true;
      reported := summary;
    }

    /** `ok` is false when there is no region and the handler throws. */
    method HandleSolutions(message: RegionMessage, std: real, ghost merged: Summary)
      returns (ok: bool, ghost reported: Summary)
      requires Valid() && (message.SolutionResponse? || message.MergeResult?)
      requires region != null ==> IsDeviationOf(region.solutionList + message.solutions, std)
      modifies this`toLeader, region
      ensures ok == old(Life()).Some?
      ensures ok ==> Describes(reported, Joined(old(Life()), message))
      ensures ok ==> region == old(region) && region != null && region.solutionList == old(Life()).value + message.solutions
      ensures toLeader == old(toLeader) + if ok then [UpdateRegionSummary(reported)] else []
      ensures After(React(id, old(Life()), message, reported, merged), old(toLeader), old(toRegions))
    {
      if region == null {
        return false, Summary(0, 0.0, 0.0);
      }
      var summary := AddSolutions(message.solutions, std);
      return true, summary;
    }

    method HandleMergeRequest(requester: nat, summary: Summary, merged: Summary)
      requires Valid()
      modifies this`toRegions
      ensures toRegions == old(toRegions)
        + if region != null && VariesLess(merged, summary) then [ToRegion(requester, MergeResponse(id))] else []
      ensures After(React(id, old(Life()), MergeRequest(requester), summary, merged), old(toLeader), old(toRegions))
    {
      RatesCompared(merged, summary);
      if region != null && LessThan(VariationRate(merged), VariationRate(summary)) {
        toRegions := toRegions + [ToRegion(requester, MergeResponse(id))];
      }
    }

    /** The first response of a life hands everything over and releases the id; any later one does nothing. */
    method HandleMergeResponse(responder: nat, ghost summary: Summary, ghost merged: Summary)
      requires Valid()
      modifies this`toRegions, this`toLeader, this`region, this`globalSummary
      ensures region == null
      ensures old(region) == null ==> toRegions == old(toRegions) && toLeader == old(toLeader)
      ensures old(region) != null ==>
        && toRegions == old(toRegions) + [ToRegion(responder, MergeResult(old(Life()).value))]
        && toLeader == old(toLeader) + [RegionRelease] && globalSummary == None
      ensures After(React(id, old(Life()), MergeResponse(responder), summary, merged), old(toLeader), old(toRegions))
    {
      if region != null {
        toRegions := toRegions + [ToRegion(responder, MergeResult(region.solutionList))];
        toLeader := toLeader + [RegionRelease];
        region := null;
        globalSummary := None;
      }
    }

    method HandleStopSimulation(ghost summary: Summary, ghost merged: Summary) returns (ok: bool)
      requires Valid()
      modifies this, region
      ensures ok == old(Life()).Some?
      ensures ok ==>
        && region == old(region) && region != null && region.solutionList == [] && !regionStarted
        && toLeader == old(toLeader) + [RegionRelease]
      ensures toRegions == old(toRegions) && (!ok ==> toLeader == old(toLeader))
      ensures After(React(id, old(Life()), StopSimulation, summary, merged), old(toLeader), old(toRegions))
    {
      if region == null {
        return false;
      }
      region.Clear();
      regionStarted := false;
      toLeader := toLeader + [RegionRelease];
      return true;
    }

    method HandleInternalStimulus(summary: Summary)
      requires Valid()
      requires region != null ==> Describes(summary, region.solutionList)
      modifies this`toLeader, region
      ensures old(Life()).Some? && globalSummary.Some? && VariesLess(globalSummary.value, summary) ==>
        exists lower, higher :: toLeader == old(toLeader) + [RegionSplit(lower, higher)]
      ensures !(old(Life()).Some? && globalSummary.Some? && VariesLess(globalSummary.value, summary)) ==>
        toLeader == old(toLeader) && Life() == old(Life())
      ensures After(Stimulate(old(Life()), old(globalSummary), summary, minSolutionsToSplit), old(toLeader), old(toRegions))
    {
      if region == null || globalSummary == None {
        return;
      }
      RatesCompared(globalSummary.value, summary);
      if LessThan(VariationRate(globalSummary.value), VariationRate(summary)) {
        var lower, higher := region.Split(summary.deviation);
        toLeader := toLeader + [RegionSplit(lower, higher)];
      }
    }
  }
}
