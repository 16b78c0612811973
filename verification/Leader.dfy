/** The leader: the pool of region ids, the routing of solutions, and the shutdown. */
module Leader {
  import opened Analyser
  import opened Options
  import opened RegionSelector
  import opened Messages
  import opened Sequences

  datatype Settings = Settings(minRegions: int, maxRegions: nat, executionTime: int, benchmark: bool,
                               minSolutionsToSplit: int)

  datatype Status = Stopped | Ready | Started | Finished

  /** The leader's fields; `sent` is everything it has sent so far. */
  datatype LeaderState = LeaderState(
    regionsIds: seq<nat>,
    regionUsedIds: seq<nat>,
    regions: seq<bool>,
    regionsSummary: seq<Option<Summary>>,
    time: int,
    status: Status,
    sent: seq<Envelope>)

  predicate WellSized(cfg: Settings, s: LeaderState) {
    && |s.regions| == |s.regionsSummary| == cfg.maxRegions
    && AllIds(s.regionsIds, cfg.maxRegions)
    && AllIds(s.regionUsedIds, cfg.maxRegions)
  }

  function Send(s: LeaderState, envelopes: seq<Envelope>): LeaderState {
    s.(sent := s.sent + envelopes)
  }

  // ----- the id pool

  /** Takes the id at the head of the free list; the caller checks that there is one. */
  function TakeId(s: LeaderState): LeaderState
    requires s.regionsIds != []
  {
    s.(regionsIds := s.regionsIds[1..], regionUsedIds := s.regionUsedIds + [s.regionsIds[0]])
  }

  function ReleaseId(s: LeaderState, id: nat): LeaderState {
    s.(regionsIds := s.regionsIds + [id], regionUsedIds := RemoveFirst(s.regionUsedIds, id))
  }

  function CreateOn(s: LeaderState, solutions: seq<Solution>): LeaderState
    requires s.regionsIds != []
  {
    Send(TakeId(s), [ToRegion(s.regionsIds[0], CreateRegion(solutions))])
  }

  // ----- routing

  /** Sends solutions to the region the roulette picked; `None` is the exception of an empty wheel
      or of a picked region that has not registered. */
  function RouteTo(s: LeaderState, solutions: seq<Solution>, pick: Option<nat>): Option<LeaderState> {
    if pick.Some? && pick.value < |s.regions| && s.regions[pick.value]
    then Some(Send(s, [ToRegion(pick.value, SolutionResponse(solutions))]))
    else None
  }

  function OnSolutionResult(cfg: Settings, s: LeaderState, solutions: seq<Solution>, pick: Option<nat>)
    : Option<LeaderState>
  {
    if solutions == [] then Some(s)
    else if |s.regionUsedIds| < cfg.minRegions then
      Some(if s.regionsIds != [] then CreateOn(s, solutions) else s)
    else RouteTo(s, solutions, pick)
  }

  /** One half of a split: a new region when an id is free, otherwise `rerouted` goes to the roulette. */
  function PlaceHalf(s: LeaderState, half: seq<Solution>, rerouted: seq<Solution>, pick: Option<nat>)
    : Option<LeaderState>
  {
    if half == [] then Some(s)
    else if s.regionsIds != [] then Some(CreateOn(s, half))
    else RouteTo(s, rerouted, pick)
  }

  /** Without a free id the lower half is answered with the higher half, as the source does. */
  function OnRegionSplit(s: LeaderState, lower: seq<Solution>, higher: seq<Solution>,
                         pickLower: Option<nat>, pickHigher: Option<nat>): Option<LeaderState>
  {
    match PlaceHalf(s, lower, higher, pickLower)
    case None => None
    case Some(placed) => PlaceHalf(placed, higher, higher, pickHigher)
  }

  function MergeEnvelopes(regions: seq<bool>, from: nat): seq<Envelope> {
    if regions == [] then []
    else
      var last := |regions| - 1;
      MergeEnvelopes(regions[..last], from)
      + if regions[last] && last != from then [ToRegion(last, MergeRequest(from))] else []
  }

  /** A merge request is forwarded once to every registered region but its sender, and to no other. */
  lemma {:induction false} MergeReaches(regions: seq<bool>, from: nat)
    ensures forall e :: e in MergeEnvelopes(regions, from) ==>
      e.ToRegion? && e.id < |regions| && e.message == MergeRequest(from)
    ensures forall j: nat :: j < |regions| ==>
      multiset(MergeEnvelopes(regions, from))[ToRegion(j, MergeRequest(from))] == if regions[j] && j != from then 1 else 0
  {
    if regions != [] {
      var init, last := regions[..|regions| - 1], |regions| - 1;
      MergeReaches(init, from);
      assert ToRegion(last, MergeRequest(from)) !in multiset(MergeEnvelopes(init, from)) by {
        assert forall e :: e in MergeEnvelopes(init, from) ==> e.id < last;
      }
    }
  }

  function OnMergeRequest(s: LeaderState, from: nat): LeaderState {
    Send(s, MergeEnvelopes(s.regions, from))
  }

  // ----- registration, release and the time limit: one recursive group

  function Registered(regions: seq<bool>): nat {
    if regions == [] then 0
    else Registered(regions[..|regions| - 1]) + if regions[|regions| - 1] then 1 else 0
  }

  lemma {:induction false} RegisteredUpdate(regions: seq<bool>, i: nat)
    requires i < |regions|
    ensures Registered(regions[i := false]) == Registered(regions) - if regions[i] then 1 else 0
  {
    var last := |regions| - 1;
    var updated := regions[i := false];
    if i == last {
      assert updated[..last] == regions[..last];
    } else {
      assert updated[..last] == regions[..last][i := false];
      RegisteredUpdate(regions[..last], i);
    }
  }

  function Forget(s: LeaderState, id: nat): LeaderState
    requires id < |s.regions| == |s.regionsSummary|
  {
    ReleaseId(s, id).(regions := s.regions[id := false], regionsSummary := s.regionsSummary[id := None])
  }

  function OnRegionRelease(cfg: Settings, s: LeaderState, id: nat): (r: LeaderState)
    requires id < |s.regions| == |s.regionsSummary|
    ensures |r.regions| == |r.regionsSummary| == |s.regions|
    ensures Registered(r.regions) <= Registered(s.regions[id := false])
    ensures WellSized(cfg, s) ==> WellSized(cfg, r)
    decreases Registered(s.regions[id := false]), 4, 0
  {
    ForgetKeepsSize(cfg, s, id);
    CalculateGlobalParameters(cfg, Forget(s, id))
  }

  function CalculateGlobalParameters(cfg: Settings, s: LeaderState): (r: LeaderState)
    requires |s.regions| == |s.regionsSummary|
    ensures |r.regions| == |r.regionsSummary| == |s.regions|
    ensures Registered(r.regions) <= Registered(s.regions)
    ensures WellSized(cfg, s) ==> WellSized(cfg, r)
    decreases Registered(s.regions), 3, 0
  {
    IncreaseTime(cfg, s)
  }

  predicate LimitReached(cfg: Settings, time: int) {
    !cfg.benchmark && time >= cfg.executionTime
  }

  function IncreaseTime(cfg: Settings, s: LeaderState): (r: LeaderState)
    requires |s.regions| == |s.regionsSummary|
    ensures |r.regions| == |r.regionsSummary| == |s.regions|
    ensures Registered(r.regions) <= Registered(s.regions)
    ensures WellSized(cfg, s) ==> WellSized(cfg, r)
    decreases Registered(s.regions), 2, 0
  {
    var later := s.(time := s.time + 1);
    if !LimitReached(cfg, later.time) then later
    else Finish(StopRegionsFrom(cfg, later, 0))
  }

  /** Asks every region still registered from index `i` on to stop, and handles its release at once. */
  function StopRegionsFrom(cfg: Settings, s: LeaderState, i: nat): (r: LeaderState)
    requires i <= |s.regions| == |s.regionsSummary|
    ensures |r.regions| == |r.regionsSummary| == |s.regions|
    ensures Registered(r.regions) <= Registered(s.regions)
    ensures WellSized(cfg, s) ==> WellSized(cfg, r)
    decreases Registered(s.regions), 1, |s.regions| - i
  {
    if i == |s.regions| then s
    else if !s.regions[i] then StopRegionsFrom(cfg, s, i + 1)
    else
      RegisteredUpdate(s.regions, i);
      StopRegionsFrom(cfg, OnRegionRelease(cfg, Send(s, [ToRegion(i, StopSimulation)]), i), i + 1)
  }

  /** Releases whatever is still registered and resets the clock. */
  function ResetFrom(s: LeaderState, i: nat): LeaderState
    decreases |s.regions| - i
  {
    if i >= |s.regions| then s.(time := 0)
    else ResetFrom(if s.regions[i] then ReleaseId(s, i) else s, i + 1)
  }

  function Finish(s: LeaderState): (r: LeaderState)
    ensures r.regions == s.regions && r.regionsSummary == s.regionsSummary
    ensures AllIds(s.regionsIds, |s.regions|) && AllIds(s.regionUsedIds, |s.regions|) ==>
      AllIds(r.regionsIds, |s.regions|) && AllIds(r.regionUsedIds, |s.regions|)
  {
    ResetKeepsSlots(s, 0);
    Send(ResetFrom(s, 0).(status := Finished), [SimulationStopped])
  }

  lemma {:induction false} ResetKeepsSlots(s: LeaderState, i: nat)
    ensures var r := ResetFrom(s, i);
      && r.regions == s.regions && r.regionsSummary == s.regionsSummary
      && (AllIds(s.regionsIds, |s.regions|) && AllIds(s.regionUsedIds, |s.regions|) ==>
            AllIds(r.regionsIds, |s.regions|) && AllIds(r.regionUsedIds, |s.regions|))
    decreases |s.regions| - i
  {
    if i < |s.regions| {
      if s.regions[i] {
        ReleaseKeepsIds(s, i);
      }
      ResetKeepsSlots(if s.regions[i] then ReleaseId(s, i) else s, i + 1);
    }
  }

  lemma ReleaseKeepsIds(s: LeaderState, id: nat)
    requires id < |s.regions|
    ensures AllIds(s.regionsIds, |s.regions|) && AllIds(s.regionUsedIds, |s.regions|) ==>
      AllIds(ReleaseId(s, id).regionsIds, |s.regions|) && AllIds(ReleaseId(s, id).regionUsedIds, |s.regions|)
  {
    RemoveFirstMembers(s.regionUsedIds, id);
    var used := ReleaseId(s, id).regionUsedIds;
    assert forall i :: 0 <= i < |used| ==> used[i] in s.regionUsedIds;
  }

  lemma ForgetKeepsSize(cfg: Settings, s: LeaderState, id: nat)
    requires id < |s.regions| == |s.regionsSummary|
    ensures WellSized(cfg, s) ==> WellSized(cfg, Forget(s, id))
  {
    ReleaseKeepsIds(s, id);
  }

  function OnRegionRegister(cfg: Settings, s: LeaderState, id: nat, stats: Summary): LeaderState
    requires id < |s.regions| == |s.regionsSummary|
  {
    CalculateGlobalParameters(cfg, s.(regions := s.regions[id := true],
                                      regionsSummary := s.regionsSummary[id := Some(stats)]))
  }

  function OnUpdateRegionSummary(cfg: Settings, s: LeaderState, id: nat, summary: Summary): LeaderState
    requires id < |s.regions| == |s.regionsSummary|
  {
    CalculateGlobalParameters(cfg, s.(regionsSummary := s.regionsSummary[id := Some(summary)]))
  }

  /** Before the time limit a change of the parameters is one tick of the clock. */
  lemma BeforeLimit(cfg: Settings, s: LeaderState)
    requires |s.regions| == |s.regionsSummary| && !LimitReached(cfg, s.time + 1)
    ensures IncreaseTime(cfg, s) == s.(time := s.time + 1)
    ensures CalculateGlobalParameters(cfg, s) == s.(time := s.time + 1)
  {
  }

  // ----- what the shutdown does, without the recursion

  /** The registered ids from `i` on, in ascending order. */
  function RegisteredIds(regions: seq<bool>, i: nat): seq<nat>
    decreases |regions| - i
  {
    if i >= |regions| then []
    else if regions[i] then [i] + RegisteredIds(regions, i + 1)
    else RegisteredIds(regions, i + 1)
  }

  function RemoveEach(ids: seq<nat>, gone: seq<nat>): seq<nat>
    decreases |gone|
  {
    if gone == [] then ids else RemoveEach(RemoveFirst(ids, gone[0]), gone[1..])
  }

  function StopRequests(ids: seq<nat>): seq<Envelope> {
    if ids == [] then [] else [ToRegion(ids[0], StopSimulation)] + StopRequests(ids[1..])
  }

  function Notices(n: nat): seq<Envelope> {
    if n == 0 then [] else Notices(n - 1) + [SimulationStopped]
  }

  predicate NoneRegistered(regions: seq<bool>, i: nat) {
    forall j :: 0 <= j < i && j < |regions| ==> !regions[j]
  }

  /** How many of `k` releases, the first of them at `time`, find the time limit reached. */
  function LateReleases(cfg: Settings, time: int, k: nat): nat {
    if cfg.benchmark then 0
    else
      var first := if cfg.executionTime - time > 1 then cfg.executionTime - time else 1;
      if k < first then 0 else k - first + 1
  }

  /** The leader after all `ids` have been stopped and released, with `notices` messages to the parent. */
  function AfterStop(s: LeaderState, ids: seq<nat>, notices: nat): LeaderState {
    LeaderState(
      s.regionsIds + ids,
      RemoveEach(s.regionUsedIds, ids),
      seq(|s.regions|, _ => false),
      seq(|s.regionsSummary|, i requires 0 <= i < |s.regionsSummary| =>
        if i in ids then None else s.regionsSummary[i]),
      if notices == 0 then s.time + |ids| else 0,
      if notices == 0 then s.status else Finished,
      s.sent + StopRequests(ids) + Notices(notices))
  }

  lemma {:induction false} RegisteredIdsMembers(regions: seq<bool>, i: nat, x: nat)
    ensures x in RegisteredIds(regions, i) <==> i <= x < |regions| && regions[x]
    decreases |regions| - i
  {
    if i < |regions| {
      RegisteredIdsMembers(regions, i + 1, x);
    }
  }

  lemma {:induction false} RegisteredIdsAscend(regions: seq<bool>, i: nat)
    ensures forall p, q :: 0 <= p < q < |RegisteredIds(regions, i)| ==> RegisteredIds(regions, i)[p] < RegisteredIds(regions, i)[q]
    decreases |regions| - i
  {
    if i < |regions| {
      RegisteredIdsAscend(regions, i + 1);
      var rest := RegisteredIds(regions, i + 1);
      forall q | 0 <= q < |rest|
        ensures rest[q] > i
      {
        RegisteredIdsMembers(regions, i + 1, rest[q]);
      }
    }
  }

  lemma {:induction false} RegisteredIdsNone(regions: seq<bool>, i: nat)
    requires i <= |regions| && NoneRegistered(regions, i)
    ensures RegisteredIds(regions, 0) == RegisteredIds(regions, i)
  {
    if i > 0 {
      RegisteredIdsNone(regions, i - 1);
    }
  }

  lemma {:induction false} RegisteredIdsAbove(regions: seq<bool>, other: seq<bool>, i: nat)
    requires |regions| == |other|
    requires forall j :: i <= j < |regions| ==> regions[j] == other[j]
    ensures RegisteredIds(regions, i) == RegisteredIds(other, i)
    decreases |regions| - i
  {
    if i < |regions| {
      RegisteredIdsAbove(regions, other, i + 1);
    }
  }

  lemma {:induction false} NothingToStop(cfg: Settings, s: LeaderState, i: nat)
    requires i <= |s.regions| == |s.regionsSummary| && NoneRegistered(s.regions, |s.regions|)
    ensures StopRegionsFrom(cfg, s, i) == s
    decreases |s.regions| - i
  {
    if i < |s.regions| {
      NothingToStop(cfg, s, i + 1);
    }
  }

  lemma {:induction false} NothingToReset(s: LeaderState, i: nat)
    requires NoneRegistered(s.regions, |s.regions|)
    ensures ResetFrom(s, i) == s.(time := 0)
    decreases |s.regions| - i
  {
    if i < |s.regions| {
      NothingToReset(s, i + 1);
    }
  }

  lemma LateReleasesStep(cfg: Settings, time: int, k: nat)
    requires k > 0
    ensures !LimitReached(cfg, time + 1) ==> LateReleases(cfg, time, k) == LateReleases(cfg, time + 1, k - 1)
    ensures LimitReached(cfg, time + 1) ==> LateReleases(cfg, time + 1, k - 1) == k - 1 && LateReleases(cfg, time, k) == k
  {
  }

  /** Stopping the first of the registered ids and then the rest is stopping all of them. */
  lemma AfterStopStep(s: LeaderState, i: nat, rest: seq<nat>, time: int, status: Status, notices: nat)
    requires i < |s.regions| == |s.regionsSummary| && |rest| < |s.regions|
    requires notices == 0 ==> time == s.time + 1 && status == s.status
    ensures AfterStop(Forget(Send(s, [ToRegion(i, StopSimulation)]), i).(time := time, status := status), rest, notices)
         == AfterStop(s, [i] + rest, notices)
  {
    var ids := [i] + rest;
    assert ids[1..] == rest;
    var a := AfterStop(Forget(Send(s, [ToRegion(i, StopSimulation)]), i).(time := time, status := status), rest, notices);
    var b := AfterStop(s, ids, notices);
    assert a.regionsIds == b.regionsIds;
    assert a.regionUsedIds == b.regionUsedIds;
    assert a.regions == b.regions;
    assert a.regionsSummary == b.regionsSummary;
    assert a.sent == b.sent;
  }

  lemma NothingStopped(s: LeaderState)
    requires |s.regions| == |s.regionsSummary| && NoneRegistered(s.regions, |s.regions|)
    ensures AfterStop(s, [], 0) == s
  {
    var a := AfterStop(s, [], 0);
    assert a.regions == s.regions;
    assert a.regionsSummary == s.regionsSummary;
  }

  lemma FinishAfterStop(s: LeaderState, ids: seq<nat>, notices: nat)
    requires |s.regions| == |s.regionsSummary|
    ensures Finish(AfterStop(s, ids, notices)) == AfterStop(s, ids, notices + 1)
  {
    NothingToReset(AfterStop(s, ids, notices), 0);
    assert s.sent + StopRequests(ids) + Notices(notices) + [SimulationStopped]
        == s.sent + StopRequests(ids) + (Notices(notices) + [SimulationStopped]);
  }

  lemma {:induction false} RegisteredIdsSize(regions: seq<bool>, i: nat)
    requires i <= |regions|
    ensures |RegisteredIds(regions, i)| <= |regions| - i
    decreases |regions| - i
  {
    if i < |regions| {
      RegisteredIdsSize(regions, i + 1);
    }
  }

  /** The recursive stop, from any state and time: each registered region is asked to stop exactly
      once and its id returned exactly once, in ascending order, and no region stays registered. */
  lemma {:induction false} StopIsAfterStop(cfg: Settings, s: LeaderState, i: nat)
    requires i <= |s.regions| == |s.regionsSummary| && NoneRegistered(s.regions, i)
    ensures var ids := RegisteredIds(s.regions, i);
      StopRegionsFrom(cfg, s, i) == AfterStop(s, ids, LateReleases(cfg, s.time, |ids|))
    decreases Registered(s.regions), |s.regions| - i
  {
    if i == |s.regions| {
      NothingStopped(s);
    } else if !s.regions[i] {
      StopIsAfterStop(cfg, s, i + 1);
    } else {
      StopFirst(cfg, s, i);
    }
  }

  /** The state after region `i` was asked to stop and forgotten, one tick later. */
  function Tick(s: LeaderState, i: nat): LeaderState
    requires i < |s.regions| == |s.regionsSummary|
  {
    Forget(Send(s, [ToRegion(i, StopSimulation)]), i).(time := s.time + 1)
  }

  lemma UnfoldStop(cfg: Settings, s: LeaderState, i: nat)
    requires i < |s.regions| == |s.regionsSummary| && s.regions[i]
    ensures Registered(Tick(s, i).regions) < Registered(s.regions)
    ensures StopRegionsFrom(cfg, s, i)
         == StopRegionsFrom(cfg, if LimitReached(cfg, s.time + 1) then Finish(StopRegionsFrom(cfg, Tick(s, i), 0))
                                 else Tick(s, i), i + 1)
  {
    RegisteredUpdate(s.regions, i);
    assert OnRegionRelease(cfg, Send(s, [ToRegion(i, StopSimulation)]), i)
        == IncreaseTime(cfg, Forget(Send(s, [ToRegion(i, StopSimulation)]), i));
  }

  lemma IdsAfterTick(s: LeaderState, i: nat)
    requires i < |s.regions| == |s.regionsSummary| && NoneRegistered(s.regions, i) && s.regions[i]
    ensures NoneRegistered(Tick(s, i).regions, i + 1)
    ensures RegisteredIds(s.regions, i) == [i] + RegisteredIds(s.regions, i + 1)
    ensures RegisteredIds(Tick(s, i).regions, i + 1) == RegisteredIds(s.regions, i + 1)
    ensures RegisteredIds(Tick(s, i).regions, 0) == RegisteredIds(s.regions, i + 1)
    ensures |RegisteredIds(s.regions, i + 1)| < |s.regions|
  {
    RegisteredIdsAbove(Tick(s, i).regions, s.regions, i + 1);
    RegisteredIdsNone(Tick(s, i).regions, i + 1);
    RegisteredIdsSize(s.regions, i + 1);
  }

  lemma {:induction false} StopFirst(cfg: Settings, s: LeaderState, i: nat)
    requires i < |s.regions| == |s.regionsSummary| && NoneRegistered(s.regions, i) && s.regions[i]
    ensures var ids := RegisteredIds(s.regions, i);
      StopRegionsFrom(cfg, s, i) == AfterStop(s, ids, LateReleases(cfg, s.time, |ids|))
    decreases Registered(s.regions), 0
  {
    hide Finish, AfterStop, LateReleases, StopRegionsFrom, RegisteredIds, NoneRegistered, Registered, RemoveFirst;
    var later, rest := Tick(s, i), RegisteredIds(s.regions, i + 1);
    UnfoldStop(cfg, s, i);
    IdsAfterTick(s, i);
    LateReleasesStep(cfg, s.time, 1 + |rest|);
    AfterStopStep(s, i, rest, later.time, later.status, LateReleases(cfg, s.time, 1 + |rest|));
    if !LimitReached(cfg, later.time) {
      StopIsAfterStop(cfg, later, i + 1);
    } else {
      StopIsAfterStop(cfg, later, 0);
      FinishAfterStop(later, rest, |rest|);
      StoppedAll(later, rest, |rest| + 1);
      NothingToStop(cfg, AfterStop(later, rest, |rest| + 1), i + 1);
    }
  }

  lemma StoppedAll(s: LeaderState, ids: seq<nat>, notices: nat)
    requires |s.regions| == |s.regionsSummary|
    ensures var r := AfterStop(s, ids, notices);
      |r.regions| == |r.regionsSummary| == |s.regions| && NoneRegistered(r.regions, |r.regions|)
  {
  }

  /** Reaching the time limit with k registered regions: all of them are stopped and released once,
      none stays registered, time ends at zero, and the parent is notified k + 1 times. */
  lemma TimeLimitShutdown(cfg: Settings, s: LeaderState)
    requires |s.regions| == |s.regionsSummary| && LimitReached(cfg, s.time + 1)
    ensures var ids := RegisteredIds(s.regions, 0);
      && IncreaseTime(cfg, s) == AfterStop(s, ids, |ids| + 1)
      && IncreaseTime(cfg, s).time == 0 && IncreaseTime(cfg, s).status == Finished
      && NoneRegistered(IncreaseTime(cfg, s).regions, |s.regions|)
  {
    var later := s.(time := s.time + 1);
    var ids := RegisteredIds(s.regions, 0);
    StopIsAfterStop(cfg, later, 0);
    assert LateReleases(cfg, later.time, |ids|) == |ids|;
    FinishAfterStop(later, ids, |ids|);
    assert AfterStop(later, ids, |ids| + 1) == AfterStop(s, ids, |ids| + 1);
  }

  /** The clock alone moves iff the time limit is not reached: otherwise the parent is notified. */
  lemma OnlyClockMovesIff(cfg: Settings, s: LeaderState)
    requires |s.regions| == |s.regionsSummary|
    ensures IncreaseTime(cfg, s) == s.(time := s.time + 1) <==> !LimitReached(cfg, s.time + 1)
  {
    if LimitReached(cfg, s.time + 1) {
      TimeLimitShutdown(cfg, s);
      var ids := RegisteredIds(s.regions, 0);
      assert |Notices(|ids| + 1)| > 0;
      assert |AfterStop(s, ids, |ids| + 1).sent| > |s.sent|;
    }
  }

  /** A summary slot is empty after the stop iff its region was registered or had not reported: the
      stop leaves alone what a region reported that has not registered yet. */
  lemma StopEmptiesSummaryIff(cfg: Settings, s: LeaderState, i: nat)
    requires i < |s.regions| == |s.regionsSummary| && LimitReached(cfg, s.time + 1)
    ensures var r := IncreaseTime(cfg, s);
      |r.regionsSummary| == |s.regions| && (r.regionsSummary[i].None? <==> s.regions[i] || s.regionsSummary[i].None?)
  {
    TimeLimitShutdown(cfg, s);
    RegisteredIdsMembers(s.regions, 0, i);
  }

  /** So the first summary of a region, when it is what reaches the limit, outlives the stop. */
  lemma FirstSummaryOutlivesStop(cfg: Settings, s: LeaderState, i: nat, summary: Summary)
    requires i < |s.regions| == |s.regionsSummary| && LimitReached(cfg, s.time + 1) && !s.regions[i]
    ensures var r := OnUpdateRegionSummary(cfg, s, i, summary);
      |r.regionsSummary| == |s.regions| && r.status == Finished && r.regionsSummary[i].Some?
  {
    var reported := s.(regionsSummary := s.regionsSummary[i := Some(summary)]);
    TimeLimitShutdown(cfg, reported);
    StopEmptiesSummaryIff(cfg, reported, i);
  }

  /** A stop on request; the reply to the requester is not part of the state. */
  function OnStopSimulation(cfg: Settings, s: LeaderState): LeaderState
    requires |s.regions| == |s.regionsSummary|
  {
    ResetFrom(StopRegionsFrom(cfg, s, 0), 0).(status := Stopped)
  }

  /** A stop on request releases the same ids; the parent hears of it only from the releases that
      find the time limit reached on the way. */
  lemma StopOnRequest(cfg: Settings, s: LeaderState)
    requires |s.regions| == |s.regionsSummary|
    ensures var ids := RegisteredIds(s.regions, 0);
      OnStopSimulation(cfg, s)
      == AfterStop(s, ids, LateReleases(cfg, s.time, |ids|)).(time := 0, status := Stopped)
  {
    StopIsAfterStop(cfg, s, 0);
    NothingToReset(StopRegionsFrom(cfg, s, 0), 0);
  }

  // ----- the pool over a shutdown

  lemma {:induction false} RemoveEachMultiset(ids: seq<nat>, gone: seq<nat>)
    ensures multiset(RemoveEach(ids, gone)) == multiset(ids) - multiset(gone)
    decreases |gone|
  {
    hide RemoveFirst;
    if gone != [] {
      var rest, kept := gone[1..], RemoveFirst(ids, gone[0]);
      RemoveFirstMembers(ids, gone[0]);
      RemoveEachMultiset(kept, rest);
      assert gone == [gone[0]] + rest;
      assert multiset(gone) == multiset{gone[0]} + multiset(rest);
      RemoveTwice(multiset(ids), multiset{gone[0]}, multiset(rest));
    }
  }

  lemma RemoveTwice(m: multiset<nat>, a: multiset<nat>, b: multiset<nat>)
    ensures m - a - b == m - (a + b)
  {
  }

  lemma {:induction false} RegisteredIdsOnce(regions: seq<bool>, i: nat, x: nat)
    ensures multiset(RegisteredIds(regions, i))[x] == if i <= x < |regions| && regions[x] then 1 else 0
    decreases |regions| - i
  {
    if i < |regions| {
      RegisteredIdsOnce(regions, i + 1, x);
    }
  }

  /** When every registered id is used, a shutdown moves exactly those ids back to the free list and
      the pool as a whole keeps every id as often as before. */
  lemma ShutdownKeepsPool(cfg: Settings, s: LeaderState)
    requires |s.regions| == |s.regionsSummary| && LimitReached(cfg, s.time + 1)
    requires forall x :: 0 <= x < |s.regions| && s.regions[x] ==> x in s.regionUsedIds
    ensures var r := IncreaseTime(cfg, s);
      && multiset(r.regionsIds) + multiset(r.regionUsedIds) == multiset(s.regionsIds) + multiset(s.regionUsedIds)
      && forall x :: 0 <= x < |s.regions| && s.regions[x] ==> multiset(r.regionsIds)[x] == multiset(s.regionsIds)[x] + 1
  {
    var ids := RegisteredIds(s.regions, 0);
    TimeLimitShutdown(cfg, s);
    RemoveEachMultiset(s.regionUsedIds, ids);
    forall x: nat
      ensures multiset(RegisteredIds(s.regions, 0))[x] == if x < |s.regions| && s.regions[x] then 1 else 0
    {
      RegisteredIdsOnce(s.regions, 0, x);
    }
    PoolMoves(multiset(s.regionsIds), multiset(s.regionUsedIds), multiset(ids));
  }

  lemma PoolMoves(free: multiset<nat>, used: multiset<nat>, ids: multiset<nat>)
    requires forall x :: x in ids ==> ids[x] == 1 && x in used
    ensures free + ids + (used - ids) == free + used
  {
    assert ids <= used;
  }
}
