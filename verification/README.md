# BIMASCO: a verified model of the region protocol, the agent memory and the search loops

BIMASCO lets agents search for good solutions of an optimisation problem while regions collect the
solutions they find. One leader hands out region ids from a finite pool, creates regions, routes new
solutions to them by roulette, and stops everything at a time limit; regions split when they vary too
much, and merge. Agents remember regions in a small table of rewards and search with differential
evolution, iterated local search or GRASP. This project models that logic in Dafny and proves what holds
over all inputs and all runs.

| file | models |
|---|---|
| `Analyser.dfy` | solutions and the tolerance comparison |
| `Statistics.dfy`, `Region.dfy` | a region, its statistics and the split |
| `RegionSelector.dfy` | the leader's roulette, on doubles with infinity and not-a-number |
| `Messages.dfy`, `Leader.dfy`, `SimulationActor.dfy`, `RegionActor.dfy` | the messages, the handlers as functions, and the actors' objects proved against them |
| `Protocol.dfy`, `ProtocolRuns.dfy`, `Conservation.dfy`, `Deliveries.dfy` | all interleavings of the handlers: the id invariant, one release per life, conservation of solutions, and where each solution is sent |
| `ProtocolExamples.dfy` | short runs in which the protocol fails to do what it is meant to do |
| `QLearningMemory.dfy` | an agent's memory |
| `Routing.dfy`, `InRouteSwap.dfy` | the vehicle routing objective and the in-route swap |
| `FunctionProblem.dfy`, `DifferentialEvolution.dfy`, `IteratedLocalSearch.dfy`, `Grasp.dfy` | the search loops |
| `SolutionCache.dfy` | the evaluation cache of a solution |
| `Options.dfy`, `Sequences.dfy` | an optional value, removal from a list |

`dafny verify dfyconfig.toml` checks the whole project.

## How the model reads the source

* Doubles are exact reals; the roulette adds infinity and not-a-number because its branches depend on
  them. A standard deviation is a number `s >= 0` with `s * s * (n - 1)` equal to the sum of the squared
  deviations, and 0 for one value.
* Random draws, hash-map orders, the results of a local search and the summaries that depend on a square
  root are inputs. Draws that can be exhausted stand for loops that may not end.
* An exception is an outcome: `None`, `Rejected` or a flag. A run of the protocol consists of steps in
  which no handler of the leader throws; a region handler that throws loses the payload of its message.
* Messages from one region to the leader arrive in order. Messages to a region may arrive in any order,
  which allows more than the runtime does, so what is proved for every run holds for its runs as well.
* A split always returns a list of two lists (src/main/java/br/cefetmg/lsi/bimasco/core/regions/Region.java:135),
  so the branch that sends a merge request is never taken. The model lets a live region ask for a merge
  at any time, which exercises the merge handlers and again allows more runs, not fewer.

## Where the code is kept as it is

* Without a free id the lower half of a split is answered with the higher half (SimulationActor.java:372),
  although the log text and the branch for the higher half show that the lower one is meant.
  `Conservation.StepConservesIff` gives the exact condition under which a step conserves solutions, and
  `ProtocolExamples.LowerHalfLost` a run in which it does not.
* A region reports its summary before it registers, so the roulette can pick a region the leader cannot
  reach yet: `ProtocolExamples.PickedBeforeRegistered`. `SimulationActors.ResultNeverThrowsIff` and
  `SimulationActors.SplitNeverThrowsIff` say exactly when no draw makes a handler throw. Runs with a step
  that throws are not continued.
* The stop at the time limit forgets the summaries of registered regions only, so the summary of a region
  that has reported and not registered survives it: `Leader.StopEmptiesSummaryIff` and
  `ProtocolExamples.SummaryOutlivesStop`.
* A stop leaves the region of a region actor in place, so the id invariant is stated before any stop and
  the step that reaches the time limit is proved on its own, from any reachable state.
* The tolerance comparison is no total order. What the folds and search loops guarantee is stated with the
  tolerance in it, and `Analyser.BestIsMinimumIff` says exactly when a fold returns a minimum. The two
  comparisons of a generation of differential evolution add up: `DifferentialEvolution.OneToleranceIff`.
* A solution copy loses its viability: `SolutionCache.CopyLosesViability`, and exactly when a read is right:
  `SolutionCache.ViabilityIsRightIff`.
* The in-route swap does not return for every solution: `InRouteSwap.ReturnsIffCanMove`.

## Model

| member | source | states |
|---|---|---|
| `ProtocolRuns.IdsPartition` | src/main/java/br/cefetmg/lsi/bimasco/actors/SimulationActor.java:245-255 | In every state of every run before a stop, under any interleaving of messages, the free and the used id lists are duplicate-free and partition 0..maxRegions-1, and an id is used iff exactly one of three things exists for it: a creation in flight, a live region, a release in flight |
| `ProtocolRuns.OneReleasePerLife` | src/main/java/br/cefetmg/lsi/bimasco/actors/RegionActor.java:224-247 | Over a whole run the number of lives a region has started equals the number of times the leader took its id back plus the one life or release still under way: each life ends in exactly one release, however many merge responses, stale ones included, reach it |
| `ProtocolRuns.SlotsOfUsedIdsOnly` | src/main/java/br/cefetmg/lsi/bimasco/actors/SimulationActor.java:245-266 | The leader's registration and summary slots are filled only for used ids; from the handling of a release until the region of the next creation speaks, the slot is empty and no message of the old life is in flight to the leader |
| `ProtocolRuns.CreationFindsNoRegion` | src/main/java/br/cefetmg/lsi/bimasco/actors/RegionActor.java:137-144 | In every reachable state a creation in flight finds a region that is not alive, and no live region is empty |
| `ProtocolRuns.RunKeepsInv` | src/main/java/br/cefetmg/lsi/bimasco/actors/SimulationActor.java:137-167 | The protocol invariant holds in every state of every run |
| `ProtocolRuns.ShutdownAfterRun` | src/main/java/br/cefetmg/lsi/bimasco/actors/SimulationActor.java:262-297 | The step that ends a run: from any reachable state, the handler of a registration, a summary or a release whose tick reaches the limit stops every region registered by then. None stays registered, the clock is reset, every id is in the pool exactly once, the free ids are those free before and those registered, a summary survives iff its region had reported and not registered, and the parent is notified once per region stopped and once more |
| `ProtocolExamples.SummaryOutlivesStop` | src/main/java/br/cefetmg/lsi/bimasco/actors/SimulationActor.java:262-266 | A reachable state of a limited simulation in which a region's first summary reaches the limit: the simulation finishes with that summary still in its slot |
| `ProtocolRuns.StepLives` | src/main/java/br/cefetmg/lsi/bimasco/actors/RegionActor.java:224-240 | Each step changes the lives and releases under way of a region exactly by the creation it delivers and the release the leader takes back |
| `Protocol.StepKeepsInv` | src/main/java/br/cefetmg/lsi/bimasco/actors/SimulationActor.java:137-167 | Every step of every interleaving (agent result, leader handler, region handler, stimulus, merge request) keeps the invariant |
| `Protocol.InitialInv` | src/main/java/br/cefetmg/lsi/bimasco/actors/SimulationActor.java:78-104 | The state the constructor builds satisfies the invariant |
| `Protocol.ReactKeepsNode` | src/main/java/br/cefetmg/lsi/bimasco/actors/RegionActor.java:120-135 | Whatever message a region handles, its id keeps exactly as many carriers as the leader's used list says |
| `Conservation.MergeFreeRunsConserve` | src/main/java/br/cefetmg/lsi/bimasco/actors/SimulationActor.java:357-432 | Over every run without merge requests, with minRegions <= maxRegions and a free id for every non-empty lower half, each solution the leader was handed is held by a region or in flight exactly as often as it was handed over |
| `Conservation.RunBalance` | src/main/java/br/cefetmg/lsi/bimasco/actors/SimulationActor.java:357-432 | Over every run, merges included: solutions handed over plus solutions sent twice equal solutions held or in flight plus solutions dropped |
| `Conservation.StepConservesIff` | src/main/java/br/cefetmg/lsi/bimasco/actors/SimulationActor.java:362-386 | A step conserves every solution iff it meets a guard that can be checked before it: a free id for a result below the minimum, a free id for a non-empty lower half, a live region for a delivered payload. A split without a free id never conserves a non-empty lower half |
| `Conservation.OnlyDeadRegionsLose` | src/main/java/br/cefetmg/lsi/bimasco/actors/RegionActor.java:224-269 | With merges on, and a free id for every non-empty lower half, the only step that loses anything is the delivery of a payload to a region whose life has ended |
| `Conservation.StepBalance` | src/main/java/br/cefetmg/lsi/bimasco/actors/RegionActor.java:256-304 | The exact balance of each single step, counted for an arbitrary solution |
| `Conservation.FreeIdBelowMinimum` | src/main/java/br/cefetmg/lsi/bimasco/actors/SimulationActor.java:423-425 | With minRegions <= maxRegions a result below the minimum number of regions always finds a free id |
| `Conservation.StepStaysMergeFree` | src/main/java/br/cefetmg/lsi/bimasco/actors/RegionActor.java:288-303 | Without merge requests no region ever dies before a stop and no payload reaches a dead region |
| `ProtocolExamples.LowerHalfLost` | src/main/java/br/cefetmg/lsi/bimasco/actors/SimulationActor.java:362-373 | A reachable run with one region in which a split has no free id: the lower half is answered with the higher half and its solution is gone |
| `Deliveries.ResultGoesToPicked` | src/main/java/br/cefetmg/lsi/bimasco/actors/SimulationActor.java:423-431 | At or above the minimum a result reaches exactly the inbox of the region the roulette picked, as one message, and nothing else changes |
| `Deliveries.ResultCreates` | src/main/java/br/cefetmg/lsi/bimasco/actors/SimulationActor.java:423-425 | Below the minimum a result goes into a creation on the first free id, which becomes used; without one nothing is sent |
| `Deliveries.SplitGoes` | src/main/java/br/cefetmg/lsi/bimasco/actors/SimulationActor.java:357-388 | Both halves of a split: exactly which messages are sent, in which order, and which ids are taken |
| `Deliveries.ReroutedHalvesArrive` | src/main/java/br/cefetmg/lsi/bimasco/actors/SimulationActor.java:369-371 | Without a free id each half reaches exactly the inbox of the region picked for it, the higher half in place of the lower one |
| `Leader.MergeReaches` | src/main/java/br/cefetmg/lsi/bimasco/actors/SimulationActor.java:404-411 | A merge request is forwarded once to every registered region but its sender, and to no other |
| `ProtocolExamples.PickedBeforeRegistered` | src/main/java/br/cefetmg/lsi/bimasco/actors/RegionActor.java:142-144 | A reachable state between a region's summary and its registration in which the roulette can pick only that region and handling a result throws |
| `SimulationActors.ResultNeverThrowsIff` | src/main/java/br/cefetmg/lsi/bimasco/actors/SimulationActor.java:417-432 | Handling a result never throws, whatever is drawn, iff it is empty, the number of regions is below the minimum, or every region the roulette can pick has registered |
| `SimulationActors.SplitNeverThrowsIff` | src/main/java/br/cefetmg/lsi/bimasco/actors/SimulationActor.java:357-388 | Handling a split never throws, whatever is drawn, iff each half that finds no free id finds every region the roulette can pick registered, the second one in the pool the first has left |
| `Leader.TimeLimitShutdown` | src/main/java/br/cefetmg/lsi/bimasco/actors/SimulationActor.java:190-218 | Reaching the time limit with k registered regions: the recursion terminates, each region is asked to stop exactly once in ascending order, each id is returned once, none stays registered, time ends at 0 and the parent is notified k+1 times |
| `Leader.StopEmptiesSummaryIff` | src/main/java/br/cefetmg/lsi/bimasco/actors/SimulationActor.java:245-250 | The summary slots do not all end empty: one does iff its region was registered or had not reported |
| `Leader.FirstSummaryOutlivesStop` | src/main/java/br/cefetmg/lsi/bimasco/actors/SimulationActor.java:262-266 | A summary that reaches the limit before its region has registered outlives the stop |
| `Leader.StopIsAfterStop` | src/main/java/br/cefetmg/lsi/bimasco/actors/SimulationActor.java:190-208 | The recursive stop from any state and any time equals a closed form without recursion, with the number of notices the releases give on the way |
| `Leader.StopOnRequest` | src/main/java/br/cefetmg/lsi/bimasco/actors/SimulationActor.java:174-182 | A stop on request releases the same ids; only releases that find the time limit reached notify the parent |
| `Leader.ShutdownKeepsPool` | src/main/java/br/cefetmg/lsi/bimasco/actors/SimulationActor.java:252-255 | When every registered id is used, a shutdown moves exactly those ids to the free list and the pool keeps every id as often as before |
| `Leader.OnlyClockMovesIff` | src/main/java/br/cefetmg/lsi/bimasco/actors/SimulationActor.java:286-297 | A tick changes nothing but the clock iff the time limit is not reached |
| `Leader.OnRegionRelease` | src/main/java/br/cefetmg/lsi/bimasco/actors/SimulationActor.java:245-250 | A release never raises the number of registered regions beyond those of the emptied slot: the measure of the shutdown recursion |
| `SimulationActors.SimulationActor.constructor` | src/main/java/br/cefetmg/lsi/bimasco/actors/SimulationActor.java:78-104 | A new leader has all ids free and no region |
| `SimulationActors.SimulationActor.NextRegionId` | src/main/java/br/cefetmg/lsi/bimasco/actors/SimulationActor.java:605-623 | Takes the first free id and marks it used, or leaves everything as it is |
| `SimulationActors.SimulationActor.HandleSolutionResult` | src/main/java/br/cefetmg/lsi/bimasco/actors/SimulationActor.java:417-432 | Nothing for no solutions; below the minimum a region on the first free id; otherwise one turn of the roulette and exactly one message, to the region picked, when that has registered |
| `SimulationActors.SimulationActor.HandleRegionSplit` | src/main/java/br/cefetmg/lsi/bimasco/actors/SimulationActor.java:357-388 | Each half in turn to a new region on the next free id, or else to the region picked from the pool as it then is, the higher half in place of the lower one; the messages and the pool are stated outright |
| `SimulationActors.SimulationActor.Route` | src/main/java/br/cefetmg/lsi/bimasco/actors/SimulationActor.java:369-371 | One turn of the roulette, with the outcome its draws determine, and one message to the region picked, iff that has registered |
| `SimulationActors.SimulationActor.HandleMergeRequest` | src/main/java/br/cefetmg/lsi/bimasco/actors/SimulationActor.java:404-411 | A merge request goes to every registered region but its sender |
| `SimulationActors.SimulationActor.HandleRegionRelease` | src/main/java/br/cefetmg/lsi/bimasco/actors/SimulationActor.java:245-250 | In place: id back to the pool, both slots emptied, one tick, shutdown at the limit |
| `SimulationActors.SimulationActor.AdvanceTime` | src/main/java/br/cefetmg/lsi/bimasco/actors/SimulationActor.java:286-297 | In place: one tick, and at the limit the shutdown |
| `SimulationActors.SimulationActor.StopAgentsAndRegions` | src/main/java/br/cefetmg/lsi/bimasco/actors/SimulationActor.java:190-208 | The loop over the registered regions with the mutual recursion into the release handler; its termination is proved |
| `SimulationActors.SimulationActor.ResetRegionsData` | src/main/java/br/cefetmg/lsi/bimasco/actors/SimulationActor.java:210-218 | The loop that releases whatever is still registered and resets the clock |
| `SimulationActors.SimulationActor.HandleRegionRegister` | src/main/java/br/cefetmg/lsi/bimasco/actors/SimulationActor.java:440-450 | Registration fills both slots |
| `SimulationActors.SimulationActor.HandleUpdateRegionSummary` | src/main/java/br/cefetmg/lsi/bimasco/actors/SimulationActor.java:262-266 | A summary fills its slot, registered or not |
| `SimulationActors.SimulationActor.HandleStopSimulation` | src/main/java/br/cefetmg/lsi/bimasco/actors/SimulationActor.java:174-182 | A stop on request |
| `RegionActors.StimulateKeepsRegion` | src/main/java/br/cefetmg/lsi/bimasco/actors/RegionActor.java:271-304 | A split leaves at least one solution behind, and at least two of two or more |
| `RegionActors.SplitsIff` | src/main/java/br/cefetmg/lsi/bimasco/actors/RegionActor.java:286-295 | A live region with a global summary splits iff the whole varies less than it does, compared without quotients |
| `RegionActors.RatesCompared` | src/main/java/br/cefetmg/lsi/bimasco/actors/StatisticsHelper.java:6-13 | One variation rate is below another iff the deviations compare so when each is scaled by the other mean; against a mean of 0 any deviation is more |
| `RegionActors.StopReleases` | src/main/java/br/cefetmg/lsi/bimasco/actors/RegionActor.java:172-177 | A stop empties a live region, leaves it in place and releases its id |
| `RegionActors.RegionActor.HandleCreate` | src/main/java/br/cefetmg/lsi/bimasco/actors/RegionActor.java:137-158 | A new region from the initial solutions; the summary is sent before the registration |
| `RegionActors.RegionActor.HandleSolutions` | src/main/java/br/cefetmg/lsi/bimasco/actors/RegionActor.java:200-204 | Solutions from the leader or from a merge join the region and its new summary is reported; without a region the handler throws |
| `RegionActors.RegionActor.HandleMergeRequest` | src/main/java/br/cefetmg/lsi/bimasco/actors/RegionActor.java:206-222 | A live region answers when the aggregate varies less than it does |
| `RegionActors.RegionActor.HandleMergeResponse` | src/main/java/br/cefetmg/lsi/bimasco/actors/RegionActor.java:224-247 | The first response of a life hands all solutions over and releases the id, any later one does nothing |
| `RegionActors.RegionActor.HandleStopSimulation` | src/main/java/br/cefetmg/lsi/bimasco/actors/RegionActor.java:172-177 | A stop empties the region and releases its id but leaves the region in place |
| `RegionActors.RegionActor.HandleInternalStimulus` | src/main/java/br/cefetmg/lsi/bimasco/actors/RegionActor.java:271-304 | A live region with a global summary splits when it varies more than the whole |
| `Regions.SplitPartitions` | src/main/java/br/cefetmg/lsi/bimasco/core/regions/Region.java:112-136 | A split loses and invents no solution, and every lower value is below every staying value, and that below every higher one |
| `Regions.SplitSorts` | src/main/java/br/cefetmg/lsi/bimasco/core/regions/Region.java:117-135 | Below the configured size nothing moves; otherwise a solution is in the lower list iff it lies more than the deviation below the mean, in the higher one iff more than that above it, and stays in every other case, each as often and in the order of before |
| `Regions.SplitKeepsTwo` | src/main/java/br/cefetmg/lsi/bimasco/core/regions/Region.java:119-131 | At least two solutions stay whenever the region held two or more, and the only one stays, by counting squared deviations: splitting never empties a region |
| `Regions.SplitConcentrates` | src/main/java/br/cefetmg/lsi/bimasco/core/regions/Region.java:119-134 | The squared deviation of the staying solutions about their own new mean is at most their number times the old sample variance |
| `Regions.Region.AddSolutionsCollection` | src/main/java/br/cefetmg/lsi/bimasco/core/regions/Region.java:72-83 | Solutions, both statistics and the best solution are kept in step |
| `Regions.Region.AddSolution` | src/main/java/br/cefetmg/lsi/bimasco/core/regions/Region.java:103-110 | One solution more in the list and in both statistics |
| `Regions.Region.Split` | src/main/java/br/cefetmg/lsi/bimasco/core/regions/Region.java:112-136 | In place: untouched, with two empty lists, below the configured size; otherwise every solution sorted about the mean, with multiplicity and in order, and the region rebuilt from those that stay |
| `Regions.Region.Clear` | src/main/java/br/cefetmg/lsi/bimasco/core/regions/Region.java:170-175 | Empties the list and the statistics and leaves the best solution |
| `Statistics.MeanMinimises` | src/main/java/br/cefetmg/lsi/bimasco/core/regions/Region.java:132-134 | The squared deviation about the mean is least |
| `Statistics.AddKeepsSummary` | src/main/java/br/cefetmg/lsi/bimasco/core/regions/Region.java:103-107 | The running moments a summary keeps describe exactly the values added |
| `RegionSelector.SelectRegion` | src/main/java/br/cefetmg/lsi/bimasco/util/RegionSelector.java:31-80 | The outcome for the draws given: a single id at once, otherwise the id whose accumulated share the draw falls into, or with an infinite or undefined total the first draw that names a registered region; out of bounds when the wheel is empty |
| `RegionSelector.Accumulate` | src/main/java/br/cefetmg/lsi/bimasco/util/RegionSelector.java:50-54 | The array is normalised and accumulated in place |
| `RegionSelector.FillWeights` | src/main/java/br/cefetmg/lsi/bimasco/util/RegionSelector.java:38-45 | Inverse variation rates, infinite for a region without a summary, and their total |
| `RegionSelector.VariationRateMeans` | src/main/java/br/cefetmg/lsi/bimasco/actors/StatisticsHelper.java:6-13 | The rate times the absolute mean is the absolute deviation; infinite for a mean of 0 alone, undefined for no values or both 0 |
| `RegionSelector.WeightIsInverse` | src/main/java/br/cefetmg/lsi/bimasco/util/RegionSelector.java:42-44 | The weight times the rate is 1; infinite without a summary or without variation |
| `RegionSelector.FirstRegisteredIsFirst` | src/main/java/br/cefetmg/lsi/bimasco/util/RegionSelector.java:60-63 | The fallback chooses what the first draw names that names a registered region |
| `RegionSelector.AccumulatedIsShare` | src/main/java/br/cefetmg/lsi/bimasco/util/RegionSelector.java:50-54 | In the finite case the accumulated entries are the prefix sums over the total |
| `RegionSelector.LastShareIsOne` | src/main/java/br/cefetmg/lsi/bimasco/util/RegionSelector.java:50-54 | The last accumulated entry is exactly 1 |
| `RegionSelector.PickIsUnique` | src/main/java/br/cefetmg/lsi/bimasco/util/RegionSelector.java:71-75 | A draw falls into at most one interval |
| `RegionSelector.SelectsMaySelect` | src/main/java/br/cefetmg/lsi/bimasco/util/RegionSelector.java:59-79 | The selection chooses only ids the invariant proofs allow, and is out of bounds exactly on an empty wheel |
| `RegionSelector.MaySelectUsed` | src/main/java/br/cefetmg/lsi/bimasco/util/RegionSelector.java:59-79 | Among several regions only a used id is chosen, and one that has a summary or is registered |
| `RegionSelector.FirstRegistered` | src/main/java/br/cefetmg/lsi/bimasco/util/RegionSelector.java:60-63 | The fallback returns only registered ids, and keeps drawing exactly while none is drawn |
| `RegionSelector.RoutableIff` | src/main/java/br/cefetmg/lsi/bimasco/util/RegionSelector.java:31-80 | For all draws the selection names a registered region or goes on drawing, iff a single id is registered, or there are several and a finite total is positive with every id that has an interval registered (the first always has one) |
| `RegionSelector.LowerRateNotShorter` | src/main/java/br/cefetmg/lsi/bimasco/util/RegionSelector.java:42-54 | In the finite case, of two ids on the wheel the one with the lower variation rate never gets the shorter interval |
| `Analyser.BestWithinDrift` | src/main/java/br/cefetmg/lsi/bimasco/core/solutions/analyser/SolutionAnalyser.java:43-46 | Folding n solutions returns a member at most (n-1) tolerances above the minimum |
| `Analyser.BestNearMinimum` | src/main/java/br/cefetmg/lsi/bimasco/core/solutions/analyser/FunctionSolutionAnalyser.java:17-25 | The fold drifts by less than one tolerance per solution read |
| `Analyser.BestIsMinimumIff` | src/main/java/br/cefetmg/lsi/bimasco/core/solutions/analyser/FunctionSolutionAnalyser.java:28-41 | The fold returns a true minimum iff every solution after the last minimum is at least one tolerance above it |
| `Analyser.SeparatedMinimumIsFound` | src/main/java/br/cefetmg/lsi/bimasco/core/solutions/analyser/FunctionSolutionAnalyser.java:17-41 | A unique minimum separated from all others by the tolerance is returned |
| `Analyser.DriftReturnsTheWorst` | src/main/java/br/cefetmg/lsi/bimasco/core/solutions/analyser/FunctionSolutionAnalyser.java:28-41 | Three values of which the worst is returned |
| `QLearning.ValuesStayWithin` | src/main/java/br/cefetmg/lsi/bimasco/core/agents/QLearningMemory.java:122-145 | After any history of operations every value lies within 1/(1-gamma) |
| `QLearning.Contraction` | src/main/java/br/cefetmg/lsi/bimasco/core/agents/QLearningMemory.java:131 | One step of the update rule keeps the bound |
| `QLearning.KnownRegionLearns` | src/main/java/br/cefetmg/lsi/bimasco/core/agents/QLearningMemory.java:122-131 | A known region moves by the part alpha from its value towards the reward plus the discounted largest value; nothing else changes |
| `QLearning.NewRegionLearns` | src/main/java/br/cefetmg/lsi/bimasco/core/agents/QLearningMemory.java:132-141 | A new region gets the reward; with room for it nothing else changes |
| `QLearning.FullMemoryEvicts` | src/main/java/br/cefetmg/lsi/bimasco/core/agents/QLearningMemory.java:134-139 | A full memory gives up exactly one region for a new one, and one of least value |
| `QLearning.BetterEarnsMore` | src/main/java/br/cefetmg/lsi/bimasco/core/agents/QLearningMemory.java:98-113 | For a monotone sigmoid and alpha >= 0 a better result never leaves its region with less |
| `QLearning.FirstValueSign` | src/main/java/br/cefetmg/lsi/bimasco/core/agents/QLearningMemory.java:98-113 | Judged against the best solution before it, a first result is worth 1 to a new region, one at least as good 0 or more, a worse one 0 or less |
| `QLearning.HigherTopTeachesMore` | src/main/java/br/cefetmg/lsi/bimasco/core/agents/QLearningMemory.java:124-131 | What a known region learns does not fall when the largest remembered value rises |
| `QLearning.MaxQIsLargest` | src/main/java/br/cefetmg/lsi/bimasco/core/agents/QLearningMemory.java:124-125 | The largest value remembered, 0 when there is none |
| `QLearning.BestReplacedIff` | src/main/java/br/cefetmg/lsi/bimasco/core/agents/QLearningMemory.java:115-120 | The best solution is replaced iff the new one lies at another point and is at least the tolerance better |
| `QLearning.InitializedHolds` | src/main/java/br/cefetmg/lsi/bimasco/core/agents/QLearningMemory.java:42-57 | Every id chosen holds 0, every other what it held; a sample is as long as the memory allows and names only ids given |
| `QLearning.HigherValueLongerInterval` | src/main/java/br/cefetmg/lsi/bimasco/core/agents/QLearningMemory.java:151-186 | The intervals differ in proportion to the values: a higher value never has the shorter one |
| `QLearning.TableFits` | src/main/java/br/cefetmg/lsi/bimasco/core/agents/QLearningMemory.java:42-96 | In every history an agent produces the table holds at most maxRegions regions |
| `QLearning.FirstRegionAlwaysFits` | src/main/java/br/cefetmg/lsi/bimasco/core/agents/QLearningMemory.java:134-141 | The bound on the table needs room for at least one region: with less, the first insertion exceeds it |
| `QLearning.UpdateIdsKeepsTheBest` | src/main/java/br/cefetmg/lsi/bimasco/core/agents/QLearningMemory.java:59-96 | After an update of the ids: only ids given, min(distinct ids, maxRegions) of them, old values unchanged, new ones 0, and no dropped value above a kept one |
| `QLearning.RankedIsSorted` | src/main/java/br/cefetmg/lsi/bimasco/core/agents/QLearningMemory.java:88-92 | The stable sort reorders the entries by descending value |
| `QLearning.EveryRegionHasAShare` | src/main/java/br/cefetmg/lsi/bimasco/core/agents/QLearningMemory.java:157-205 | After any history of an agent every remembered region's interval is at least as long as a bound that depends on the settings only |
| `QLearning.DefaultShare` | src/main/java/br/cefetmg/lsi/bimasco/core/agents/QLearningMemory.java:25-28 | With the default settings that bound is 1/100 and the value bound is 5 |
| `QLearning.IntervalsCover` | src/main/java/br/cefetmg/lsi/bimasco/core/agents/QLearningMemory.java:176-186 | The intervals start at 0, end at 1 and leave no gap |
| `QLearning.FallsOnce` | src/main/java/br/cefetmg/lsi/bimasco/core/agents/QLearningMemory.java:190-197 | Every draw falls into exactly one interval |
| `QLearning.QLearningMemory.constructor` | src/main/java/br/cefetmg/lsi/bimasco/core/agents/QLearningMemory.java:35-40 | A new memory is empty |
| `QLearning.QLearningMemory.Initialize` | src/main/java/br/cefetmg/lsi/bimasco/core/agents/QLearningMemory.java:42-57 | All ids, or a sample of them when there are too many, at 0 |
| `QLearning.QLearningMemory.UpdateRegionIds` | src/main/java/br/cefetmg/lsi/bimasco/core/agents/QLearningMemory.java:59-96 | The removal and insertion loops and the ranking yield the updated table |
| `QLearning.QLearningMemory.UpdateQTable` | src/main/java/br/cefetmg/lsi/bimasco/core/agents/QLearningMemory.java:122-145 | The update rule, or an insertion that evicts the least value from a full table |
| `QLearning.QLearningMemory.UpdateBestFoundSolution` | src/main/java/br/cefetmg/lsi/bimasco/core/agents/QLearningMemory.java:115-120 | Replaced only by a better solution |
| `QLearning.QLearningMemory.ResetMemory` | src/main/java/br/cefetmg/lsi/bimasco/core/agents/QLearningMemory.java:207-210 | Forgets everything |
| `QLearning.QLearningMemory.UpdateMemory` | src/main/java/br/cefetmg/lsi/bimasco/core/agents/Agent.java:80-86 | An empty memory is initialised, any other updated |
| `QLearning.QLearningMemory.Learn` | src/main/java/br/cefetmg/lsi/bimasco/core/agents/Agent.java:100-101 | The reward is judged against the best solution before this one |
| `QLearning.QLearningMemory.ChooseRegion` | src/main/java/br/cefetmg/lsi/bimasco/core/agents/QLearningMemory.java:157-205 | A remembered id whenever the table is not empty: the one into whose interval the draw falls |
| `QLearning.QLearningMemory.Accumulate` | src/main/java/br/cefetmg/lsi/bimasco/core/agents/QLearningMemory.java:182-186 | The array holds the ends of the intervals |
| `Routing.RoutingSolution.ObjectiveFunction` | src/main/java/br/cefetmg/lsi/bimasco/core/solutions/VehicleRoutingTimeWindowSolution.java:78-136 | The loop with its resets computes the sum of what the routes cost one by one |
| `Routing.VisitKeepsTotals` | src/main/java/br/cefetmg/lsi/bimasco/core/solutions/VehicleRoutingTimeWindowSolution.java:96-126 | One iteration keeps the meaning of the loop's variables: sums over the routes completed and the route under way |
| `Routing.RoutesSpellTour` | src/main/java/br/cefetmg/lsi/bimasco/core/solutions/VehicleRoutingTimeWindowSolution.java:89-94 | The routes written out with their returns are the tour, and none contains the depot |
| `Routing.TourReturns` | src/main/java/br/cefetmg/lsi/bimasco/core/solutions/VehicleRoutingTimeWindowSolution.java:89-94 | One return to the depot is added iff the vector does not end with one |
| `Routing.RouteOfTwo` | src/main/java/br/cefetmg/lsi/bimasco/core/solutions/VehicleRoutingTimeWindowSolution.java:104-125 | A route of two clients leg by leg: distances, load, and waiting at what is not open yet |
| `Routing.PenaltiesAreExcess` | src/main/java/br/cefetmg/lsi/bimasco/core/solutions/VehicleRoutingTimeWindowSolution.java:108-120 | One more route adds exactly its excess load, one more stop exactly its delay |
| `Routing.NoOverloadIff` | src/main/java/br/cefetmg/lsi/bimasco/core/solutions/VehicleRoutingTimeWindowSolution.java:118-120 | There is no overload penalty iff every route's load fits the truck |
| `Routing.NoTimePenaltyIff` | src/main/java/br/cefetmg/lsi/bimasco/core/solutions/VehicleRoutingTimeWindowSolution.java:109-111 | There is no time penalty iff every stop of every route is reached before it closes |
| `Routing.BoundIff` | src/main/java/br/cefetmg/lsi/bimasco/core/solutions/VehicleRoutingTimeWindowSolution.java:189-206 | The bounds are -1, exactly the positions of the depot, and the length iff the vector does not end there |
| `Routing.RoutingSolution.GetRoutes` | src/main/java/br/cefetmg/lsi/bimasco/core/solutions/VehicleRoutingTimeWindowSolution.java:189-206 | The bounds of the routes: -1, the depot positions, and the length unless the vector ends at the depot |
| `Routing.ClientsBetween` | src/main/java/br/cefetmg/lsi/bimasco/core/solutions/VehicleRoutingTimeWindowSolution.java:189-206 | Strictly between two neighbouring bounds there are only clients |
| `Routing.RoutingSolution.FullRoute` | src/main/java/br/cefetmg/lsi/bimasco/core/solutions/VehicleRoutingTimeWindowSolution.java:177-187 | The depot first, and last unless the vector ends there |
| `InRouteSwap.ModifiedKeepsRoutes` | src/main/java/br/cefetmg/lsi/bimasco/core/solutions/modifiesSolution/VRTWSwapInsideRouteSolutionModifier.java:31-46 | Whenever the modifier returns, for any number of motions: depot positions and each route's bag of clients are unchanged, hence overload penalty and route count, and the objective differs by distance and lateness only |
| `InRouteSwap.ReturnsIffCanMove` | src/main/java/br/cefetmg/lsi/bimasco/core/solutions/modifiesSolution/VRTWSwapInsideRouteSolutionModifier.java:31-80 | For any positive number of motions some draws let the modifier return iff the only route has three clients or one of several routes has two; otherwise it draws forever or throws |
| `InRouteSwap.ModifiedRearranges` | src/main/java/br/cefetmg/lsi/bimasco/core/solutions/modifiesSolution/VRTWSwapInsideRouteSolutionModifier.java:36-43 | Any number of motions rearranges clients within their routes |
| `InRouteSwap.MovedExchanges` | src/main/java/br/cefetmg/lsi/bimasco/core/solutions/modifiesSolution/VRTWSwapInsideRouteSolutionModifier.java:69-79 | A motion that returns has exchanged two different clients of one route, and left every other position as it was |
| `InRouteSwap.ModifiedIsChain` | src/main/java/br/cefetmg/lsi/bimasco/core/solutions/modifiesSolution/VRTWSwapInsideRouteSolutionModifier.java:36-45 | A modification that returns is a chain of exactly as many such motions as asked for |
| `InRouteSwap.FirstClientStays` | src/main/java/br/cefetmg/lsi/bimasco/core/solutions/modifiesSolution/VRTWSwapInsideRouteSolutionModifier.java:52-53 | A single route keeps its first client in place |
| `InRouteSwap.SingleClientNotChosen` | src/main/java/br/cefetmg/lsi/bimasco/core/solutions/modifiesSolution/VRTWSwapInsideRouteSolutionModifier.java:55-64 | Among several routes one of a single client is never chosen |
| `InRouteSwap.AnyRouteIsChosen` | src/main/java/br/cefetmg/lsi/bimasco/core/solutions/modifiesSolution/VRTWSwapInsideRouteSolutionModifier.java:55-66 | Every other route can be chosen, also behind draws of a single client |
| `InRouteSwap.AnyPairIsChosen` | src/main/java/br/cefetmg/lsi/bimasco/core/solutions/modifiesSolution/VRTWSwapInsideRouteSolutionModifier.java:69-76 | Any two different positions of the range can be drawn, also behind a repeated one |
| `InRouteSwap.RouteOfBounds` | src/main/java/br/cefetmg/lsi/bimasco/core/solutions/modifiesSolution/VRTWSwapInsideRouteSolutionModifier.java:48-67 | The chosen range lies within one route |
| `InRouteSwap.SwapInsideRoute` | src/main/java/br/cefetmg/lsi/bimasco/core/solutions/motion/VRTWSwapPerformsMotion.java:15-22 | Exchanging two clients of one route keeps depots and bags |
| `InRouteSwap.LoadOfBag` | src/main/java/br/cefetmg/lsi/bimasco/core/solutions/VehicleRoutingTimeWindowSolution.java:108 | The load of a route depends on its bag of clients only |
| `InRouteSwap.VRTWSwapInsideRouteSolutionModifier.Modify` | src/main/java/br/cefetmg/lsi/bimasco/core/solutions/modifiesSolution/VRTWSwapInsideRouteSolutionModifier.java:31-46 | The loop over the motions, on a clone |
| `InRouteSwap.VRTWSwapInsideRouteSolutionModifier.ChooseRoute` | src/main/java/br/cefetmg/lsi/bimasco/core/solutions/modifiesSolution/VRTWSwapInsideRouteSolutionModifier.java:48-67 | The loop that redraws while a route of one client comes up |
| `InRouteSwap.VRTWSwapInsideRouteSolutionModifier.SwapInside` | src/main/java/br/cefetmg/lsi/bimasco/core/solutions/modifiesSolution/VRTWSwapInsideRouteSolutionModifier.java:69-79 | Two different positions, the second redrawn until it differs |
| `InRouteSwap.VRTWSwapInsideRouteSolutionModifier.Movement` | src/main/java/br/cefetmg/lsi/bimasco/core/solutions/motion/VRTWSwapPerformsMotion.java:10-23 | A clone in which the two positions have traded their cities; every other position, and the original, stay as they were |
| `DifferentialEvolution.RunNeverWorsens` | src/main/java/br/cefetmg/lsi/bimasco/core/heuristics/metaHeuristics/DE.java:85-150 | Over any number of generations no slot ever worsens, the best solution is a member of the population and never worse than the first initial member, and after a generation it is less than one tolerance above every initial and present member |
| `DifferentialEvolution.RunStaysInBox` | src/main/java/br/cefetmg/lsi/bimasco/core/heuristics/metaHeuristics/DE.java:119-126 | From a population in the box every offspring of every generation is in the box: the branch for one that is not viable is never taken |
| `DifferentialEvolution.OffspringInBox` | src/main/java/br/cefetmg/lsi/bimasco/core/solutions/modifiesSolutionCollections/DEFunctionProblemSumModifiesSolutionCollections.java:45-65 | The clamped step stays in the box whatever is drawn |
| `DifferentialEvolution.BestStaysMember` | src/main/java/br/cefetmg/lsi/bimasco/core/heuristics/metaHeuristics/DE.java:135-139 | The best solution is always one of the next population |
| `DifferentialEvolution.BestAfterMeans` | src/main/java/br/cefetmg/lsi/bimasco/core/heuristics/metaHeuristics/DE.java:135-139 | What the comparison of all slots in turn with the best solution yields |
| `DifferentialEvolution.ResultNearIff` | src/main/java/br/cefetmg/lsi/bimasco/core/heuristics/metaHeuristics/DE.java:78-85 | The result is less than one tolerance above every initial member iff a generation was bred or the first member happened to be that good |
| `DifferentialEvolution.WorseByAnyMargin` | src/main/java/br/cefetmg/lsi/bimasco/core/heuristics/metaHeuristics/DE.java:78-85 | Without a generation it can be worse than another member by any margin |
| `DifferentialEvolution.DE.DeSum` | src/main/java/br/cefetmg/lsi/bimasco/core/solutions/modifiesSolutionCollections/DEFunctionProblemSumModifiesSolutionCollections.java:45-65 | Per coordinate: the differential step where it is drawn and lies in the box, the nearer bound where it does not, the old coordinate elsewhere |
| `DifferentialEvolution.OffspringSteps` | src/main/java/br/cefetmg/lsi/bimasco/core/solutions/modifiesSolutionCollections/DEFunctionProblemSumModifiesSolutionCollections.java:30-65 | An offspring is such a step from the member it may replace and the three drawn, evaluated |
| `DifferentialEvolution.SlotSelects` | src/main/java/br/cefetmg/lsi/bimasco/core/heuristics/metaHeuristics/DE.java:121-133 | A slot takes its offspring iff that is viable, at another point and at least the tolerance better; what it keeps is less than one tolerance above every viable offspring |
| `DifferentialEvolution.RunBeatsOffspring` | src/main/java/br/cefetmg/lsi/bimasco/core/heuristics/metaHeuristics/DE.java:85-150 | The result is less than two tolerances above every viable offspring of any generation, and less than one above each that took its slot or was no better than the member that kept it |
| `DifferentialEvolution.OneToleranceIff` | src/main/java/br/cefetmg/lsi/bimasco/core/heuristics/metaHeuristics/DE.java:127-139 | One tolerance is guaranteed, whatever the best solution was, exactly for an offspring that takes its slot or is no better than the member that keeps it |
| `DifferentialEvolution.OneToleranceFails` | src/main/java/br/cefetmg/lsi/bimasco/core/heuristics/metaHeuristics/DE.java:127-139 | A run whose result is more than one tolerance above an offspring it bred |
| `DifferentialEvolution.DE.NextGeneration` | src/main/java/br/cefetmg/lsi/bimasco/core/heuristics/metaHeuristics/DE.java:85-146 | Both inner loops: offspring from the old population, then selection and the best solution in turn |
| `DifferentialEvolution.DE.RunMetaHeuristic` | src/main/java/br/cefetmg/lsi/bimasco/core/heuristics/metaHeuristics/DE.java:66-151 | Nothing for an empty population, an exception for fewer than three members unless no generation runs, otherwise the best of the run |
| `FunctionProblems.CheckViability` | src/main/java/br/cefetmg/lsi/bimasco/core/solutions/FunctionSolution.java:59-66 | The loop with its flag decides membership of the box |
| `IteratedLocalSearch.LevelSinceImprovement` | src/main/java/br/cefetmg/lsi/bimasco/core/heuristics/metaHeuristics/ILS.java:175-199 | k failing iterations after an improvement the level is init + ((offset + k) mod P) / W, where W is threshold + 1, P is (disturbLevel - init) * W + 1, and the offset is 0 for a threshold of at least 0; constant when disturbLevel <= init |
| `IteratedLocalSearch.LevelFromStart` | src/main/java/br/cefetmg/lsi/bimasco/core/heuristics/metaHeuristics/ILS.java:146-149 | The same from the start of the run |
| `IteratedLocalSearch.LevelClosedForm` | src/main/java/br/cefetmg/lsi/bimasco/core/heuristics/metaHeuristics/ILS.java:185-199 | The closed form from any phase |
| `IteratedLocalSearch.LevelInRange` | src/main/java/br/cefetmg/lsi/bimasco/core/heuristics/metaHeuristics/ILS.java:185-199 | The level never leaves the range between the two settings |
| `IteratedLocalSearch.BestNeverWorsens` | src/main/java/br/cefetmg/lsi/bimasco/core/heuristics/metaHeuristics/ILS.java:173 | The best solution changes only for one at least the tolerance better |
| `IteratedLocalSearch.BetterIsTaken` | src/main/java/br/cefetmg/lsi/bimasco/core/heuristics/metaHeuristics/ILS.java:171-182 | A viable result at least the tolerance better becomes both the best and the current solution; one that is not viable changes neither |
| `IteratedLocalSearch.CurrentIsAtBest` | src/main/java/br/cefetmg/lsi/bimasco/core/heuristics/metaHeuristics/ILS.java:175-182 | The search always goes on from the point of the best solution |
| `IteratedLocalSearch.BestWasFound` | src/main/java/br/cefetmg/lsi/bimasco/core/heuristics/metaHeuristics/ILS.java:167-183 | The best and the current solution are the one at the start or viable results of a local search |
| `IteratedLocalSearch.BestNearEveryFound` | src/main/java/br/cefetmg/lsi/bimasco/core/heuristics/metaHeuristics/ILS.java:171-183 | It stays less than one tolerance above every viable solution found |
| `IteratedLocalSearch.ILS.Run` | src/main/java/br/cefetmg/lsi/bimasco/core/heuristics/metaHeuristics/ILS.java:144-219 | The loop computes the state machine's state, and with the iteration stop its body runs exactly max(0, maxIterations + 1) times |
| `IteratedLocalSearch.MaxIterationsStopCondition.IsSatisfied` | src/main/java/br/cefetmg/lsi/bimasco/core/heuristics/stopCondition/MaxIterationsStopCondition.java:26-45 | Satisfied iff a limit is configured and exceeded |
| `Grasp.Construct` | src/main/java/br/cefetmg/lsi/bimasco/core/heuristics/metaHeuristics/GRASP.java:132-178 | Ends with a full vector inside the box after exactly as many insertions as coordinates; the restricted list is never empty, candidates never run out, the size guard never fires |
| `Grasp.ChoiceIsGreedy` | src/main/java/br/cefetmg/lsi/bimasco/core/heuristics/metaHeuristics/GRASP.java:159-173 | No candidate left is better than the one inserted by more than the tolerance plus the part of the spread that alpha allows |
| `Grasp.AdaptivePoint` | src/main/java/br/cefetmg/lsi/bimasco/core/solutions/FunctionSolution.java:70-88 | The adaptive value is the objective of a full point: coordinates chosen, the candidate, and the initial point from there on; none outside the box |
| `Grasp.RestrictedIff` | src/main/java/br/cefetmg/lsi/bimasco/core/heuristics/metaHeuristics/GRASP.java:159-165 | The restricted list holds exactly the entries within the least value plus alpha times the spread |
| `Grasp.AnyIsDrawn` | src/main/java/br/cefetmg/lsi/bimasco/core/heuristics/metaHeuristics/GRASP.java:170 | Any of its elements can be drawn, by position |
| `Grasp.StepsInsert` | src/main/java/br/cefetmg/lsi/bimasco/core/heuristics/metaHeuristics/GRASP.java:145-175 | After k steps k of the candidates, all in the box, have moved into the vector |
| `Grasp.RestrictedNotEmpty` | src/main/java/br/cefetmg/lsi/bimasco/core/heuristics/metaHeuristics/GRASP.java:150-168 | For alpha >= 0 the restricted list is never empty, although the comparator is no total order |
| `Grasp.NeverEmptyIff` | src/main/java/br/cefetmg/lsi/bimasco/core/heuristics/metaHeuristics/GRASP.java:159-168 | Over all candidates and values the restricted list is never empty iff alpha >= 0 |
| `Grasp.NegativeAlphaRestrictsToNothing` | src/main/java/br/cefetmg/lsi/bimasco/core/heuristics/metaHeuristics/GRASP.java:162-168 | Any negative alpha leaves nothing of two candidates of different values |
| `Grasp.FoldsNearExtrema` | src/main/java/br/cefetmg/lsi/bimasco/core/heuristics/metaHeuristics/GRASP.java:150-154 | Both folds return a value of the list less than one tolerance away from the true extremum, on their side of the first value |
| `Grasp.InsertsUntilFull` | src/main/java/br/cefetmg/lsi/bimasco/core/solutions/FunctionSolution.java:70-88 | A step inserts a candidate iff the vector is not full |
| `Grasp.AddElement` | src/main/java/br/cefetmg/lsi/bimasco/core/Solution.java:138-147 | Appends unless the vector is full |
| `Grasp.GetCandidates` | src/main/java/br/cefetmg/lsi/bimasco/core/problems/candidatesList/FunctionCandidatesList.java:22-34 | Ten candidates per coordinate, all inside the bounds every coordinate shares; throws on an empty range |
| `SolutionCache.CacheIsRight` | src/main/java/br/cefetmg/lsi/bimasco/core/Solution.java:95-207 | After any sequence of creations, copies, mutators and reads a solution that has been evaluated and is not marked as changed holds the objective of its current vector, with at most one computation per batch of changes |
| `SolutionCache.CounterCountsComputations` | src/main/java/br/cefetmg/lsi/bimasco/core/AgentContext.java:24-31 | When every read passes the context, its counter is the number of computations |
| `SolutionCache.ReadIsRight` | src/main/java/br/cefetmg/lsi/bimasco/core/Solution.java:194-198 | A read returns the objective of the current vector once the solution, or the one it was copied from, has been changed or evaluated, and the initial value before |
| `SolutionCache.ViabilityIsRightIff` | src/main/java/br/cefetmg/lsi/bimasco/core/Solution.java:188-192 | Over every history a viability read is right iff the solution is marked as changed, its own viability was computed before, or it is not viable anyway |
| `SolutionCache.CopyLosesViability` | src/main/java/br/cefetmg/lsi/bimasco/core/Solution.java:59-66 | A history that ends with a copy reported as not viable although its vector and its cached value are those of a viable original |
| `SolutionCache.MutatedAt` | src/main/java/br/cefetmg/lsi/bimasco/core/Solution.java:110-186 | What each mutator leaves at each position, and when it throws |
| `SolutionCache.Solution.constructor` | src/main/java/br/cefetmg/lsi/bimasco/core/Solution.java:46-57 | Not marked as changed although nothing has been computed |
| `SolutionCache.Solution.Copy` | src/main/java/br/cefetmg/lsi/bimasco/core/Solution.java:59-66 | The copy constructor |
| `SolutionCache.Solution.SetElement` | src/main/java/br/cefetmg/lsi/bimasco/core/Solution.java:110-121 | Replaces a position and marks the solution, or throws |
| `SolutionCache.Solution.InsertElement` | src/main/java/br/cefetmg/lsi/bimasco/core/Solution.java:123-136 | Needs an empty position; drops the last one |
| `SolutionCache.Solution.AppendElement` | src/main/java/br/cefetmg/lsi/bimasco/core/Solution.java:138-148 | Needs room |
| `SolutionCache.Solution.ClearElement` | src/main/java/br/cefetmg/lsi/bimasco/core/Solution.java:150-161 | Empties a position |
| `SolutionCache.Solution.RemoveElement` | src/main/java/br/cefetmg/lsi/bimasco/core/Solution.java:163-172 | Removes the first occurrence and marks the solution even when there is none |
| `SolutionCache.Solution.RemoveElementShifting` | src/main/java/br/cefetmg/lsi/bimasco/core/Solution.java:174-186 | Closes the gap with an empty last position |
| `SolutionCache.Solution.IsViable` | src/main/java/br/cefetmg/lsi/bimasco/core/Solution.java:188-192 | Recomputes only after a change |
| `SolutionCache.Solution.Evaluate` | src/main/java/br/cefetmg/lsi/bimasco/core/Solution.java:194-198 | Recomputes only after a change, and counts that in the context |

## Left out

- Broadcasts of the global summary to regions and agents, and the agents' side of the protocol: the global summary a region compares itself with is an input of its stimulus.
- Solution requests of agents: they read copies and change no region.
- Cluster membership, leader election, forwarding between nodes, sharding, snapshots and recovery: library plumbing.
- Ask timeouts and joins that throw: a region asked to stop always answers with its release. A region actor without a region would not.
- Persistence, logging and the wire format of messages.
- Sharing of live summary objects between a region and the leader in one process: a message carries a copy.
- The search space summary of a region and the distance computed from it: no branch depends on them.
- Floating-point rounding, the values of benchmark functions, the sigmoid's values (between -1 and 1, and 0 at 0) and square roots.
- Identity of function elements: the source compares the elements of two solutions by identity, the model by value, in `Compare`, the improvement check of the iterated local search and the memory.
- Null elements in a routing vector and cities outside the problem's tables: the tables are functions of the city.
- Stop conditions other than the iteration limit: the number of generations of differential evolution is an input.
- The exception of a negative memory size in the update of the ids: the model keeps no region then.
- Local search, the perturbations, genetic algorithms and the heuristics the project marks as unfinished: their results are inputs or they are not modelled.
- The best solution kept by the agent context: it is the evaluated object itself, which may change later.
- `setSolutionsVector` and the default `adaptiveFunctionValue` of a solution: deprecated, or overridden where it is used.
- Reading the problem data: `FunctionProblem.initialize` gives every coordinate the same bounds, and the model starts from there.
