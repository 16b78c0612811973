/** The messages of the region protocol; the actor that sends one is named by its id. */
module Messages {
  import opened Analyser
  import opened RegionSelector

  /** What a region receives. */
  datatype RegionMessage =
    | CreateRegion(initialSolutions: seq<Solution>)
    | SolutionResponse(solutions: seq<Solution>)
    | MergeRequest(requester: nat)
    | MergeResponse(responder: nat)
    | MergeResult(solutions: seq<Solution>)
    | StopSimulation

  /** What the leader receives from a region. */
  datatype LeaderMessage =
    | RegionRegister(stats: Summary)
    | UpdateRegionSummary(summary: Summary)
    | RegionSplit(lower: seq<Solution>, higher: seq<Solution>)
    | RegionRelease
    | MergeRequested

  /** An outgoing message of the leader, or a message between regions. */
  datatype Envelope = ToRegion(id: nat, message: RegionMessage) | SimulationStopped
}
