/** Vehicle routing with time windows: the objective loop, and what it means route by route. City 0 is
    the depot; a solution is the list of cities visited, with the depot between two routes. */
module Routing {

  /** The problem's tables, as functions of the city. */
  datatype Problem = Problem(
    distance: (nat, nat) -> real,
    demand: nat -> real,
    opens: nat -> real,
    closes: nat -> real,
    service: nat -> real,
    truckCapacity: real,
    truckPenaltyWeight: real,
    routesPenaltyWeight: real,
    timePenaltyWeight: real)

  function Late(late: real): real {
    if late > 0.0 then late else 0.0
  }

  function Later(a: real, b: real): real {
    if a < b then b else a
  }

  // ----- the routes of a vector

  /** The clients visited since the last depot. */
  function Open(v: seq<nat>): seq<nat> {
    if v == [] || v[|v| - 1] == 0 then [] else Open(v[..|v| - 1]) + [v[|v| - 1]]
  }

  /** The clients of each route that has returned to the depot. */
  function Closed(v: seq<nat>): seq<seq<nat>> {
    if v == [] then []
    else if v[|v| - 1] == 0 then Closed(v[..|v| - 1]) + [Open(v[..|v| - 1])]
    else Closed(v[..|v| - 1])
  }

  /** The vector with its return to the depot. */
  function Tour(v: seq<nat>): seq<nat> {
    if v == [] || v[|v| - 1] != 0 then v + [0] else v
  }

  function ClientRoutes(v: seq<nat>): seq<seq<nat>> {
    Closed(Tour(v))
  }

  // ----- what one route costs, from the depot through `stops`

  function Previous(stops: seq<nat>): nat {
    if stops == [] then 0 else stops[|stops| - 1]
  }

  function Distance(p: Problem, stops: seq<nat>): real {
    if stops == [] then 0.0
    else Distance(p, stops[..|stops| - 1]) + p.distance(Previous(stops[..|stops| - 1]), stops[|stops| - 1])
  }

  function Load(p: Problem, stops: seq<nat>): real {
    if stops == [] then 0.0 else Load(p, stops[..|stops| - 1]) + p.demand(stops[|stops| - 1])
  }

  /** The time when the last stop has been served: a truck waits for a stop to open. */
  function Clock(p: Problem, stops: seq<nat>): real {
    if stops == [] then 0.0
    else Later(Clock(p, stops[..|stops| - 1]), p.opens(stops[|stops| - 1])) + p.service(stops[|stops| - 1])
  }

  function Lateness(p: Problem, stops: seq<nat>): real {
    if stops == [] then 0.0
    else Lateness(p, stops[..|stops| - 1]) + Late(Clock(p, stops[..|stops| - 1]) - p.closes(stops[|stops| - 1]))
  }

  function Overload(p: Problem, stops: seq<nat>): real {
    Late(Load(p, stops) - p.truckCapacity)
  }

  // ----- sums over all routes

  function TotalDistance(p: Problem, routes: seq<seq<nat>>): real {
    if routes == [] then 0.0
    else TotalDistance(p, routes[..|routes| - 1]) + Distance(p, routes[|routes| - 1] + [0])
  }

  function TruckPenalty(p: Problem, routes: seq<seq<nat>>): real {
    if routes == [] then 0.0
    else TruckPenalty(p, routes[..|routes| - 1]) + Overload(p, routes[|routes| - 1] + [0])
  }

  function TimePenalty(p: Problem, routes: seq<seq<nat>>): real {
    if routes == [] then 0.0
    else TimePenalty(p, routes[..|routes| - 1]) + Lateness(p, routes[|routes| - 1] + [0])
  }

  /** The objective, route by route; a vector without cities is worth 0. */
  function Objective(p: Problem, v: seq<nat>): real {
    if v == [] then 0.0
    else
      var routes := ClientRoutes(v);
      Charged(p, TotalDistance(p, routes), TruckPenalty(p, routes), |routes|, TimePenalty(p, routes))
  }

  function Charged(p: Problem, distance: real, truckPenalty: real, routesCount: nat, timePenalty: real): real {
    distance + (p.truckPenaltyWeight * truckPenalty + p.routesPenaltyWeight * routesCount as real
                + p.timePenaltyWeight * timePenalty)
  }

  // ----- the loop

  /** The variables of the objective loop after the cities `seen`. */
  datatype Totals = Totals(distance: real, truckLoad: real, truckPenalty: real, time: real, timePenalty: real,
                           routesCount: nat)

  /** What the loop's variables mean: sums over the routes completed, and the route under way. */
  function TotalsOf(p: Problem, seen: seq<nat>): Totals {
    var done, open := Closed(seen), Open(seen);
    Totals(TotalDistance(p, done) + Distance(p, open), Load(p, open), TruckPenalty(p, done),
           Clock(p, open), TimePenalty(p, done) + Lateness(p, open), |done|)
  }

  function Visit(p: Problem, t: Totals, city: nat, next: nat): Totals {
    var distance, load := t.distance + p.distance(city, next), t.truckLoad + p.demand(next);
    var timePenalty := if t.time > p.closes(next) then t.timePenalty + (t.time - p.closes(next)) else t.timePenalty;
    var time := (if t.time < p.opens(next) then t.time + (p.opens(next) - t.time) else t.time) + p.service(next);
    if next == 0
    then Totals(distance, 0.0, if load > p.truckCapacity then t.truckPenalty + (load - p.truckCapacity) else t.truckPenalty,
                0.0, timePenalty, t.routesCount + 1)
    else Totals(distance, load, t.truckPenalty, time, timePenalty, t.routesCount)
  }

  lemma OpenEnds(v: seq<nat>)
    ensures Previous(Open(v)) == Previous(v)
  {
  }

  lemma Extended(p: Problem, stops: seq<nat>, next: nat)
    ensures Distance(p, stops + [next]) == Distance(p, stops) + p.distance(Previous(stops), next)
    ensures Load(p, stops + [next]) == Load(p, stops) + p.demand(next)
    ensures Clock(p, stops + [next]) == Later(Clock(p, stops), p.opens(next)) + p.service(next)
    ensures Lateness(p, stops + [next]) == Lateness(p, stops) + Late(Clock(p, stops) - p.closes(next))
  {
    assert (stops + [next])[..|stops|] == stops;
  }

  lemma RouteAdded(p: Problem, routes: seq<seq<nat>>, route: seq<nat>)
    ensures TotalDistance(p, routes + [route]) == TotalDistance(p, routes) + Distance(p, route + [0])
    ensures TruckPenalty(p, routes + [route]) == TruckPenalty(p, routes) + Overload(p, route + [0])
    ensures TimePenalty(p, routes + [route]) == TimePenalty(p, routes) + Lateness(p, route + [0])
  {
    assert (routes + [route])[..|routes|] == routes;
  }

  lemma CityAdded(v: seq<nat>, next: nat)
    ensures Open(v + [next]) == if next == 0 then [] else Open(v) + [next]
    ensures Closed(v + [next]) == if next == 0 then Closed(v) + [Open(v)] else Closed(v)
  {
    assert (v + [next])[..|v|] == v;
  }

  /** One iteration keeps the meaning of the variables. */
  lemma VisitKeepsTotals(p: Problem, seen: seq<nat>, next: nat)
    ensures Visit(p, TotalsOf(p, seen), Previous(seen), next) == TotalsOf(p, seen + [next])
  {
    hide Distance, Load, Clock, Lateness, TotalDistance, TruckPenalty, TimePenalty, Open, Closed;
    OpenEnds(seen);
    CityAdded(seen, next);
    Extended(p, Open(seen), next);
    RouteAdded(p, Closed(seen), Open(seen));
    NothingVisited(p);
  }

  lemma NothingVisited(p: Problem)
    ensures Distance(p, []) == Load(p, []) == Clock(p, []) == Lateness(p, []) == 0.0
    ensures TotalDistance(p, []) == TruckPenalty(p, []) == TimePenalty(p, []) == 0.0
    ensures Open([]) == [] && Closed([]) == []
    ensures TotalsOf(p, []) == Totals(0.0, 0.0, 0.0, 0.0, 0.0, 0)
  {
  }

  /** At the end of the tour no route is under way. */
  lemma TourIsClosed(p: Problem, v: seq<nat>)
    ensures TotalsOf(p, Tour(v)) == Totals(TotalDistance(p, ClientRoutes(v)), 0.0, TruckPenalty(p, ClientRoutes(v)),
                                           0.0, TimePenalty(p, ClientRoutes(v)), |ClientRoutes(v)|)
  {
    assert Open(Tour(v)) == [];
  }

  lemma ChargedSums(p: Problem, distance: real, truckPenalty: real, routesCount: nat, timePenalty: real)
    ensures Charged(p, distance, truckPenalty, routesCount, timePenalty)
         == distance + p.truckPenaltyWeight * truckPenalty + p.routesPenaltyWeight * routesCount as real
            + p.timePenaltyWeight * timePenalty
  {
  }

  // ----- the routes and their costs, by what they mean

  /** The routes one after the other, each followed by its return to the depot. */
  function Spelled(routes: seq<seq<nat>>): seq<nat> {
    if routes == [] then [] else Spelled(routes[..|routes| - 1]) + routes[|routes| - 1] + [0]
  }

  ghost predicate NoDepot(s: seq<nat>) {
    forall i :: 0 <= i < |s| ==> s[i] != 0
  }

  lemma {:induction false} RoutesSpell(v: seq<nat>)
    ensures Spelled(Closed(v)) + Open(v) == v
    ensures NoDepot(Open(v)) && forall k :: 0 <= k < |Closed(v)| ==> NoDepot(Closed(v)[k])
  {
    if v != [] {
      var init, last := v[..|v| - 1], v[|v| - 1];
      RoutesSpell(init);
      assert v == init + [last];
      if last == 0 {
        assert Closed(v)[..|Closed(init)|] == Closed(init);
      }
    }
  }

  /** The routes are the tour cut at its depots: written out with their returns they are the tour, and
      none of them contains a depot. */
  lemma RoutesSpellTour(v: seq<nat>)
    ensures Spelled(ClientRoutes(v)) == Tour(v)
    ensures forall k :: 0 <= k < |ClientRoutes(v)| ==> NoDepot(ClientRoutes(v)[k])
  {
    RoutesSpell(Tour(v));
    assert Open(Tour(v)) == [];
  }

  /** The tour is the vector, with one return to the depot more iff the vector does not end with one. */
  lemma TourReturns(v: seq<nat>)
    ensures Tour(v) != [] && Tour(v)[|Tour(v)| - 1] == 0 && |v| <= |Tour(v)| <= |v| + 1
    ensures forall i :: 0 <= i < |v| ==> Tour(v)[i] == v[i]
    ensures |Tour(v)| == |v| <==> v != [] && v[|v| - 1] == 0
  {
  }

  /** A route of two clients: out to the first, on to the second, back to the depot, waiting where it
      comes too early. */
  lemma RouteOfTwo(p: Problem, a: nat, b: nat)
    ensures Distance(p, [a, b] + [0]) == p.distance(0, a) + p.distance(a, b) + p.distance(b, 0)
    ensures Load(p, [a, b] + [0]) == p.demand(a) + p.demand(b) + p.demand(0)
    ensures var first := (if p.opens(a) > 0.0 then p.opens(a) else 0.0) + p.service(a);
      Clock(p, [a, b]) == (if p.opens(b) > first then p.opens(b) else first) + p.service(b)
  {
    hide Distance, Load, Clock, Lateness;
    NothingVisited(p);
    Extended(p, [], a);
    Extended(p, [a], b);
    Extended(p, [a, b], 0);
    assert [] + [a] == [a] && [a] + [b] == [a, b];
  }

  /** A penalty is never negative, and there is none iff every route's load fits the truck. */
  lemma {:induction false} NoOverloadIff(p: Problem, routes: seq<seq<nat>>)
    ensures TruckPenalty(p, routes) >= 0.0
    ensures TruckPenalty(p, routes) == 0.0 <==>
      forall k :: 0 <= k < |routes| ==> Load(p, routes[k] + [0]) <= p.truckCapacity
  {
    if routes != [] {
      var init, last := routes[..|routes| - 1], |routes| - 1;
      NoOverloadIff(p, init);
      assert forall k :: 0 <= k < last ==> init[k] == routes[k];
      assert routes[last] == routes[|routes| - 1];
    }
  }

  /** What one more route, and one more stop, adds: exactly the excess load, and exactly the delay. */
  lemma PenaltiesAreExcess(p: Problem, routes: seq<seq<nat>>, route: seq<nat>, stops: seq<nat>, next: nat)
    ensures var excess := Load(p, route + [0]) - p.truckCapacity;
      TruckPenalty(p, routes + [route]) - TruckPenalty(p, routes) == if excess <= 0.0 then 0.0 else excess
    ensures var delay := Clock(p, stops) - p.closes(next);
      Lateness(p, stops + [next]) - Lateness(p, stops) == if delay <= 0.0 then 0.0 else delay
  {
    hide Load, Clock, TruckPenalty, Lateness;
    RouteAdded(p, routes, route);
    Extended(p, stops, next);
  }

  /** A stop is reached in time: the truck is not later than its closing. */
  ghost predicate InTime(p: Problem, stops: seq<nat>) {
    forall i :: 0 <= i < |stops| ==> Clock(p, stops[..i]) <= p.closes(stops[i])
  }

  lemma {:induction false} NoLatenessIff(p: Problem, stops: seq<nat>)
    ensures Lateness(p, stops) >= 0.0
    ensures Lateness(p, stops) == 0.0 <==> InTime(p, stops)
  {
    if stops != [] {
      var init, last := stops[..|stops| - 1], |stops| - 1;
      NoLatenessIff(p, init);
      assert forall i :: 0 <= i < last ==> init[..i] == stops[..i] && init[i] == stops[i];
      assert InTime(p, stops) <==> InTime(p, init) && Clock(p, stops[..last]) <= p.closes(stops[last]);
    }
  }

  /** The truck has left no stop before it opened and was served. */
  lemma ClockWaits(p: Problem, stops: seq<nat>, next: nat)
    ensures Clock(p, stops + [next]) >= p.opens(next) + p.service(next)
    ensures Clock(p, stops + [next]) >= Clock(p, stops) + p.service(next)
    ensures Clock(p, stops + [next]) == p.opens(next) + p.service(next)
         || Clock(p, stops + [next]) == Clock(p, stops) + p.service(next)
  {
    Extended(p, stops, next);
  }

  /** There is no time penalty iff every stop of every route is reached in time. */
  lemma {:induction false} NoTimePenaltyIff(p: Problem, routes: seq<seq<nat>>)
    ensures TimePenalty(p, routes) >= 0.0
    ensures TimePenalty(p, routes) == 0.0 <==> forall k :: 0 <= k < |routes| ==> InTime(p, routes[k] + [0])
  {
    hide InTime, Lateness;
    if routes != [] {
      var init, last := routes[..|routes| - 1], |routes| - 1;
      NoTimePenaltyIff(p, init);
      NoLatenessIff(p, routes[last] + [0]);
      assert forall k :: 0 <= k < last ==> init[k] == routes[k];
    }
  }

  // ----- the depots as positions

  function Depots(v: seq<nat>): (d: seq<int>)
    ensures forall k :: 0 <= k < |d| ==> 0 <= d[k] < |v|
  {
    if v == [] then []
    else if v[|v| - 1] == 0 then Depots(v[..|v| - 1]) + [|v| - 1] else Depots(v[..|v| - 1])
  }

  /** The positions that bound the routes; the last one is missing when the vector ends at the depot. */
  function RouteBounds(v: seq<nat>): seq<int> {
    [-1] + Depots(v) + if v != [] && v[|v| - 1] != 0 then [|v|] else []
  }

  ghost predicate Ascending(s: seq<int>) {
    forall j, k :: 0 <= j < k < |s| ==> s[j] < s[k]
  }

  lemma {:induction false} DepotsAreTheZeros(v: seq<nat>)
    ensures Ascending(Depots(v))
    ensures forall i :: 0 <= i < |v| ==> (v[i] == 0 <==> i in Depots(v))
  {
    if v != [] {
      var init := v[..|v| - 1];
      DepotsAreTheZeros(init);
      forall i | 0 <= i < |v|
        ensures v[i] == 0 <==> i in Depots(v)
      {
        if i < |v| - 1 {
          assert init[i] == v[i];
        } else {
          assert i !in Depots(init);
        }
      }
    }
  }

  lemma BoundsAscend(v: seq<nat>)
    ensures Ascending(RouteBounds(v))
    ensures forall k :: 0 <= k < |RouteBounds(v)| ==> -1 <= RouteBounds(v)[k] <= |v|
  {
    DepotsAreTheZeros(v);
  }

  /** The bounds are -1, the positions of the depot, and the length when the vector does not end there. */
  lemma BoundIff(v: seq<nat>, i: int)
    ensures RouteBounds(v)[0] == -1
    ensures i in RouteBounds(v) <==>
      i == -1 || (0 <= i < |v| && v[i] == 0) || (i == |v| > 0 && v[|v| - 1] != 0)
  {
    DepotsAreTheZeros(v);
    var bounds, tail: seq<int> := RouteBounds(v), if v != [] && v[|v| - 1] != 0 then [|v|] else [];
    assert bounds == [-1] + Depots(v) + tail;
    assert i in bounds <==> i in [-1] || i in Depots(v) || i in tail;
  }

  /** Strictly between two neighbouring bounds there are only clients. */
  lemma ClientsBetween(v: seq<nat>, k: nat, i: int)
    requires k + 1 < |RouteBounds(v)| && RouteBounds(v)[k] < i < RouteBounds(v)[k + 1]
    ensures 0 <= i < |v| && v[i] != 0
  {
    BoundsAscend(v);
    DepotsAreTheZeros(v);
    var bounds := RouteBounds(v);
    forall j | 0 <= j < |Depots(v)|
      ensures Depots(v)[j] != i
    {
      assert bounds[j + 1] == Depots(v)[j];
      assert j + 1 <= k ==> bounds[j + 1] <= bounds[k];
    }
  }

  class RoutingSolution {
    const problem: Problem
    var solutionsVector: seq<nat>
    var functionValue: real

    constructor (problem: Problem, solutionsVector: seq<nat>, functionValue: real)
      ensures this.problem == problem && this.solutionsVector == solutionsVector && this.functionValue == functionValue
    {
      this.problem, this.solutionsVector, this.functionValue := problem, solutionsVector, functionValue;
    }

    method Clone() returns (copy: RoutingSolution)
      ensures fresh(copy) && copy.problem == problem
      ensures copy.solutionsVector == solutionsVector && copy.functionValue == functionValue
    {
      copy := new RoutingSolution(problem, solutionsVector, functionValue);
    }

    method SetElement(position: nat, city: nat)
      requires position < |solutionsVector|
      modifies this`solutionsVector
      ensures solutionsVector == old(solutionsVector)[position := city]
    {
      solutionsVector := solutionsVector[position := city];
    }

    method FullRoute() returns (cities: seq<nat>)
      ensures solutionsVector != [] ==> cities == [0] + Tour(solutionsVector)
    {
      cities := [0] + solutionsVector;
      if cities[|cities| - 1] != 0 {
        cities := cities + [0];
        assert solutionsVector != [] ==> cities == [0] + (solutionsVector + [0]);
      }
    }

    /** Adds up leg by leg, with resets at the depot, what the routes cost one by one. */
    method ObjectiveFunction()
      modifies this`functionValue
      ensures functionValue == Objective(problem, solutionsVector)
      ensures solutionsVector == [] ==> functionValue == 0.0
      ensures solutionsVector != [] ==>
        functionValue == TotalDistance(problem, ClientRoutes(solutionsVector))
          + problem.truckPenaltyWeight * TruckPenalty(problem, ClientRoutes(solutionsVector))
          + problem.routesPenaltyWeight * |ClientRoutes(solutionsVector)| as real
          + problem.timePenaltyWeight * TimePenalty(problem, ClientRoutes(solutionsVector))
    {
      hide TotalsOf, Tour, Charged, ClientRoutes;
      functionValue := 0.0;
      if solutionsVector == [] {
        return;
      }
      var truckLoad, truckPenalty, time, timePenalty, routesCount := 0.0, 0.0, 0.0, 0.0, 0;
      var cities := FullRoute();
      ghost var tour := Tour(solutionsVector);
      NothingVisited(problem);
      var i := 0;
      while i < |cities| - 1
        invariant 0 <= i <= |tour| && cities == [0] + tour
        invariant Totals(functionValue, truckLoad, truckPenalty, time, timePenalty, routesCount)
               == TotalsOf(problem, tour[..i])
      {
        var client, nextClient := cities[i], cities[i + 1];
        VisitKeepsTotals(problem, tour[..i], nextClient);
        assert tour[..i] + [nextClient] == tour[..i + 1];
        assert client == Previous(tour[..i]);
        functionValue := functionValue + problem.distance(client, nextClient);
        truckLoad := truckLoad + problem.demand(nextClient);
        if time > problem.closes(nextClient) {
          timePenalty := timePenalty + (time - problem.closes(nextClient));
        }
        if time < problem.opens(nextClient) {
          time := time + (problem.opens(nextClient) - time);
        }
        time := time + problem.service(nextClient);
        if nextClient == 0 {
          if truckLoad > problem.truckCapacity {
            truckPenalty := truckPenalty + (truckLoad - problem.truckCapacity);
          }
          truckLoad, routesCount, time := 0.0, routesCount + 1, 0.0;
        }
        i := i + 1;
      }
      assert tour[..i] == tour;
      TourIsClosed(problem, solutionsVector);
      ChargedSums(problem, functionValue, truckPenalty, routesCount, timePenalty);
      functionValue := Charged(problem, functionValue, truckPenalty, routesCount, timePenalty);
    }

    method GetRoutes() returns (routes: seq<int>)
      ensures routes == RouteBounds(solutionsVector)
    {
      routes := [-1];
      var lastDepot := -1;
      for i := 0 to |solutionsVector|
        invariant routes == [-1] + Depots(solutionsVector[..i])
        invariant -1 <= lastDepot < i
        invariant lastDepot == i - 1 <==> i == 0 || solutionsVector[i - 1] == 0
      {
        assert solutionsVector[..i + 1][..i] == solutionsVector[..i];
        if solutionsVector[i] == 0 {
          routes := routes + [i];
          lastDepot := i;
        }
      }
      assert solutionsVector[..|solutionsVector|] == solutionsVector;
      if lastDepot != |solutionsVector| - 1 {
        routes := routes + [|solutionsVector|];
      }
    }
  }
}
