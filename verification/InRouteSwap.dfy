/** The in-route swap of a vehicle routing solution: the modifier that draws a route and exchanges two of
    its clients, and what it leaves alone. */
module InRouteSwap {
  import opened Routing

  /** What a draw yields: a value and the draws not used, the exception of an empty range, or no result
      because the draws ran out. */
  datatype Drawn<T> = Drawn(value: T, rest: seq<nat>) | Rejected | Starved

  /** A uniform integer from `lower` to `upper`, both included. */
  function NextInt(lower: int, upper: int, draws: seq<nat>): (r: Drawn<int>)
    ensures r.Drawn? ==> lower <= r.value <= upper && |r.rest| < |draws|
  {
    if lower > upper then Rejected
    else if draws == [] then Starved
    else Drawn(lower + draws[0] % (upper - lower + 1), draws[1..])
  }

  /** The range whose first position is never swapped: a route with its leading bound, except that a
      single route starts at its own first client. */
  function ChosenRoute(bounds: seq<int>, draws: seq<nat>): (r: Drawn<(int, int)>)
    ensures r.Drawn? ==> |r.rest| <= |draws|
    decreases |draws|
  {
    if |bounds| < 2 then Rejected
    else if |bounds| == 2 then Drawn((bounds[0] + 1, bounds[1] - 1), draws)
    else
      match NextInt(0, |bounds| - 2, draws)
      case Rejected => Rejected
      case Starved => Starved
      case Drawn(k, rest) =>
        if bounds[k + 1] - 1 - bounds[k] == 1 then ChosenRoute(bounds, rest)
        else Drawn((bounds[k], bounds[k + 1] - 1), rest)
  }

  function OtherThan(city: int, lower: int, upper: int, draws: seq<nat>): (r: Drawn<int>)
    ensures r.Drawn? ==> lower <= r.value <= upper && r.value != city && |r.rest| <= |draws|
    decreases |draws|
  {
    match NextInt(lower, upper, draws)
    case Rejected => Rejected
    case Starved => Starved
    case Drawn(b, rest) => if b == city then OtherThan(city, lower, upper, rest) else Drawn(b, rest)
  }

  function Swap(v: seq<nat>, a: nat, b: nat): seq<nat>
    requires a < |v| && b < |v|
  {
    v[a := v[b]][b := v[a]]
  }

  /** Two positions of the range after its first one. */
  function ChosenPair(begin: int, end: int, draws: seq<nat>): (r: Drawn<(int, int)>)
    ensures r.Drawn? ==> begin < r.value.0 <= end && begin < r.value.1 <= end && r.value.0 != r.value.1
  {
    match NextInt(begin + 1, end, draws)
    case Rejected => Rejected
    case Starved => Starved
    case Drawn(a, rest) =>
      match OtherThan(a, begin + 1, end, rest)
      case Rejected => Rejected
      case Starved => Starved
      case Drawn(b, others) => Drawn((a, b), others)
  }

  /** One motion. */
  function Moved(v: seq<nat>, draws: seq<nat>): (r: Drawn<seq<nat>>)
    ensures r.Drawn? ==> |r.value| == |v|
  {
    match ChosenRoute(RouteBounds(v), draws)
    case Rejected => Rejected
    case Starved => Starved
    case Drawn(route, rest) =>
      match ChosenPair(route.0, route.1, rest)
      case Rejected => Rejected
      case Starved => Starved
      case Drawn(pair, others) =>
        ChosenInside(v, draws);
        Drawn(Swap(v, pair.0, pair.1), others)
  }

  function Modified(v: seq<nat>, motions: int, draws: seq<nat>): (r: Drawn<seq<nat>>)
    decreases motions
  {
    if motions <= 0 then Drawn(v, draws)
    else
      match Modified(v, motions - 1, draws)
      case Rejected => Rejected
      case Starved => Starved
      case Drawn(w, rest) => Moved(w, rest)
  }

  /** The range lies within one route: none of its positions after the first is a depot. */
  ghost predicate InsideRoute(v: seq<nat>, begin: int, end: int) {
    -1 <= begin && end < |v| && forall i :: begin < i <= end ==> v[i] != 0
  }

  lemma {:induction false} RouteOfBounds(v: seq<nat>, draws: seq<nat>)
    ensures ChosenRoute(RouteBounds(v), draws).Drawn? ==>
      var route := ChosenRoute(RouteBounds(v), draws).value; InsideRoute(v, route.0, route.1)
    decreases |draws|
  {
    hide RouteBounds;
    var bounds := RouteBounds(v);
    BoundsAscend(v);
    if |bounds| == 2 {
      RangeInside(v, 0, bounds[0] + 1, bounds[1] - 1);
    } else if |bounds| > 2 && draws != [] {
      var k := NextInt(0, |bounds| - 2, draws).value;
      RangeInside(v, k, bounds[k], bounds[k + 1] - 1);
      RouteOfBounds(v, draws[1..]);
    }
  }

  lemma RangeInside(v: seq<nat>, k: nat, begin: int, end: int)
    requires k + 1 < |RouteBounds(v)| && RouteBounds(v)[k] <= begin && end == RouteBounds(v)[k + 1] - 1
    ensures InsideRoute(v, begin, end)
  {
    BoundsAscend(v);
    forall i | begin < i <= end
      ensures v[i] != 0
    {
      ClientsBetween(v, k, i);
    }
  }

  lemma ChosenInside(v: seq<nat>, draws: seq<nat>)
    ensures ChosenRoute(RouteBounds(v), draws).Drawn? ==>
      var route := ChosenRoute(RouteBounds(v), draws).value;
      -1 <= route.0 && route.1 < |v|
  {
    RouteOfBounds(v, draws);
  }

  // ----- what a motion does

  /** The two positions have traded their cities, and every other position holds what it held. */
  ghost predicate Exchanged(v: seq<nat>, w: seq<nat>, a: nat, b: nat) {
    && |w| == |v| && a < |v| && b < |v|
    && w[a] == v[b] && w[b] == v[a]
    && forall i :: 0 <= i < |v| && i != a && i != b ==> w[i] == v[i]
  }

  /** Two different positions with clients only from one to the other. */
  ghost predicate OnOneRoute(v: seq<nat>, a: nat, b: nat) {
    a != b && a < |v| && b < |v| && forall i :: (a <= i <= b || b <= i <= a) ==> v[i] != 0
  }

  ghost predicate IsMotion(v: seq<nat>, w: seq<nat>) {
    exists a: nat, b: nat :: OnOneRoute(v, a, b) && Exchanged(v, w, a, b)
  }

  /** Clients of different number leave their exchange visible at exactly their two positions. */
  lemma ExchangeChanges(v: seq<nat>, w: seq<nat>, a: nat, b: nat)
    requires Exchanged(v, w, a, b) && v[a] != v[b]
    ensures forall i :: 0 <= i < |v| ==> (w[i] != v[i] <==> i == a || i == b)
  {
  }

  /** A motion that returns has exchanged two different clients of one route. */
  lemma MovedExchanges(v: seq<nat>, draws: seq<nat>)
    ensures Moved(v, draws).Drawn? ==> IsMotion(v, Moved(v, draws).value)
  {
    RouteOfBounds(v, draws);
    if Moved(v, draws).Drawn? {
      var route := ChosenRoute(RouteBounds(v), draws);
      var pair := ChosenPair(route.value.0, route.value.1, route.rest).value;
      var a: nat, b: nat := pair.0, pair.1;
      assert OnOneRoute(v, a, b) && Exchanged(v, Moved(v, draws).value, a, b);
    }
  }

  /** A single route keeps its first client in place. */
  lemma FirstClientStays(v: seq<nat>, draws: seq<nat>)
    requires |RouteBounds(v)| == 2 && Moved(v, draws).Drawn?
    ensures |v| > 0 && |Moved(v, draws).value| == |v| && Moved(v, draws).value[0] == v[0]
  {
    RouteOfBounds(v, draws);
  }

  /** A modification that returns is a chain of exactly as many motions as were asked for. */
  lemma {:induction false} ModifiedIsChain(v: seq<nat>, motions: nat, draws: seq<nat>) returns (chain: seq<seq<nat>>)
    requires Modified(v, motions, draws).Drawn?
    ensures |chain| == motions + 1 && chain[0] == v && chain[motions] == Modified(v, motions, draws).value
    ensures forall k :: 0 <= k < motions ==> IsMotion(chain[k], chain[k + 1])
  {
    hide Moved, IsMotion;
    if motions == 0 {
      chain := [v];
    } else {
      var before := Modified(v, motions - 1, draws);
      var shorter := ModifiedIsChain(v, motions - 1, draws);
      MovedExchanges(before.value, before.rest);
      chain := shorter + [Moved(before.value, before.rest).value];
    }
  }

  // ----- what a motion leaves alone

  ghost predicate SameBags(x: seq<seq<nat>>, y: seq<seq<nat>>) {
    |x| == |y| && forall k :: 0 <= k < |x| ==> multiset(x[k]) == multiset(y[k])
  }

  ghost predicate SameDepots(v: seq<nat>, w: seq<nat>) {
    |v| == |w| && forall i :: 0 <= i < |v| ==> (v[i] == 0 <==> w[i] == 0)
  }

  /** The vectors visit the depot at the same positions, and the same clients on each route. */
  ghost predicate Rearranged(v: seq<nat>, w: seq<nat>) {
    && SameDepots(v, w)
    && SameBags(Closed(v), Closed(w))
    && multiset(Open(v)) == multiset(Open(w))
  }

  lemma DepotsNext(v: seq<nat>, w: seq<nat>, x: nat, y: nat)
    requires SameDepots(v, w) && (x == 0 <==> y == 0)
    ensures SameDepots(v + [x], w + [y])
  {
  }

  lemma BagsNext(x: seq<seq<nat>>, y: seq<seq<nat>>, r: seq<nat>, s: seq<nat>)
    requires SameBags(x, y) && multiset(r) == multiset(s)
    ensures SameBags(x + [r], y + [s])
  {
  }

  lemma RearrangedNext(v: seq<nat>, w: seq<nat>, x: nat)
    requires Rearranged(v, w)
    ensures Rearranged(v + [x], w + [x])
  {
    hide Open, Closed, SameDepots, SameBags;
    CityAdded(v, x);
    CityAdded(w, x);
    DepotsNext(v, w, x, x);
    BagsNext(Closed(v), Closed(w), Open(v), Open(w));
  }

  lemma {:induction false} RearrangedSuffix(v: seq<nat>, w: seq<nat>, s: seq<nat>)
    requires Rearranged(v, w)
    ensures Rearranged(v + s, w + s)
  {
    hide Rearranged;
    if s == [] {
      assert v + s == v && w + s == w;
    } else {
      var init, last := s[..|s| - 1], s[|s| - 1];
      RearrangedSuffix(v, w, init);
      RearrangedNext(v + init, w + init, last);
      assert v + s == v + init + [last] && w + s == w + init + [last];
    }
  }

  ghost predicate AllClients(s: seq<nat>) {
    forall i :: 0 <= i < |s| ==> s[i] != 0
  }

  lemma {:induction false} ClientsStayOpen(v: seq<nat>, s: seq<nat>)
    requires AllClients(s)
    ensures Open(v + s) == Open(v) + s && Closed(v + s) == Closed(v)
  {
    hide Open, Closed;
    if s == [] {
      assert v + s == v && Open(v) + s == Open(v);
    } else {
      var init, last := s[..|s| - 1], s[|s| - 1];
      ClientsStayOpen(v, init);
      CityAdded(v + init, last);
      assert v + s == v + init + [last];
      assert Open(v) + s == Open(v) + init + [last];
    }
  }

  /** Clients of one route in another order. */
  lemma SegmentRearranged(v: seq<nat>, s: seq<nat>, t: seq<nat>, rest: seq<nat>)
    requires AllClients(s) && AllClients(t) && multiset(s) == multiset(t)
    ensures Rearranged(v + s + rest, v + t + rest)
  {
    hide Open, Closed;
    ClientsStayOpen(v, s);
    ClientsStayOpen(v, t);
    assert |s| == |multiset(s)| == |multiset(t)| == |t|;
    assert multiset(Open(v) + s) == multiset(Open(v)) + multiset(s);
    assert multiset(Open(v) + t) == multiset(Open(v)) + multiset(t);
    assert SameDepots(v + s, v + t);
    RearrangedSuffix(v + s, v + t, rest);
  }

  lemma SwapKeepsBag(s: seq<nat>, i: nat, j: nat)
    requires i < |s| && j < |s|
    ensures multiset(Swap(s, i, j)) == multiset(s)
  {
  }

  lemma SwapInSegment(head: seq<nat>, s: seq<nat>, rest: seq<nat>, i: nat, j: nat)
    requires i < |s| && j < |s|
    ensures Swap(head + s + rest, |head| + i, |head| + j) == head + Swap(s, i, j) + rest
  {
  }

  lemma SwapInsideRoute(v: seq<nat>, begin: int, end: int, a: int, b: int)
    requires InsideRoute(v, begin, end) && begin < a <= end && begin < b <= end
    ensures Rearranged(v, Swap(v, a, b))
  {
    hide Rearranged, Swap;
    var head, s, rest := v[..begin + 1], v[begin + 1..end + 1], v[end + 1..];
    var i, j := a - begin - 1, b - begin - 1;
    assert v == head + s + rest;
    SwapInSegment(head, s, rest, i, j);
    SwapKeepsBag(s, i, j);
    SwapKeepsClients(s, i, j);
    SegmentRearranged(head, s, Swap(s, i, j), rest);
  }

  lemma SwapKeepsClients(s: seq<nat>, i: nat, j: nat)
    requires i < |s| && j < |s| && AllClients(s)
    ensures AllClients(Swap(s, i, j))
  {
  }

  lemma MovedRearranges(v: seq<nat>, draws: seq<nat>)
    ensures Moved(v, draws).Drawn? ==> Rearranged(v, Moved(v, draws).value)
  {
    hide Rearranged;
    RouteOfBounds(v, draws);
    if Moved(v, draws).Drawn? {
      var route := ChosenRoute(RouteBounds(v), draws);
      var pair := ChosenPair(route.value.0, route.value.1, route.rest).value;
      SwapInsideRoute(v, route.value.0, route.value.1, pair.0, pair.1);
    }
  }

  lemma RearrangedTrans(u: seq<nat>, v: seq<nat>, w: seq<nat>)
    requires Rearranged(u, v) && Rearranged(v, w)
    ensures Rearranged(u, w)
  {
  }

  lemma {:induction false} ModifiedRearranges(v: seq<nat>, motions: int, draws: seq<nat>)
    ensures Modified(v, motions, draws).Drawn? ==> Rearranged(v, Modified(v, motions, draws).value)
    decreases motions
  {
    hide Rearranged, Moved;
    if motions <= 0 {
      RearrangedSelf(v);
    } else {
      var before := Modified(v, motions - 1, draws);
      if before.Drawn? {
        ModifiedRearranges(v, motions - 1, draws);
        MovedRearranges(before.value, before.rest);
        if Moved(before.value, before.rest).Drawn? {
          RearrangedTrans(v, before.value, Moved(before.value, before.rest).value);
        }
      }
    }
  }

  lemma RearrangedSelf(v: seq<nat>)
    ensures Rearranged(v, v)
  {
  }

  // ----- what that means for the objective

  lemma CancelOne(a: multiset<nat>, b: multiset<nat>, x: nat)
    requires a + multiset{x} == b + multiset{x}
    ensures a == b
  {
    assert a == a + multiset{x} - multiset{x};
  }

  lemma BagOfMiddle(a: seq<nat>, x: nat, b: seq<nat>)
    ensures multiset(a + [x] + b) == multiset(a + b) + multiset{x}
  {
  }

  /** Taking the last city of `s` out of a reordering of it. */
  lemma BagWithout(s: seq<nat>, t: seq<nat>) returns (k: nat)
    requires s != [] && multiset(s) == multiset(t)
    ensures k < |t| && t[k] == s[|s| - 1]
    ensures multiset(t[..k] + t[k + 1..]) == multiset(s[..|s| - 1])
  {
    var init, last := s[..|s| - 1], s[|s| - 1];
    assert s == init + [last] && last in multiset(t);
    k :| 0 <= k < |t| && t[k] == last;
    BagOfMiddle(t[..k], last, t[k + 1..]);
    assert t == t[..k] + [last] + t[k + 1..];
    assert multiset(s) == multiset(init) + multiset{last};
    CancelOne(multiset(t[..k] + t[k + 1..]), multiset(init), last);
  }

  lemma {:induction false} LoadOfBag(p: Problem, s: seq<nat>, t: seq<nat>)
    requires multiset(s) == multiset(t)
    ensures Load(p, s) == Load(p, t)
  {
    assert |s| == |multiset(s)| == |multiset(t)| == |t|;
    if s != [] {
      var k := BagWithout(s, t);
      LoadOfBag(p, s[..|s| - 1], t[..k] + t[k + 1..]);
      LoadSplit(p, t[..k], t[k], t[k + 1..]);
      assert t == t[..k] + [t[k]] + t[k + 1..];
    }
  }

  lemma LoadSplit(p: Problem, a: seq<nat>, x: nat, b: seq<nat>)
    ensures Load(p, a + [x] + b) == Load(p, a + b) + p.demand(x)
  {
    hide Load;
    LoadConcat(p, a + [x], b);
    Extended(p, a, x);
    LoadConcat(p, a, b);
  }

  lemma {:induction false} LoadConcat(p: Problem, a: seq<nat>, b: seq<nat>)
    ensures Load(p, a + b) == Load(p, a) + Load(p, b)
  {
    if b == [] {
      assert a + b == a;
    } else {
      LoadConcat(p, a, b[..|b| - 1]);
      assert a + b == a + b[..|b| - 1] + [b[|b| - 1]];
      Extended(p, a + b[..|b| - 1], b[|b| - 1]);
    }
  }

  lemma {:induction false} SameBagsSamePenalty(p: Problem, x: seq<seq<nat>>, y: seq<seq<nat>>)
    requires SameBags(x, y)
    ensures TruckPenalty(p, x) == TruckPenalty(p, y)
  {
    if x != [] {
      var last := |x| - 1;
      SameBagsSamePenalty(p, x[..last], y[..last]);
      LoadOfBag(p, x[last] + [0], y[last] + [0]);
    }
  }

  lemma SameClientRoutes(v: seq<nat>, w: seq<nat>)
    requires Rearranged(v, w)
    ensures SameBags(ClientRoutes(v), ClientRoutes(w))
  {
    if v == [] || v[|v| - 1] != 0 {
      RearrangedNext(v, w, 0);
    }
  }

  /** Whenever the modifier returns, after any number of motions, the depot positions and the clients of
      each route are those of the original solution, so the overload penalty and the number of routes
      are unchanged and the objective differs by distance and lateness only. */
  lemma ModifiedKeepsRoutes(p: Problem, v: seq<nat>, motions: int, draws: seq<nat>)
    requires Modified(v, motions, draws).Drawn?
    ensures var w := Modified(v, motions, draws).value;
      && SameDepots(v, w) && SameBags(ClientRoutes(v), ClientRoutes(w))
      && |ClientRoutes(w)| == |ClientRoutes(v)|
      && TruckPenalty(p, ClientRoutes(w)) == TruckPenalty(p, ClientRoutes(v))
      && (v != [] ==>
            Objective(p, w) - Objective(p, v)
            == TotalDistance(p, ClientRoutes(w)) - TotalDistance(p, ClientRoutes(v))
               + p.timePenaltyWeight * (TimePenalty(p, ClientRoutes(w)) - TimePenalty(p, ClientRoutes(v))))
  {
    hide Open, Closed, TotalDistance, TruckPenalty, TimePenalty, Modified, ClientRoutes;
    var w := Modified(v, motions, draws).value;
    ModifiedRearranges(v, motions, draws);
    SameClientRoutes(v, w);
    SameBagsSamePenalty(p, ClientRoutes(v), ClientRoutes(w));
    ChargeDifference(p, TotalDistance(p, ClientRoutes(v)), TotalDistance(p, ClientRoutes(w)),
                     TruckPenalty(p, ClientRoutes(v)), |ClientRoutes(v)|,
                     TimePenalty(p, ClientRoutes(v)), TimePenalty(p, ClientRoutes(w)));
  }

  lemma ChargeDifference(p: Problem, d: real, e: real, truckPenalty: real, routesCount: nat, s: real, t: real)
    ensures Charged(p, e, truckPenalty, routesCount, t) - Charged(p, d, truckPenalty, routesCount, s)
         == e - d + p.timePenaltyWeight * (t - s)
  {
  }

  // ----- when a motion can return at all

  /** The only route has three clients, or one of several has two. */
  predicate CanMove(v: seq<nat>) {
    var bounds := RouteBounds(v);
    if |bounds| == 2 then bounds[1] >= 3
    else exists k :: 0 <= k < |bounds| - 1 && bounds[k + 1] - bounds[k] >= 3
  }

  lemma SameTwice(lower: int, draws: seq<nat>)
    ensures NextInt(lower, lower, draws).Drawn? ==> NextInt(lower, lower, draws).value == lower
    ensures !OtherThan(lower, lower, lower, draws).Drawn?
    decreases |draws|
  {
    if draws != [] {
      SameTwice(lower, draws[1..]);
    }
  }

  lemma NarrowPair(begin: int, end: int, draws: seq<nat>)
    requires end - begin <= 1
    ensures !ChosenPair(begin, end, draws).Drawn?
  {
    if end == begin + 1 && draws != [] {
      SameTwice(end, draws[1..]);
    }
  }

  lemma {:induction false} WideRoute(bounds: seq<int>, draws: seq<nat>)
    requires |bounds| > 2 && Ascending(bounds) && ChosenRoute(bounds, draws).Drawn?
    requires forall k :: 0 <= k < |bounds| - 1 ==> bounds[k + 1] - bounds[k] < 3
    ensures var route := ChosenRoute(bounds, draws).value; route.1 - route.0 <= 1
    decreases |draws|
  {
    if draws != [] {
      var k := NextInt(0, |bounds| - 2, draws).value;
      if bounds[k + 1] - 1 - bounds[k] == 1 {
        WideRoute(bounds, draws[1..]);
      }
    }
  }

  lemma {:induction false} SameDepotPositions(v: seq<nat>, w: seq<nat>)
    requires SameDepots(v, w)
    ensures Depots(v) == Depots(w)
  {
    if v != [] {
      var last := |v| - 1;
      assert v[last] == 0 <==> w[last] == 0;
      SameDepotPositions(v[..last], w[..last]);
    }
  }

  /** A rearrangement can move whenever the original can. */
  lemma MovableTogether(v: seq<nat>, w: seq<nat>)
    requires Rearranged(v, w)
    ensures RouteBounds(v) == RouteBounds(w) && (CanMove(v) <==> CanMove(w))
  {
    SameDepotPositions(v, w);
    if v != [] {
      assert v[|v| - 1] == 0 <==> w[|w| - 1] == 0;
    }
  }

  // A modification that returns does so with further draws behind its own, and leaves them over.

  lemma NextIntMore(lower: int, upper: int, draws: seq<nat>, more: seq<nat>)
    requires NextInt(lower, upper, draws).Drawn?
    ensures var r := NextInt(lower, upper, draws); NextInt(lower, upper, draws + more) == Drawn(r.value, r.rest + more)
  {
    assert (draws + more)[1..] == draws[1..] + more;
  }

  lemma {:induction false} ChosenRouteMore(bounds: seq<int>, draws: seq<nat>, more: seq<nat>)
    requires ChosenRoute(bounds, draws).Drawn?
    ensures var r := ChosenRoute(bounds, draws); ChosenRoute(bounds, draws + more) == Drawn(r.value, r.rest + more)
    decreases |draws|
  {
    if |bounds| > 2 {
      NextIntMore(0, |bounds| - 2, draws, more);
      var k := NextInt(0, |bounds| - 2, draws);
      if bounds[k.value + 1] - 1 - bounds[k.value] == 1 {
        ChosenRouteMore(bounds, k.rest, more);
      }
    }
  }

  lemma {:induction false} OtherThanMore(city: int, lower: int, upper: int, draws: seq<nat>, more: seq<nat>)
    requires OtherThan(city, lower, upper, draws).Drawn?
    ensures var r := OtherThan(city, lower, upper, draws);
      OtherThan(city, lower, upper, draws + more) == Drawn(r.value, r.rest + more)
    decreases |draws|
  {
    NextIntMore(lower, upper, draws, more);
    var b := NextInt(lower, upper, draws);
    if b.value == city {
      OtherThanMore(city, lower, upper, b.rest, more);
    }
  }

  lemma ChosenPairMore(begin: int, end: int, draws: seq<nat>, more: seq<nat>)
    requires ChosenPair(begin, end, draws).Drawn?
    ensures var r := ChosenPair(begin, end, draws); ChosenPair(begin, end, draws + more) == Drawn(r.value, r.rest + more)
  {
    hide NextInt, OtherThan;
    NextIntMore(begin + 1, end, draws, more);
    var a := NextInt(begin + 1, end, draws);
    OtherThanMore(a.value, begin + 1, end, a.rest, more);
  }

  lemma MovedMore(v: seq<nat>, draws: seq<nat>, more: seq<nat>)
    requires Moved(v, draws).Drawn?
    ensures var r := Moved(v, draws); Moved(v, draws + more) == Drawn(r.value, r.rest + more)
  {
    hide RouteBounds, ChosenRoute, ChosenPair, Swap;
    ChosenRouteMore(RouteBounds(v), draws, more);
    var route := ChosenRoute(RouteBounds(v), draws);
    ChosenPairMore(route.value.0, route.value.1, route.rest, more);
  }

  lemma {:induction false} ModifiedMore(v: seq<nat>, motions: int, draws: seq<nat>, more: seq<nat>)
    requires Modified(v, motions, draws).Drawn?
    ensures var r := Modified(v, motions, draws); Modified(v, motions, draws + more) == Drawn(r.value, r.rest + more)
    decreases motions
  {
    hide Moved;
    if motions > 0 {
      var before := Modified(v, motions - 1, draws);
      ModifiedMore(v, motions - 1, draws, more);
      MovedMore(before.value, before.rest, more);
    }
  }

  /** Draws for a motion that uses all of them. */
  lemma OneMotion(v: seq<nat>) returns (draws: seq<nat>)
    requires CanMove(v)
    ensures Moved(v, draws).Drawn? && Moved(v, draws).rest == []
  {
    hide ChosenRoute, ChosenPair, Swap;
    BoundsAscend(v);
    draws := WinningDraws(RouteBounds(v));
  }

  /** Draws for any number of motions. */
  lemma {:induction false} AllMotions(v: seq<nat>, motions: nat) returns (draws: seq<nat>)
    requires CanMove(v)
    ensures Modified(v, motions, draws).Drawn? && Modified(v, motions, draws).rest == []
  {
    hide Moved, CanMove, Rearranged;
    if motions == 0 {
      draws := [];
    } else {
      var before := AllMotions(v, motions - 1);
      var w := Modified(v, motions - 1, before).value;
      ModifiedRearranges(v, motions - 1, before);
      MovableTogether(v, w);
      var next := OneMotion(w);
      ModifiedMore(v, motions - 1, before, next);
      draws := before + next;
      assert [] + next == next;
    }
  }

  /** Some draws let the modifier return, for any positive number of motions, iff the solution can move;
      two clients on the only route, or one on each of several, keep it drawing forever or make it throw. */
  lemma ReturnsIffCanMove(v: seq<nat>, motions: int)
    requires motions > 0
    ensures (exists draws :: Modified(v, motions, draws).Drawn?) <==> CanMove(v)
  {
    hide Moved, CanMove;
    if CanMove(v) {
      var draws := AllMotions(v, motions);
    } else {
      forall draws
        ensures !Modified(v, motions, draws).Drawn?
      {
        var before := Modified(v, motions - 1, draws);
        if before.Drawn? {
          ModifiedRearranges(v, motions - 1, draws);
          MovableTogether(v, before.value);
          CannotMove(before.value, before.rest);
        }
      }
    }
  }

  lemma CannotMove(v: seq<nat>, draws: seq<nat>)
    requires !CanMove(v)
    ensures !Moved(v, draws).Drawn?
  {
    hide ChosenPair;
    var bounds := RouteBounds(v);
    BoundsAscend(v);
    var route := ChosenRoute(bounds, draws);
    if route.Drawn? {
      if |bounds| > 2 {
        WideRoute(bounds, draws);
      }
      NarrowPair(route.value.0, route.value.1, route.rest);
    }
  }

  lemma WinningDraws(bounds: seq<int>) returns (draws: seq<nat>)
    requires Ascending(bounds) && |bounds| >= 2 && bounds[0] == -1
    requires if |bounds| == 2 then bounds[1] >= 3 else exists k :: 0 <= k < |bounds| - 1 && bounds[k + 1] - bounds[k] >= 3
    ensures var route := ChosenRoute(bounds, draws);
      route.Drawn? && ChosenPair(route.value.0, route.value.1, route.rest).Drawn?
      && ChosenPair(route.value.0, route.value.1, route.rest).rest == []
  {
    hide ChosenPair;
    if |bounds| == 2 {
      draws := [0, 1];
      PairOfTwo(0, bounds[1] - 1);
    } else {
      var k :| 0 <= k < |bounds| - 1 && bounds[k + 1] - bounds[k] >= 3;
      draws := [k, 0, 1];
      assert draws[1..] == [0, 1];
      BelowModulus(k, |bounds| - 1);
      assert NextInt(0, |bounds| - 2, draws) == Drawn(k, [0, 1]);
      PairOfTwo(bounds[k], bounds[k + 1] - 1);
    }
  }

  lemma BelowModulus(k: nat, n: nat)
    requires k < n
    ensures k % n == k
  {
  }

  lemma PairOfTwo(begin: int, end: int)
    requires end - begin >= 2
    ensures ChosenPair(begin, end, [0, 1]).Drawn? && ChosenPair(begin, end, [0, 1]).rest == []
  {
    var n := end - begin;
    BelowModulus(0, n);
    BelowModulus(1, n);
    assert NextInt(begin + 1, end, [0, 1]) == Drawn(begin + 1, [1]);
    assert NextInt(begin + 1, end, [1]) == Drawn(begin + 2, []);
  }

  // ----- what the draws can choose

  /** Among several routes one of a single client is never chosen. */
  lemma {:induction false} SingleClientNotChosen(bounds: seq<int>, draws: seq<nat>)
    requires |bounds| > 2 && ChosenRoute(bounds, draws).Drawn?
    ensures var route := ChosenRoute(bounds, draws).value;
      && route.1 - route.0 != 1
      && exists k :: 0 <= k < |bounds| - 1 && route == (bounds[k], bounds[k + 1] - 1)
    decreases |draws|
  {
    var k := NextInt(0, |bounds| - 2, draws);
    if bounds[k.value + 1] - 1 - bounds[k.value] == 1 {
      SingleClientNotChosen(bounds, k.rest);
    }
  }

  /** Every other route can be chosen, at once, whatever was drawn for routes of a single client before;
      the only route of a vector always is, from behind its first client. */
  lemma AnyRouteIsChosen(bounds: seq<int>, single: nat, k: nat, draws: seq<nat>)
    requires |bounds| > 2 && k < |bounds| - 1 && bounds[k + 1] - 1 - bounds[k] != 1
    requires single < |bounds| - 1 && bounds[single + 1] - 1 - bounds[single] == 1
    ensures ChosenRoute(bounds, [k] + draws) == Drawn((bounds[k], bounds[k + 1] - 1), draws)
    ensures ChosenRoute(bounds, [single, k] + draws) == Drawn((bounds[k], bounds[k + 1] - 1), draws)
    ensures ChosenRoute(bounds[..2], draws) == Drawn((bounds[0] + 1, bounds[1] - 1), draws)
  {
    var n := |bounds| - 1;
    BelowModulus(k, n);
    BelowModulus(single, n);
    assert ([k] + draws)[1..] == draws && ([single, k] + draws)[1..] == [k] + draws;
  }

  /** Any two different positions of the range can be drawn, and a repeated draw is drawn again. */
  lemma AnyPairIsChosen(begin: int, end: int, a: int, b: int)
    requires begin < a <= end && begin < b <= end && a != b
    ensures ChosenPair(begin, end, [a - begin - 1, b - begin - 1]) == Drawn((a, b), [])
    ensures ChosenPair(begin, end, [a - begin - 1, a - begin - 1, b - begin - 1]) == Drawn((a, b), [])
  {
    var i: nat, j: nat, n: nat := a - begin - 1, b - begin - 1, end - begin;
    BelowModulus(i, n);
    BelowModulus(j, n);
    assert [i, j][1..] == [j] && [j][1..] == [] && [i, i, j][1..] == [i, j];
    assert NextInt(begin + 1, end, [i, j]) == Drawn(a, [j]) && NextInt(begin + 1, end, [j]) == Drawn(b, []);
    assert NextInt(begin + 1, end, [i, i, j]) == Drawn(a, [i, j]);
    assert OtherThan(a, begin + 1, end, [j]) == Drawn(b, []);
    assert OtherThan(a, begin + 1, end, [i, j]) == Drawn(b, []);
  }

  // ----- the modifier, with its loops

  class VRTWSwapInsideRouteSolutionModifier {

    /** The draws not used yet. */
    var draws: seq<nat>

    constructor (draws: seq<nat>)
      ensures this.draws == draws
    {
      this.draws := draws;
    }

    /** One call of the random source: `Drawn`, `Rejected` or `Starved`. */
    method Draw(lower: int, upper: int) returns (r: Drawn<int>)
      modifies this
      ensures r == NextInt(lower, upper, old(draws))
      ensures draws == if r.Drawn? then r.rest else old(draws)
    {
      r := NextInt(lower, upper, draws);
      if r.Drawn? {
        draws := r.rest;
      }
    }

    method ChooseRoute(solution: RoutingSolution) returns (r: Drawn<(int, int)>)
      modifies this
      ensures r == ChosenRoute(RouteBounds(solution.solutionsVector), old(draws))
      ensures r.Drawn? ==> draws == r.rest
    {
      var routes := solution.GetRoutes();
      if |routes| < 2 {
        return Rejected;
      }
      if |routes| == 2 {
        return Drawn((routes[0] + 1, routes[1] - 1), draws);
      }
      while true
        invariant ChosenRoute(routes, draws) == ChosenRoute(routes, old(draws))
        decreases |draws|
      {
        var k := Draw(0, |routes| - 2);
        match k {
          case Rejected => return Rejected;
          case Starved => return Starved;
          case Drawn(routeIndex, _) =>
            var routeBegin, routeEnd := routes[routeIndex], routes[routeIndex + 1] - 1;
            if routeEnd - routeBegin != 1 {
              return Drawn((routeBegin, routeEnd), draws);
            }
        }
      }
    }

    /** Clones the solution and exchanges two positions. */
    method Movement(solution: RoutingSolution, pos1: nat, pos2: nat) returns (moved: RoutingSolution)
      requires pos1 < |solution.solutionsVector| && pos2 < |solution.solutionsVector|
      ensures fresh(moved) && moved.problem == solution.problem
      ensures moved.solutionsVector == Swap(solution.solutionsVector, pos1, pos2)
      ensures |moved.solutionsVector| == |solution.solutionsVector|
      ensures moved.solutionsVector[pos1] == solution.solutionsVector[pos2]
      ensures moved.solutionsVector[pos2] == solution.solutionsVector[pos1]
      ensures forall i :: 0 <= i < |solution.solutionsVector| && i != pos1 && i != pos2 ==>
        moved.solutionsVector[i] == solution.solutionsVector[i]
      ensures solution.solutionsVector == old(solution.solutionsVector)
    {
      moved := solution.Clone();
      moved.SetElement(pos1, solution.solutionsVector[pos2]);
      moved.SetElement(pos2, solution.solutionsVector[pos1]);
    }

    /** `r` tells whether the two positions could be drawn; `moved` is then the solution moved. */
    method SwapInside(solution: RoutingSolution, routeBegin: int, routeEnd: int)
      returns (r: Drawn<(int, int)>, moved: RoutingSolution)
      requires -1 <= routeBegin && routeEnd < |solution.solutionsVector|
      modifies this
      ensures r == ChosenPair(routeBegin, routeEnd, old(draws))
      ensures r.Drawn? ==> draws == r.rest && fresh(moved) && moved.problem == solution.problem
      ensures r.Drawn? ==> moved.solutionsVector == Swap(solution.solutionsVector, r.value.0, r.value.1)
    {
      moved := solution;
      var a := Draw(routeBegin + 1, routeEnd);
      if a.Rejected? {
        return Rejected, solution;
      }
      if a.Starved? {
        return Starved, solution;
      }
      var cityA := a.value;
      var b := Draw(routeBegin + 1, routeEnd);
      while b.Drawn? && b.value == cityA
        invariant b.Drawn? ==> draws == b.rest && routeBegin < b.value <= routeEnd
        invariant OtherThan(cityA, routeBegin + 1, routeEnd, a.rest)
               == if b.Drawn? && b.value == cityA then OtherThan(cityA, routeBegin + 1, routeEnd, draws) else b
        decreases if b.Drawn? then |b.rest| + 1 else 0
      {
        b := Draw(routeBegin + 1, routeEnd);
      }
      match b {
        case Rejected => r := Rejected;
        case Starved => r := Starved;
        case Drawn(cityB, _) =>
          moved := Movement(solution, cityA, cityB);
          r := Drawn((cityA, cityB), draws);
      }
    }

    method MoveOnce(solution: RoutingSolution) returns (r: Drawn<seq<nat>>, moved: RoutingSolution)
      modifies this
      ensures r == Moved(solution.solutionsVector, old(draws))
      ensures r.Drawn? ==> draws == r.rest
      ensures r.Drawn? ==> fresh(moved) && moved.problem == solution.problem && moved.solutionsVector == r.value
    {
      hide RouteBounds, ChosenRoute, ChosenPair, Swap;
      moved := solution;
      ChosenInside(solution.solutionsVector, draws);
      var route := ChooseRoute(solution);
      match route {
        case Rejected => r := Rejected;
        case Starved => r := Starved;
        case Drawn(indexes, _) =>
          var pair, swapped := SwapInside(solution, indexes.0, indexes.1);
          match pair {
            case Rejected => r := Rejected;
            case Starved => r := Starved;
            case Drawn(_, rest) =>
              moved := swapped;
              r := Drawn(moved.solutionsVector, rest);
          }
      }
    }

    /** The motions one after the other; only their result is new, the solution given stays as it is. */
    method Modify(solution: RoutingSolution, motionsCount: int) returns (r: Drawn<seq<nat>>, modified: RoutingSolution)
      modifies this
      ensures r == Modified(solution.solutionsVector, motionsCount, old(draws))
      ensures r.Drawn? ==> fresh(modified) && modified.problem == solution.problem && modified.solutionsVector == r.value
    {
      hide Moved;
      modified := solution.Clone();
      r := Drawn(modified.solutionsVector, draws);
      for i := 0 to if motionsCount < 0 then 0 else motionsCount
        invariant fresh(modified) && modified.problem == solution.problem
        invariant r == Drawn(modified.solutionsVector, draws)
        invariant Modified(solution.solutionsVector, i, old(draws)) == r
      {
        var once, moved := MoveOnce(modified);
        if !once.Drawn? {
          GivesUp(solution.solutionsVector, i + 1, motionsCount, old(draws));
          return once, modified;
        }
        modified := moved;
        r := once;
      }
    }
  }

  /** A motion that does not return ends the whole modification. */
  lemma {:induction false} GivesUp(v: seq<nat>, i: int, motions: int, draws: seq<nat>)
    requires i <= motions && !Modified(v, i, draws).Drawn?
    ensures Modified(v, motions, draws) == Modified(v, i, draws)
    decreases motions - i
  {
    if i < motions {
      GivesUp(v, i, motions - 1, draws);
    }
  }
}
