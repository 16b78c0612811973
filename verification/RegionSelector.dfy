/** The roulette by which the leader picks a region, on doubles with infinity and not-a-number. */
module RegionSelector {
  import opened Analyser
  import opened Options

  /** The statistical summary of a region, as the leader receives it. */
  datatype Summary = Summary(n: nat, mean: real, deviation: real)

  /** The non-negative doubles the roulette computes with. */
  datatype Extended = Finite(value: real) | Infinite | NotANumber

  function Plus(a: Extended, b: Extended): Extended {
    if a.NotANumber? || b.NotANumber? then NotANumber
    else if a.Infinite? || b.Infinite? then Infinite
    else Finite(a.value + b.value)
  }

  function Over(a: Extended, b: Extended): Extended {
    if a.NotANumber? || b.NotANumber? || (a.Infinite? && b.Infinite?) then NotANumber
    else if a.Infinite? then Infinite
    else if b.Infinite? then Finite(0.0)
    else if b.value == 0.0 then (if a.value == 0.0 then NotANumber else Infinite)
    else Finite(a.value / b.value)
  }

  predicate AtMost(x: real, a: Extended) {
    a.Infinite? || (a.Finite? && x <= a.value)
  }

  /** The absolute quotient of deviation and mean; an empty summary reports neither. */
  function VariationRate(s: Summary): Extended {
    if s.n == 0 then NotANumber
    else if s.mean == 0.0 then (if s.deviation == 0.0 then NotANumber else Infinite)
    else Finite(Abs(s.deviation / s.mean))
  }

  function Rate(summary: Option<Summary>): Extended {
    match summary
    case Some(s) => VariationRate(s)
    case None => Finite(0.0)
  }

  /** The inverse of the variation rate: infinite for a region that has reported no summary. */
  function Weight(summary: Option<Summary>): Extended {
    Over(Finite(1.0), Rate(summary))
  }

  /** The rate is the quotient of the absolute deviation by the absolute mean, where there is one. */
  lemma VariationRateMeans(s: Summary)
    ensures VariationRate(s).NotANumber? <==> s.n == 0 || (s.mean == 0.0 && s.deviation == 0.0)
    ensures VariationRate(s).Infinite? <==> s.n > 0 && s.mean == 0.0 && s.deviation != 0.0
    ensures VariationRate(s).Finite? ==>
      VariationRate(s).value >= 0.0 && VariationRate(s).value * Abs(s.mean) == Abs(s.deviation)
  {
    if VariationRate(s).Finite? {
      AbsOfQuotient(s.deviation, s.mean);
    }
  }

  lemma AbsOfQuotient(a: real, b: real)
    requires b != 0.0
    ensures Abs(a / b) * Abs(b) == Abs(a)
  {
    assert (a / b) * b == a;
    if b < 0.0 {
      assert (a / b) * (-b) == -a;
      SignOfQuotient(-a, -b, a / b);
    } else {
      SignOfQuotient(a, b, a / b);
    }
  }

  lemma SignOfQuotient(a: real, b: real, q: real)
    requires b > 0.0 && q * b == a
    ensures q >= 0.0 <==> a >= 0.0
    ensures Abs(q) * b == Abs(a)
  {
    if q >= 0.0 {
      assert q * b >= 0.0;
    } else {
      assert (-q) * b > 0.0;
      assert (-q) * b == -(q * b);
    }
  }

  /** The weight is the inverse of the rate: infinite without a summary or without variation. */
  lemma WeightIsInverse(summary: Option<Summary>)
    ensures summary.None? ==> Weight(summary).Infinite?
    ensures summary.Some? && VariationRate(summary.value).NotANumber? ==> Weight(summary).NotANumber?
    ensures summary.Some? && VariationRate(summary.value).Infinite? ==> Weight(summary) == Finite(0.0)
    ensures summary.Some? && VariationRate(summary.value) == Finite(0.0) ==> Weight(summary).Infinite?
    ensures summary.Some? && VariationRate(summary.value).Finite? && VariationRate(summary.value).value > 0.0 ==>
      Weight(summary).Finite? && Weight(summary).value * VariationRate(summary.value).value == 1.0
  {
    hide VariationRate;
  }

  predicate AllIds(used: seq<nat>, n: nat) {
    forall i :: 0 <= i < |used| ==> used[i] < n
  }

  function Weights(used: seq<nat>, summaries: seq<Option<Summary>>): (w: seq<Extended>)
    requires AllIds(used, |summaries|)
    ensures |w| == |used|
    ensures forall i :: 0 <= i < |used| ==> w[i] == Weight(summaries[used[i]])
  {
    seq(|used|, i requires 0 <= i < |used| => Weight(summaries[used[i]]))
  }

  function Total(w: seq<Extended>): Extended {
    if w == [] then Finite(0.0) else Plus(Total(w[..|w| - 1]), w[|w| - 1])
  }

  /** What the in-place pass leaves at index `i`: the share of `i` plus everything before it. */
  function Accumulated(w: seq<Extended>, total: Extended, i: nat): Extended
    requires i < |w|
  {
    if i == 0 then Over(w[0], total)
    else Plus(Over(w[i], total), Accumulated(w, total, i - 1))
  }

  predicate AllFinite(w: seq<Extended>) {
    forall i :: 0 <= i < |w| ==> w[i].Finite? && w[i].value >= 0.0
  }

  /** The sum of the first `k` weights. */
  function Prefix(w: seq<Extended>, k: nat): real
    requires k <= |w| && AllFinite(w)
  {
    if k == 0 then 0.0 else Prefix(w, k - 1) + w[k - 1].value
  }

  lemma WeightNonNegative(summary: Option<Summary>)
    ensures Weight(summary).Finite? ==> Weight(summary).value >= 0.0
    ensures Weight(summary).Finite? ==> summary.Some?
  {
  }

  lemma {:induction false} TotalFinite(w: seq<Extended>)
    requires Total(w).Finite?
    requires forall i :: 0 <= i < |w| && w[i].Finite? ==> w[i].value >= 0.0
    ensures AllFinite(w) && Total(w).value == Prefix(w, |w|)
  {
    if w != [] {
      var init := w[..|w| - 1];
      TotalFinite(init);
      PrefixOfPrefix(w, |init|, |init|);
    }
  }

  lemma {:induction false} PrefixOfPrefix(w: seq<Extended>, n: nat, k: nat)
    requires k <= n <= |w| && AllFinite(w[..n])
    requires AllFinite(w) || n == |w| - 1
    ensures AllFinite(w) ==> Prefix(w[..n], k) == Prefix(w, k)
  {
    if k > 0 {
      PrefixOfPrefix(w, n, k - 1);
    }
  }

  lemma {:induction false} PrefixMonotone(w: seq<Extended>, j: nat, k: nat)
    requires j <= k <= |w| && AllFinite(w)
    ensures 0.0 <= Prefix(w, j) <= Prefix(w, k)
  {
    if j < k {
      PrefixMonotone(w, j, k - 1);
    } else if j > 0 {
      PrefixMonotone(w, j - 1, j - 1);
    }
  }

  lemma AddShares(a: real, b: real, t: real)
    requires t > 0.0
    ensures b / t + a / t == (a + b) / t
  {
  }

  /** In the finite case the accumulated entries are the prefix sums over the total. */
  lemma {:induction false} AccumulatedIsShare(w: seq<Extended>, t: real, i: nat)
    requires i < |w| && AllFinite(w) && t > 0.0
    ensures Accumulated(w, Finite(t), i) == Finite(Prefix(w, i + 1) / t)
  {
    if i == 0 {
      assert Prefix(w, 1) == Prefix(w, 0) + w[0].value;
    } else {
      AccumulatedIsShare(w, t, i - 1);
      AddShares(Prefix(w, i), w[i].value, t);
    }
  }

  /** A draw selects the position whose interval it falls into; the first interval is closed below. */
  ghost predicate Picks(w: seq<Extended>, t: real, draw: real, k: int)
    requires AllFinite(w) && t > 0.0
  {
    && 0 <= k < |w|
    && (k > 0 ==> Prefix(w, k) / t < draw)
    && draw <= Prefix(w, k + 1) / t
  }

  lemma ShareMonotone(a: real, b: real, t: real)
    requires t > 0.0
    ensures a <= b ==> a / t <= b / t
    ensures a < b ==> a / t < b / t
  {
  }

  /** The intervals do not overlap. */
  lemma PickIsUnique(w: seq<Extended>, t: real, draw: real, j: nat, k: nat)
    requires AllFinite(w) && t > 0.0
    requires Picks(w, t, draw, j) && Picks(w, t, draw, k)
    ensures j == k
  {
    if j < k {
      PrefixMonotone(w, j + 1, k);
      ShareMonotone(Prefix(w, j + 1), Prefix(w, k), t);
    } else if k < j {
      PrefixMonotone(w, k + 1, j);
      ShareMonotone(Prefix(w, k + 1), Prefix(w, j), t);
    }
  }

  /** The last accumulated entry is exactly one. */
  lemma LastShareIsOne(w: seq<Extended>, t: real)
    requires w != [] && AllFinite(w) && t > 0.0 && t == Prefix(w, |w|)
    ensures Accumulated(w, Finite(t), |w| - 1) == Finite(1.0)
  {
    AccumulatedIsShare(w, t, |w| - 1);
    SelfQuotient(t);
  }

  lemma SelfQuotient(t: real)
    requires t > 0.0
    ensures t / t == 1.0
  {
  }

  /** The order of two variation rates, with infinity as the greatest. */
  predicate RateAtMost(a: Extended, b: Extended) {
    (a.Finite? && b.Finite? && a.value <= b.value) || (b.Infinite? && !a.NotANumber?)
  }

  /** Every region with a finite weight has reported a summary, and a lower rate never weighs less. */
  lemma LowerRateNotLighter(a: Option<Summary>, b: Option<Summary>)
    requires Weight(a).Finite? && Weight(b).Finite? && RateAtMost(Rate(a), Rate(b))
    ensures a.Some? && b.Some?
    ensures Weight(b).value <= Weight(a).value
  {
    if Rate(b).Finite? {
      InverseMonotone(Rate(a).value, Rate(b).value);
    }
  }

  /** The length of the interval of position `k`. */
  function Length(w: seq<Extended>, t: real, k: nat): real
    requires k < |w| && AllFinite(w) && t > 0.0
  {
    Prefix(w, k + 1) / t - Prefix(w, k) / t
  }

  lemma LengthIsShare(w: seq<Extended>, t: real, k: nat)
    requires k < |w| && AllFinite(w) && t > 0.0
    ensures Length(w, t, k) == w[k].value / t
  {
    AddShares(w[k].value, Prefix(w, k), t);
  }

  /** In the finite case every region in the wheel has reported a summary, and of two of them the one
      with the lower variation rate never gets the shorter interval. */
  lemma LowerRateNotShorter(used: seq<nat>, summaries: seq<Option<Summary>>, j: nat, k: nat)
    requires AllIds(used, |summaries|) && j < |used| && k < |used|
    requires Total(Weights(used, summaries)).Finite? && Total(Weights(used, summaries)).value > 0.0
    requires RateAtMost(Rate(summaries[used[k]]), Rate(summaries[used[j]]))
    ensures summaries[used[j]].Some? && summaries[used[k]].Some?
    ensures var w := Weights(used, summaries);
      AllFinite(w) && Length(w, Total(w).value, j) <= Length(w, Total(w).value, k)
  {
    hide Length, Prefix;
    var w := Weights(used, summaries);
    WheelWeights(used, summaries);
    LowerRateNotLighter(summaries[used[k]], summaries[used[j]]);
    LengthIsShare(w, Total(w).value, j);
    LengthIsShare(w, Total(w).value, k);
    ShareMonotone(w[j].value, w[k].value, Total(w).value);
  }

  lemma InverseMonotone(x: real, y: real)
    requires 0.0 < x <= y
    ensures 1.0 / y <= 1.0 / x
  {
    var p, q := 1.0 / x, 1.0 / y;
    assert p * x == 1.0 && q * y == 1.0;
    assert q * y >= q * x;
    assert (p - q) * x >= 0.0;
  }

  // ----- the selection

  predicate UnitDraws(draws: seq<real>) {
    forall i :: 0 <= i < |draws| ==> 0.0 <= draws[i] < 1.0
  }

  /** The index a draw of the random fallback stands for: the integral part of draw times size. */
  function DrawIndex(draw: real, n: nat): (i: nat)
    requires 0.0 <= draw < 1.0 && n > 0
    ensures i < n && i as real <= draw * n as real < i as real + 1.0
  {
    ScaledBelow(draw, n as real);
    var x := draw * n as real;
    assert x.Floor as real <= x < n as real;
    x.Floor
  }

  lemma ScaledBelow(u: real, n: real)
    requires 0.0 <= u < 1.0 && n > 0.0
    ensures 0.0 <= u * n < n
  {
    assert (1.0 - u) * n > 0.0;
  }

  datatype Outcome = Chosen(id: nat) | OutOfBounds | Undecided

  /** The ids the selection can return for these summaries and registrations. */
  ghost predicate MaySelect(used: seq<nat>, regions: seq<bool>, summaries: seq<Option<Summary>>, id: nat)
    requires |regions| == |summaries| && AllIds(used, |regions|)
  {
    var w := Weights(used, summaries);
    if |used| == 1 then id == used[0]
    else if Total(w).Finite? then
      && AllFinite(w) && Total(w).value > 0.0
      && exists draw, k :: 0.0 <= draw < 1.0 && Picks(w, Total(w).value, draw, k) && id == used[k]
    else id in used && regions[id]
  }

  /** The wheel has no interval to fall into: no ids, or several ids that all weigh nothing. */
  ghost predicate EmptyWheel(used: seq<nat>, summaries: seq<Option<Summary>>)
    requires AllIds(used, |summaries|)
  {
    used == [] || (|used| > 1 && Total(Weights(used, summaries)) == Finite(0.0))
  }

  /** The draws of the fallback in turn, up to the first that names a registered region. */
  function FirstRegistered(used: seq<nat>, regions: seq<bool>, draws: seq<real>): (o: Outcome)
    requires used != [] && AllIds(used, |regions|) && UnitDraws(draws)
    ensures !o.OutOfBounds?
    ensures o.Chosen? ==> o.id in used && o.id < |regions| && regions[o.id]
    ensures o.Undecided? <==> forall i :: 0 <= i < |draws| ==> !regions[used[DrawIndex(draws[i], |used|)]]
  {
    if draws == [] then Undecided
    else if regions[used[DrawIndex(draws[0], |used|)]] then Chosen(used[DrawIndex(draws[0], |used|)])
    else
      assert forall i :: 0 < i < |draws| ==> draws[i] == draws[1..][i - 1];
      FirstRegistered(used, regions, draws[1..])
  }

  /** The region chosen is the one the first draw names that names a registered one. */
  lemma {:induction false} FirstRegisteredIsFirst(used: seq<nat>, regions: seq<bool>, draws: seq<real>) returns (j: nat)
    requires used != [] && AllIds(used, |regions|) && UnitDraws(draws) && FirstRegistered(used, regions, draws).Chosen?
    ensures j < |draws| && FirstRegistered(used, regions, draws).id == used[DrawIndex(draws[j], |used|)]
    ensures forall i :: 0 <= i < j ==> !regions[used[DrawIndex(draws[i], |used|)]]
  {
    hide DrawIndex;
    if regions[used[DrawIndex(draws[0], |used|)]] {
      j := 0;
    } else {
      var k := FirstRegisteredIsFirst(used, regions, draws[1..]);
      j := k + 1;
      forall i | 0 <= i < j
        ensures !regions[used[DrawIndex(draws[i], |used|)]]
      {
        if i > 0 {
          assert draws[i] == draws[1..][i - 1];
        }
      }
    }
  }

  /** The outcome of a selection, for its draws. */
  ghost predicate Selects(used: seq<nat>, regions: seq<bool>, summaries: seq<Option<Summary>>, draws: seq<real>, o: Outcome)
    requires |regions| == |summaries| && AllIds(used, |regions|) && UnitDraws(draws) && draws != []
  {
    var w := Weights(used, summaries);
    if |used| == 1 then o == Chosen(used[0])
    else if EmptyWheel(used, summaries) then o == OutOfBounds
    else if Total(w).Finite? then
      && AllFinite(w) && Total(w).value > 0.0
      && exists k :: Picks(w, Total(w).value, draws[0], k) && o == Chosen(used[k])
    else o == FirstRegistered(used, regions, draws)
  }

  /** Over all draws, a selection can choose just these ids. */
  lemma SelectsMaySelect(used: seq<nat>, regions: seq<bool>, summaries: seq<Option<Summary>>, draws: seq<real>, o: Outcome)
    requires |regions| == |summaries| && AllIds(used, |regions|) && UnitDraws(draws) && draws != []
    requires Selects(used, regions, summaries, draws, o)
    ensures o.Chosen? ==> MaySelect(used, regions, summaries, o.id)
    ensures o.OutOfBounds? <==> EmptyWheel(used, summaries)
    ensures o.Undecided? ==> !Total(Weights(used, summaries)).Finite?
  {
    hide Prefix, Total, FirstRegistered, DrawIndex;
    var w := Weights(used, summaries);
    if |used| != 1 && !EmptyWheel(used, summaries) && Total(w).Finite? {
      var k :| Picks(w, Total(w).value, draws[0], k) && o == Chosen(used[k]);
      assert 0.0 <= draws[0] < 1.0 && Picks(w, Total(w).value, draws[0], k) && o.id == used[k];
    }
  }

  lemma MaySelectUsed(used: seq<nat>, regions: seq<bool>, summaries: seq<Option<Summary>>, id: nat)
    requires |regions| == |summaries| && AllIds(used, |regions|)
    requires MaySelect(used, regions, summaries, id)
    ensures id in used
    ensures |used| > 1 ==> summaries[id].Some? || regions[id]
  {
    var w := Weights(used, summaries);
    if |used| != 1 && Total(w).Finite? {
      var draw, k :| 0.0 <= draw < 1.0 && Picks(w, Total(w).value, draw, k) && id == used[k];
      WeightNonNegative(summaries[used[k]]);
    }
  }

  lemma WheelWeights(used: seq<nat>, summaries: seq<Option<Summary>>)
    requires AllIds(used, |summaries|)
    requires Total(Weights(used, summaries)).Finite?
    ensures var w := Weights(used, summaries);
      AllFinite(w) && Total(w).value == Prefix(w, |w|) >= 0.0
    ensures forall i :: 0 <= i < |used| ==> summaries[used[i]].Some?
  {
    var w := Weights(used, summaries);
    forall i | 0 <= i < |w| && w[i].Finite?
      ensures w[i].value >= 0.0 && summaries[used[i]].Some?
    {
      WeightNonNegative(summaries[used[i]]);
    }
    TotalFinite(w);
    PrefixMonotone(w, 0, |w|);
  }

  // ----- when no turn of the roulette throws

  /** Position `k` has an interval: the first one always has, because the draw 0 falls into it. */
  predicate HasInterval(w: seq<Extended>, k: nat)
    requires k < |w|
  {
    k == 0 || (w[k].Finite? && w[k].value > 0.0)
  }

  /** A single id is registered; with several, a finite total is positive and every position that has
      an interval belongs to a registered region. */
  ghost predicate Routable(used: seq<nat>, regions: seq<bool>, summaries: seq<Option<Summary>>)
    requires |regions| == |summaries| && AllIds(used, |regions|)
  {
    if |used| == 1 then regions[used[0]]
    else
      && used != []
      && var w := Weights(used, summaries);
      Total(w).Finite? ==>
        && Total(w).value > 0.0
        && forall k :: 0 <= k < |used| && HasInterval(w, k) ==> regions[used[k]]
  }

  /** The selection names a registered region, or goes on drawing. */
  predicate Reaches(regions: seq<bool>, o: Outcome) {
    !o.OutOfBounds? && (o.Chosen? ==> o.id < |regions| && regions[o.id])
  }

  lemma PickHasInterval(w: seq<Extended>, t: real, draw: real, k: nat)
    requires AllFinite(w) && t > 0.0 && Picks(w, t, draw, k)
    ensures HasInterval(w, k)
  {
    if k > 0 {
      LengthIsShare(w, t, k);
      PositiveShare(w[k].value, t);
    }
  }

  lemma PositiveShare(a: real, t: real)
    requires t > 0.0 && a / t > 0.0
    ensures a > 0.0
  {
    assert (a / t) * t == a;
  }

  lemma RoutableReaches(used: seq<nat>, regions: seq<bool>, summaries: seq<Option<Summary>>, draws: seq<real>, o: Outcome)
    requires |regions| == |summaries| && AllIds(used, |regions|) && Routable(used, regions, summaries)
    requires UnitDraws(draws) && draws != [] && Selects(used, regions, summaries, draws, o)
    ensures Reaches(regions, o)
  {
    hide Prefix, Total, FirstRegistered, DrawIndex, HasInterval;
    var w := Weights(used, summaries);
    if |used| != 1 && Total(w).Finite? {
      var k :| Picks(w, Total(w).value, draws[0], k) && o == Chosen(used[k]);
      PickHasInterval(w, Total(w).value, draws[0], k);
    }
  }

  lemma Halfway(a: real, b: real)
    requires a < b <= 1.0
    ensures a < (a + b) / 2.0 <= b && (a + b) / 2.0 < 1.0
  {
  }

  /** A draw that falls into the interval of position `k`. */
  lemma IntervalDraw(w: seq<Extended>, t: real, k: nat) returns (draw: real)
    requires k < |w| && AllFinite(w) && t > 0.0 && t == Prefix(w, |w|) && HasInterval(w, k)
    ensures 0.0 <= draw < 1.0 && Picks(w, t, draw, k)
  {
    hide Prefix;
    PrefixMonotone(w, 0, k);
    PrefixMonotone(w, k + 1, |w|);
    ShareMonotone(Prefix(w, k + 1), t, t);
    SelfQuotient(t);
    ZeroShares(w, t, k);
    if k == 0 {
      draw := 0.0;
    } else {
      LengthIsShare(w, t, k);
      ShareMonotone(0.0, w[k].value, t);
      draw := (Prefix(w, k) / t + Prefix(w, k + 1) / t) / 2.0;
      Halfway(Prefix(w, k) / t, Prefix(w, k + 1) / t);
    }
  }

  lemma ZeroShares(w: seq<Extended>, t: real, k: nat)
    requires k < |w| && AllFinite(w) && t > 0.0
    ensures Prefix(w, k) / t >= 0.0 && Prefix(w, k + 1) / t >= 0.0 && 0.0 / t == 0.0
  {
    PrefixMonotone(w, 0, k);
    PrefixMonotone(w, 0, k + 1);
    ShareMonotone(0.0, Prefix(w, k), t);
    ShareMonotone(0.0, Prefix(w, k + 1), t);
  }

  /** Draws whose outcome throws. */
  lemma ThrowingDraws(used: seq<nat>, regions: seq<bool>, summaries: seq<Option<Summary>>)
    returns (draws: seq<real>, o: Outcome)
    requires |regions| == |summaries| && AllIds(used, |regions|) && !Routable(used, regions, summaries)
    ensures UnitDraws(draws) && draws != [] && Selects(used, regions, summaries, draws, o) && !Reaches(regions, o)
  {
    hide Prefix, FirstRegistered;
    draws := [0.0];
    if |used| == 1 {
      o := Chosen(used[0]);
    } else if EmptyWheel(used, summaries) {
      o := OutOfBounds;
    } else {
      var w := Weights(used, summaries);
      WheelWeights(used, summaries);
      var k :| 0 <= k < |used| && HasInterval(w, k) && !regions[used[k]];
      var draw := IntervalDraw(w, Total(w).value, k);
      draws, o := [draw], Chosen(used[k]);
      assert Picks(w, Total(w).value, draws[0], k) && o == Chosen(used[k]);
    }
  }

  /** The exact condition under which no turn of the roulette throws, whatever is drawn. */
  lemma RoutableIff(used: seq<nat>, regions: seq<bool>, summaries: seq<Option<Summary>>)
    requires |regions| == |summaries| && AllIds(used, |regions|)
    ensures Routable(used, regions, summaries)
       <==> forall draws, o :: UnitDraws(draws) && draws != [] && Selects(used, regions, summaries, draws, o) ==>
              Reaches(regions, o)
  {
    hide Routable, Selects, Reaches;
    if Routable(used, regions, summaries) {
      forall draws, o | UnitDraws(draws) && draws != [] && Selects(used, regions, summaries, draws, o)
        ensures Reaches(regions, o)
      {
        RoutableReaches(used, regions, summaries, draws, o);
      }
    } else {
      var draws, o := ThrowingDraws(used, regions, summaries);
    }
  }

  /** The selection: weights, their total, the accumulated shares in place, then one draw or,
      when the total is no finite number, draws until a registered region comes up. */
  method SelectRegion(used: seq<nat>, regions: seq<bool>, summaries: seq<Option<Summary>>, draws: seq<real>)
    returns (o: Outcome)
    requires |regions| == |summaries| && AllIds(used, |regions|)
    requires UnitDraws(draws)
    requires draws != []
    ensures Selects(used, regions, summaries, draws, o)
  {
    var probabilities, sum := FillWeights(used, summaries);
    ghost var w := Weights(used, summaries);
    if |used| == 1 {
      return Chosen(used[0]);
    }
    if |used| == 0 {
      return OutOfBounds;
    }
    Accumulate(w, sum, probabilities);
    if !sum.Finite? {
      o := DrawRegistered(used, regions, draws);
    } else {
      WheelWeights(used, summaries);
      o := Scan(used, w, sum.value, probabilities, draws[0]);
    }
  }

  method FillWeights(used: seq<nat>, summaries: seq<Option<Summary>>)
    returns (probabilities: array<Extended>, sum: Extended)
    requires AllIds(used, |summaries|)
    ensures fresh(probabilities) && probabilities[..] == Weights(used, summaries)
    ensures sum == Total(Weights(used, summaries))
  {
    probabilities, sum := new Extended[|used|](_ => Finite(0.0)), Finite(0.0);
    ghost var w := Weights(used, summaries);
    var i := 0;
    while i < |used|
      invariant 0 <= i <= |used|
      invariant probabilities[..i] == w[..i]
      invariant sum == Total(w[..i])
    {
      probabilities[i] := Weight(summaries[used[i]]);
      sum := Plus(sum, probabilities[i]);
      assert w[..i + 1][..i] == w[..i];
      i := i + 1;
    }
    assert w[..i] == w;
  }

  method Accumulate(ghost w: seq<Extended>, sum: Extended, probabilities: array<Extended>)
    requires w != [] && probabilities[..] == w
    modifies probabilities
    ensures forall j :: 0 <= j < |w| ==> probabilities[j] == Accumulated(w, sum, j)
  {
    probabilities[0] := Over(probabilities[0], sum);
    var i := 1;
    while i < probabilities.Length
      invariant 1 <= i <= probabilities.Length
      invariant forall j :: 0 <= j < i ==> probabilities[j] == Accumulated(w, sum, j)
      invariant forall j :: i <= j < |w| ==> probabilities[j] == w[j]
    {
      probabilities[i] := Over(probabilities[i], sum);
      probabilities[i] := Plus(probabilities[i], probabilities[i - 1]);
      i := i + 1;
    }
  }

  method DrawRegistered(used: seq<nat>, regions: seq<bool>, draws: seq<real>) returns (o: Outcome)
    requires used != [] && AllIds(used, |regions|)
    requires UnitDraws(draws)
    ensures o == FirstRegistered(used, regions, draws)
  {
    var d := 0;
    while d < |draws|
      invariant 0 <= d <= |draws|
      invariant FirstRegistered(used, regions, draws) == FirstRegistered(used, regions, draws[d..])
    {
      var i := DrawIndex(draws[d], |used|);
      if regions[used[i]] {
        return Chosen(used[i]);
      }
      d := d + 1;
    }
    return Undecided;
  }

  method Scan(used: seq<nat>, ghost w: seq<Extended>, ghost t: real, probabilities: array<Extended>, draw: real)
    returns (o: Outcome)
    requires |used| == |w| == probabilities.Length > 0 && AllFinite(w) && t == Prefix(w, |w|) >= 0.0
    requires forall j :: 0 <= j < |w| ==> probabilities[j] == Accumulated(w, Finite(t), j)
    requires 0.0 <= draw < 1.0
    ensures t == 0.0 ==> o.OutOfBounds?
    ensures t > 0.0 ==> o.Chosen? && exists k :: Picks(w, t, draw, k) && o.id == used[k]
  {
    var i := 0;
    while i < probabilities.Length && !AtMost(draw, probabilities[i])
      invariant 0 <= i <= probabilities.Length
      invariant forall j :: 0 <= j < i ==> !AtMost(draw, probabilities[j])
    {
      i := i + 1;
    }
    if t > 0.0 {
      LastShareIsOne(w, t);
      AccumulatedIsShare(w, t, i);
      if i > 0 {
        AccumulatedIsShare(w, t, i - 1);
      }
      assert Picks(w, t, draw, i);
    } else {
      if i < probabilities.Length {
        NoShareOfNothing(w, i);
      }
    }
    if i == probabilities.Length {
      return OutOfBounds;
    }
    return Chosen(used[i]);
  }

  lemma {:induction false} NoShareOfNothing(w: seq<Extended>, i: nat)
    requires i < |w| && AllFinite(w) && Prefix(w, |w|) == 0.0
    ensures Accumulated(w, Finite(0.0), i) == NotANumber
  {
    PrefixMonotone(w, i, i);
    PrefixMonotone(w, i + 1, |w|);
    if i > 0 {
      NoShareOfNothing(w, i - 1);
    }
  }
}
