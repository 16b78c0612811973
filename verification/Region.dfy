/** A region: the solutions it holds, their statistics, and the split into three bands. */
module Regions {
  import opened Analyser
  import opened Statistics
  import opened Options
  import opened Sequences

  function Values(s: seq<Solution>): (v: seq<real>)
    ensures |v| == |s|
  {
    if s == [] then [] else Values(s[..|s| - 1]) + [s[|s| - 1].value]
  }

  lemma ValuesAppend(s: seq<Solution>, x: Solution)
    ensures Values(s + [x]) == Values(s) + [x.value]
  {
    assert (s + [x])[..|s|] == s;
  }

  // ----- the three bands

  datatype Band = Lower | Staying | Higher

  function BandOf(value: real, low: real, high: real): Band {
    if value < low then Lower else if value > high then Higher else Staying
  }

  function Keep(x: Solution, stays: bool): seq<Solution> {
    if stays then [x] else []
  }

  /** The solutions of one band, in order. */
  function Select(s: seq<Solution>, low: real, high: real, band: Band): seq<Solution> {
    if s == [] then []
    else Select(s[..|s| - 1], low, high, band) + Keep(s[|s| - 1], BandOf(s[|s| - 1].value, low, high) == band)
  }

  datatype Bands = Bands(lower: seq<Solution>, staying: seq<Solution>, higher: seq<Solution>)

  /** What `split` does to a list of solutions: nothing below the configured size, otherwise
      the band of one standard deviation around the mean stays. */
  function SplitBands(s: seq<Solution>, minSolutionsToSplit: int, std: real): Bands {
    if |s| < minSolutionsToSplit || s == [] then Bands([], s, [])
    else BandsAround(s, Mean(Values(s)), std)
  }

  function BandsAround(s: seq<Solution>, mean: real, std: real): Bands {
    Bands(Select(s, mean - std, mean + std, Lower),
          Select(s, mean - std, mean + std, Staying),
          Select(s, mean - std, mean + std, Higher))
  }

  /** `std` is the standard deviation the list's statistics report. */
  ghost predicate IsDeviationOf(s: seq<Solution>, std: real) {
    && std >= 0.0
    && (s != [] ==> IsStandardDeviation(Values(s), std))
  }

  /** Every value of `a` is less than every value of `b`. */
  ghost predicate Precedes(a: seq<Solution>, b: seq<Solution>) {
    forall x, y :: x in a && y in b ==> x.value < y.value
  }

  ghost predicate AllIn(s: seq<Solution>, low: real, high: real, band: Band) {
    forall x :: x in s ==> BandOf(x.value, low, high) == band
  }

  lemma {:induction false} SelectSelects(s: seq<Solution>, low: real, high: real, band: Band)
    ensures AllIn(Select(s, low, high, band), low, high, band)
  {
    if s != [] {
      SelectSelects(s[..|s| - 1], low, high, band);
    }
  }

  lemma {:induction false} BandsPartition(s: seq<Solution>, mean: real, std: real)
    ensures var b := BandsAround(s, mean, std);
      multiset(b.lower) + multiset(b.staying) + multiset(b.higher) == multiset(s)
  {
    if s != [] {
      var init, x := s[..|s| - 1], s[|s| - 1];
      BandsPartition(init, mean, std);
      BandsOfLast(BandsAround(init, mean, std), BandsAround(s, mean, std), x, BandOf(x.value, mean - std, mean + std));
      MultisetOfLast(s);
    }
  }

  lemma MultisetOfLast(s: seq<Solution>)
    requires s != []
    ensures multiset(s) == multiset(s[..|s| - 1]) + multiset{s[|s| - 1]}
  {
    assert s == s[..|s| - 1] + [s[|s| - 1]];
  }

  lemma BandsOfLast(a: Bands, b: Bands, x: Solution, band: Band)
    requires b.lower == a.lower + Keep(x, band == Lower)
    requires b.staying == a.staying + Keep(x, band == Staying)
    requires b.higher == a.higher + Keep(x, band == Higher)
    ensures multiset(b.lower) + multiset(b.staying) + multiset(b.higher)
         == multiset(a.lower) + multiset(a.staying) + multiset(a.higher) + multiset{x}
  {
  }

  lemma BandSizes(s: seq<Solution>, mean: real, std: real)
    ensures var b := BandsAround(s, mean, std); |b.lower| + |b.staying| + |b.higher| == |s|
  {
    var b := BandsAround(s, mean, std);
    BandsPartition(s, mean, std);
    assert |multiset(b.lower) + multiset(b.staying) + multiset(b.higher)| == |b.lower| + |b.staying| + |b.higher|;
  }

  lemma BandsOrdered(s: seq<Solution>, mean: real, std: real)
    requires std >= 0.0
    ensures var b := BandsAround(s, mean, std);
      Precedes(b.lower, b.staying) && Precedes(b.staying, b.higher) && Precedes(b.lower, b.higher)
  {
    SelectSelects(s, mean - std, mean + std, Lower);
    SelectSelects(s, mean - std, mean + std, Staying);
    SelectSelects(s, mean - std, mean + std, Higher);
  }

  /** A split loses and invents nothing, and its three bands are strictly ordered by value. */
  lemma SplitPartitions(s: seq<Solution>, min: int, std: real)
    requires std >= 0.0
    ensures var b := SplitBands(s, min, std);
      && multiset(b.lower) + multiset(b.staying) + multiset(b.higher) == multiset(s)
      && Precedes(b.lower, b.staying) && Precedes(b.staying, b.higher) && Precedes(b.lower, b.higher)
  {
    if s != [] && |s| >= min {
      BandsPartition(s, Mean(Values(s)), std);
      BandsOrdered(s, Mean(Values(s)), std);
    }
  }

  // ----- who goes where

  /** Where a value belongs: more than the deviation below the mean, more than that above it, or between. */
  predicate Belongs(value: real, mean: real, std: real, band: Band) {
    match band
    case Lower => value < mean - std
    case Staying => mean - std <= value <= mean + std
    case Higher => value > mean + std
  }

  /** `out` holds the solutions of `s` that belong to the band, each as often as `s`, in order. */
  ghost predicate Filters(s: seq<Solution>, out: seq<Solution>, mean: real, std: real, band: Band) {
    && InOrder(out, s)
    && forall x :: multiset(out)[x] == if Belongs(x.value, mean, std, band) then multiset(s)[x] else 0
  }

  lemma FiltersNext(s: seq<Solution>, out: seq<Solution>, x: Solution, mean: real, std: real, band: Band)
    requires Filters(s, out, mean, std, band)
    ensures Filters(s + [x], out + Keep(x, Belongs(x.value, mean, std, band)), mean, std, band)
  {
    hide InOrder, Belongs;
    InOrderNext(out, s, x);
    assert out + [] == out;
    forall y
      ensures multiset(out + Keep(x, Belongs(x.value, mean, std, band)))[y]
           == if Belongs(y.value, mean, std, band) then multiset(s + [x])[y] else 0
    {
      assert multiset(out)[y] == if Belongs(y.value, mean, std, band) then multiset(s)[y] else 0;
    }
  }

  lemma BelongsThere(value: real, mean: real, std: real, band: Band)
    requires std >= 0.0
    ensures Belongs(value, mean, std, band) <==> BandOf(value, mean - std, mean + std) == band
  {
  }

  lemma {:induction false} SelectFilters(s: seq<Solution>, mean: real, std: real, band: Band)
    requires std >= 0.0
    ensures Filters(s, Select(s, mean - std, mean + std, band), mean, std, band)
  {
    hide Filters, BandOf, Belongs;
    if s == [] {
      NothingFiltered(mean, std, band);
    } else {
      var init, last := s[..|s| - 1], s[|s| - 1];
      SelectFilters(init, mean, std, band);
      BelongsThere(last.value, mean, std, band);
      FiltersNext(init, Select(init, mean - std, mean + std, band), last, mean, std, band);
      assert s == init + [last];
    }
  }

  lemma NothingFiltered(mean: real, std: real, band: Band)
    ensures Filters([], [], mean, std, band)
  {
    NothingInOrder<Solution>([]);
  }

  /** Each solution is in the list it belongs to, as often as before and in the order of before. */
  ghost predicate Sorted(s: seq<Solution>, lower: seq<Solution>, staying: seq<Solution>, higher: seq<Solution>,
                         mean: real, std: real)
  {
    Filters(s, lower, mean, std, Lower) && Filters(s, staying, mean, std, Staying) && Filters(s, higher, mean, std, Higher)
  }

  /** A split does nothing below the configured size or to an empty list, and otherwise sorts about the
      mean of the values. */
  lemma SplitSorts(s: seq<Solution>, min: int, std: real)
    requires std >= 0.0
    ensures |s| < min || s == [] ==> SplitBands(s, min, std) == Bands([], s, [])
    ensures |s| >= min && s != [] ==>
      var b := SplitBands(s, min, std); Sorted(s, b.lower, b.staying, b.higher, Mean(Values(s)), std)
  {
    hide BandsAround, Sorted, Mean, Values;
    if |s| >= min && s != [] {
      BandsSorted(s, Mean(Values(s)), std);
    }
  }

  lemma BandsSorted(s: seq<Solution>, mean: real, std: real)
    requires std >= 0.0
    ensures var b := BandsAround(s, mean, std); Sorted(s, b.lower, b.staying, b.higher, mean, std)
  {
    hide Filters, Select;
    SelectFilters(s, mean, std, Lower);
    SelectFilters(s, mean, std, Staying);
    SelectFilters(s, mean, std, Higher);
  }

  // ----- the counting argument: at least two solutions stay

  lemma SquareGrows(y: real, d: real)
    requires y > d >= 0.0
    ensures Square(y) > Square(d)
  {
    var e := y - d;
    assert Square(y) == d * d + 2.0 * (d * e) + e * e;
    assert d * e >= 0.0 && e * e > 0.0;
  }

  lemma SquareShrinks(y: real, d: real)
    requires -d <= y <= d
    ensures Square(y) <= Square(d)
  {
    assert (d - y) * (d + y) >= 0.0;
    assert (d - y) * (d + y) == d * d - y * y;
  }

  /** A value in the band is at most one deviation from the centre, any other is further away. */
  lemma BandCost(x: real, c: real, d: real)
    requires d >= 0.0
    ensures Square(x - c) >= 0.0
    ensures BandOf(x, c - d, c + d) == Staying <==> Square(x - c) <= Square(d)
  {
    SquareNonNegative(x - c);
    SquareOfSum(0.0, x - c);
    if BandOf(x, c - d, c + d) == Staying {
      SquareShrinks(x - c, d);
    } else if x < c {
      SquareGrows(c - x, d);
      assert c - x == -(x - c);
    } else {
      SquareGrows(x - c, d);
    }
  }

  lemma CostOfLast(s: seq<Solution>, c: real)
    requires s != []
    ensures SquaredDeviation(Values(s), c)
         == SquaredDeviation(Values(s[..|s| - 1]), c) + Square(s[|s| - 1].value - c)
  {
    hide Square;
    var v := Values(s);
    assert v[..|v| - 1] == Values(s[..|s| - 1]);
  }

  function Outside(s: seq<Solution>, mean: real, std: real): nat {
    var b := BandsAround(s, mean, std);
    |b.lower| + |b.higher|
  }

  lemma OutsideOfLast(s: seq<Solution>, mean: real, std: real)
    ensures s == [] ==> Outside(s, mean, std) == 0
    ensures s != [] ==>
      && var leaves := BandOf(s[|s| - 1].value, mean - std, mean + std) != Staying;
      Outside(s, mean, std) == Outside(s[..|s| - 1], mean, std) + if leaves then 1 else 0
  {
  }

  /** Every solution outside the band contributes more than one squared deviation. */
  lemma {:induction false} OutsideCost(s: seq<Solution>, c: real, d: real)
    requires d >= 0.0
    ensures SquaredDeviation(Values(s), c) >= Times(Outside(s, c, d), Square(d))
    ensures Outside(s, c, d) > 0 ==> SquaredDeviation(Values(s), c) > Times(Outside(s, c, d), Square(d))
  {
    hide Square, BandOf, Outside;
    OutsideOfLast(s, c, d);
    if s != [] {
      OutsideCost(s[..|s| - 1], c, d);
      CostOfLast(s, c);
      BandCost(s[|s| - 1].value, c, d);
    }
  }

  /** Fewer than two inside the band would cost more than the whole squared deviation. */
  lemma BandHoldsTwo(s: seq<Solution>, mean: real, std: real)
    requires |s| >= 2 && std >= 0.0
    requires Times(|s| - 1, Square(std)) == SquaredDeviation(Values(s), mean)
    ensures |BandsAround(s, mean, std).staying| >= 2
  {
    hide Square, SquaredDeviation;
    BandSizes(s, mean, std);
    if |BandsAround(s, mean, std).staying| < 2 {
      OutsideCost(s, mean, std);
      SquareNonNegative(std);
      TimesMonotone(|s| - 1, Outside(s, mean, std), Square(std));
      assert false;
    }
  }

  lemma OnlyOneStays(s: seq<Solution>, mean: real)
    requires |s| == 1 && mean == Mean(Values(s))
    ensures BandsAround(s, mean, 0.0).staying == s
  {
    var x := s[0];
    assert s[..0] == [] && Values(s) == [x.value];
    FirstValue(x.value);
    assert Select(s, mean - 0.0, mean + 0.0, Staying) == [] + [x];
  }

  /** A split never takes more than all but two of the solutions of a region that holds two or more,
      and never takes the only one. */
  lemma SplitKeepsTwo(s: seq<Solution>, min: int, std: real)
    requires IsDeviationOf(s, std)
    ensures |s| >= 2 ==> |SplitBands(s, min, std).staying| >= 2
    ensures s != [] ==> SplitBands(s, min, std).staying != []
  {
    hide Square, Mean;
    if s != [] && |s| >= min {
      var mean := Mean(Values(s));
      if |s| == 1 {
        OnlyOneStays(s, mean);
      } else {
        BandHoldsTwo(s, mean, std);
      }
    }
  }

  // ----- a split concentrates the region

  lemma {:induction false} InsideCost(s: seq<Solution>, c: real, d: real)
    requires AllIn(s, c - d, c + d, Staying) && d >= 0.0
    ensures SquaredDeviation(Values(s), c) <= Times(|s|, Square(d))
  {
    hide Square, BandOf;
    if s != [] {
      var init, x := s[..|s| - 1], s[|s| - 1];
      assert x in s && forall y :: y in init ==> y in s;
      InsideCost(init, c, d);
      CostOfLast(s, c);
      BandCost(x.value, c, d);
    }
  }

  /** The squared deviation of the staying solutions about their own new mean is at most their
      number times the old sample variance: their population variance never exceeds it. */
  lemma SplitConcentrates(s: seq<Solution>, min: int, std: real)
    requires IsDeviationOf(s, std) && s != [] && |s| >= min
    ensures var v := Values(SplitBands(s, min, std).staying);
      v != [] && SquaredDeviation(v, Mean(v)) <= Times(|v|, Square(std))
  {
    hide Square, Mean, SquaredDeviation, BandOf;
    SplitKeepsTwo(s, min, std);
    var mean := Mean(Values(s));
    var staying := SplitBands(s, min, std).staying;
    SelectSelects(s, mean - std, mean + std, Staying);
    InsideCost(staying, mean, std);
    MeanMinimises(Values(staying), mean);
  }

  // ----- the region object

  class Region {
    const minSolutionsToSplit: int
    var solutionList: seq<Solution>
    var stats: seq<real>
    var summary: Moments
    var bestSolution: Option<Solution>

    /** Both statistics trackers describe exactly the solutions held. */
    ghost predicate Tracks()
      reads this
    {
      && stats == Values(solutionList)
      && Summarises(summary, stats)
    }

    ghost predicate Valid()
      reads this
    {
      && Tracks()
      && (solutionList != [] ==> bestSolution == Some(FindBestSolution(solutionList)))
    }

    constructor (minSolutionsToSplit: int)
      ensures Valid() && solutionList == [] && bestSolution == None
      ensures this.minSolutionsToSplit == minSolutionsToSplit
    {
      this.minSolutionsToSplit := minSolutionsToSplit;
      solutionList, stats, summary, bestSolution := [], [], NO_MOMENTS, None;
    }

    method AddSolution(solution: Solution)
      requires Tracks()
      modifies this`solutionList, this`stats, this`summary
      ensures Tracks() && solutionList == old(solutionList) + [solution]
    {
      ValuesAppend(solutionList, solution);
      AddKeepsSummary(summary, stats, solution.value);
      solutionList := solutionList + [solution];
      stats := stats + [solution.value];
      summary := summary.Add(solution.value);
    }

    method AddSolutionsCollection(solutions: seq<Solution>)
      requires Tracks()
      modifies this`solutionList, this`stats, this`summary, this`bestSolution
      ensures Valid() && solutionList == old(solutionList) + solutions
      ensures solutionList == [] ==> bestSolution == old(bestSolution)
    {
      hide Summarises, Values, FindBestSolution;
      var i := 0;
      while i < |solutions|
        invariant 0 <= i <= |solutions|
        invariant Tracks() && solutionList == old(solutionList) + solutions[..i]
        invariant bestSolution == old(bestSolution)
      {
        AddSolution(solutions[i]);
        assert solutions[..i] + [solutions[i]] == solutions[..i + 1];
        i := i + 1;
      }
      assert solutions[..i] == solutions;
      if solutionList != [] {
        bestSolution := Some(FindBestSolution(solutionList));
      }
    }

    method Clear()
      modifies this`solutionList, this`stats, this`summary
      ensures Tracks() && solutionList == []
    {
      solutionList, stats, summary := [], [], NO_MOMENTS;
    }

    /** The lower and higher solutions leave, the others stay and every tracker is rebuilt from them. */
    method Split(std: real) returns (lowerSolutions: seq<Solution>, higherSolutions: seq<Solution>)
      requires Valid() && IsDeviationOf(solutionList, std)
      modifies this
      ensures Valid()
      ensures Bands(lowerSolutions, solutionList, higherSolutions)
           == SplitBands(old(solutionList), minSolutionsToSplit, std)
      ensures |old(solutionList)| < minSolutionsToSplit ==>
        lowerSolutions == [] && higherSolutions == [] && solutionList == old(solutionList)
      ensures |old(solutionList)| >= minSolutionsToSplit && old(solutionList) != [] ==>
        Sorted(old(solutionList), lowerSolutions, solutionList, higherSolutions, Mean(Values(old(solutionList))), std)
      ensures old(solutionList) != [] ==> solutionList != []
      ensures |old(solutionList)| >= 2 ==> |solutionList| >= 2
    {
      lowerSolutions, higherSolutions := [], [];
      ghost var before := solutionList;
      hide Sorted, Mean, Summarises, BandsAround, FindBestSolution;
      SplitKeepsTwo(before, minSolutionsToSplit, std);
      SplitSorts(before, minSolutionsToSplit, std);
      if |solutionList| >= minSolutionsToSplit {
        var middleSolutions: seq<Solution>;
        var mean := if stats == [] then 0.0 else Mean(stats);
        lowerSolutions, middleSolutions, higherSolutions := Divide(mean, std);
        Clear();
        AddSolutionsCollection(middleSolutions);
        if before == [] {
          NothingDivided(mean, std);
        }
      }
    }

    /** The loop over the solutions that sorts them into the three bands, in order. */
    method Divide(mean: real, std: real) returns (lower: seq<Solution>, middle: seq<Solution>, higher: seq<Solution>)
      ensures Bands(lower, middle, higher) == BandsAround(solutionList, mean, std)
    {
      lower, middle, higher := [], [], [];
      var i := 0;
      while i < |solutionList|
        invariant 0 <= i <= |solutionList|
        invariant Bands(lower, middle, higher) == BandsAround(solutionList[..i], mean, std)
      {
        BandsOfPrefix(solutionList, i, mean, std);
        var solution := solutionList[i];
        if solution.value < mean - std {
          lower := lower + [solution];
        } else if solution.value > mean + std {
          higher := higher + [solution];
        } else {
          middle := middle + [solution];
        }
        i := i + 1;
      }
      assert solutionList[..i] == solutionList;
    }
  }

  lemma NothingDivided(mean: real, std: real)
    ensures BandsAround([], mean, std) == Bands([], [], [])
  {
  }

  lemma BandsOfPrefix(s: seq<Solution>, i: nat, mean: real, std: real)
    requires i < |s|
    ensures var (a, x) := (BandsAround(s[..i], mean, std), s[i]);
      var band := BandOf(x.value, mean - std, mean + std);
      BandsAround(s[..i + 1], mean, std)
      == if band == Lower then a.(lower := a.lower + [x])
         else if band == Higher then a.(higher := a.higher + [x])
         else a.(staying := a.staying + [x])
  {
    assert s[..i + 1][..i] == s[..i];
  }
}
