/** GRASP construction for function minimisation: candidates, adaptive values, the restricted list. */
module Grasp {
  import opened Analyser
  import opened Options
  import opened FunctionProblems
  import opened Sequences

  /** A candidate value; candidates are told apart by identity. */
  datatype Element = Element(id: nat, value: real)

  const MAX_VALUES := 10

  function Points(s: seq<Element>): (v: seq<real>)
    ensures |v| == |s| && forall i :: 0 <= i < |s| ==> v[i] == s[i].value
  {
    seq(|s|, i requires 0 <= i < |s| => s[i].value)
  }

  // ----- the adaptive value of a candidate

  /** The objective of the initial point with the coordinates chosen so far and the candidate in place. */
  function ValueWith(p: FunctionProblem, vector: seq<Element>, e: Element): real
    requires |vector| < |p.initialPoint|
  {
    p.objective(Points(vector) + [e.value] + p.initialPoint[|vector| + 1..])
  }

  /** The adaptive value is the objective of a full point: the coordinates chosen so far, the candidate
      behind them, and the initial point from there on. */
  lemma AdaptivePoint(p: FunctionProblem, vector: seq<Element>, e: Element, point: seq<real>)
    requires |p.initialPoint| == p.dimension && |vector| < p.dimension && |point| == p.dimension
    requires forall j :: 0 <= j < p.dimension ==>
      point[j] == if j < |vector| then vector[j].value else if j == |vector| then e.value else p.initialPoint[j]
    ensures Adaptive(p, vector, e) == if p.lower <= e.value <= p.upper then Some(p.objective(point)) else None
  {
    assert point == Points(vector) + [e.value] + p.initialPoint[|vector| + 1..];
  }

  /** None when the vector is full or the candidate lies outside the box. */
  function Adaptive(p: FunctionProblem, vector: seq<Element>, e: Element): Option<real>
    requires |p.initialPoint| == p.dimension && |vector| <= p.dimension
  {
    if |vector| == p.dimension || e.value < p.lower || e.value > p.upper then None else Some(ValueWith(p, vector, e))
  }

  /** The candidates that have an adaptive value. */
  function Valued(p: FunctionProblem, vector: seq<Element>, candidates: seq<Element>): seq<Element>
    requires |p.initialPoint| == p.dimension && |vector| <= p.dimension
  {
    if candidates == [] then []
    else
      var last := candidates[|candidates| - 1];
      Valued(p, vector, candidates[..|candidates| - 1]) + if Adaptive(p, vector, last).Some? then [last] else []
  }

  function Values(p: FunctionProblem, vector: seq<Element>, entries: seq<Element>): (v: seq<real>)
    requires |vector| < |p.initialPoint|
    ensures |v| == |entries| && forall i :: 0 <= i < |v| ==> v[i] == ValueWith(p, vector, entries[i])
  {
    seq(|entries|, i requires 0 <= i < |entries| => ValueWith(p, vector, entries[i]))
  }

  // ----- extrema under the tolerance comparison

  /** The stream reductions: the first of two values that compare as equal is kept. */
  function MinFold(v: seq<real>): real
    requires v != []
  {
    if |v| == 1 then v[0]
    else
      var m := MinFold(v[..|v| - 1]);
      if CompareFunctionValue(m, v[|v| - 1]) <= 0 then m else v[|v| - 1]
  }

  function MaxFold(v: seq<real>): real
    requires v != []
  {
    if |v| == 1 then v[0]
    else
      var m := MaxFold(v[..|v| - 1]);
      if CompareFunctionValue(m, v[|v| - 1]) >= 0 then m else v[|v| - 1]
  }

  /** The folds do not drift: each is a value of the list, on its side of the first one, and less than
      one tolerance away from the true extremum. */
  lemma {:induction false} FoldsNearExtrema(v: seq<real>)
    requires v != []
    ensures MinFold(v) in v && MinFold(v) <= v[0] <= MaxFold(v) && MaxFold(v) in v
    ensures forall i :: 0 <= i < |v| ==> MinFold(v) < v[i] + TOLERANCE && v[i] - TOLERANCE < MaxFold(v)
  {
    if |v| > 1 {
      var init, last := v[..|v| - 1], v[|v| - 1];
      assert v == init + [last];
      FoldsNearExtrema(init);
    }
  }

  // ----- the restricted list

  function Spread(v: seq<real>): real
    requires v != []
  {
    MaxFold(v) - MinFold(v)
  }

  function Threshold(alpha: real, v: seq<real>): real
    requires v != []
  {
    MinFold(v) + alpha * Spread(v)
  }

  function Restrict(entries: seq<Element>, v: seq<real>, threshold: real): seq<Element>
    requires |entries| == |v|
  {
    if entries == [] then []
    else
      var last := |entries| - 1;
      Restrict(entries[..last], v[..last], threshold) + if v[last] <= threshold then [entries[last]] else []
  }

  lemma {:induction false} RestrictMembers(entries: seq<Element>, v: seq<real>, threshold: real)
    requires |entries| == |v|
    ensures forall e :: e in Restrict(entries, v, threshold) ==>
      exists i :: 0 <= i < |entries| && entries[i] == e && v[i] <= threshold
    ensures forall i :: 0 <= i < |entries| && v[i] <= threshold ==> entries[i] in Restrict(entries, v, threshold)
  {
    if entries != [] {
      var last := |entries| - 1;
      RestrictMembers(entries[..last], v[..last], threshold);
      var before := Restrict(entries[..last], v[..last], threshold);
      forall e | e in Restrict(entries, v, threshold)
        ensures exists i :: 0 <= i < |entries| && entries[i] == e && v[i] <= threshold
      {
        if e in before {
          var i :| 0 <= i < last && entries[..last][i] == e && v[..last][i] <= threshold;
          assert entries[i] == e && v[i] <= threshold;
        } else {
          assert entries[last] == e && v[last] <= threshold;
        }
      }
      forall i | 0 <= i < |entries| && v[i] <= threshold
        ensures entries[i] in Restrict(entries, v, threshold)
      {
        if i < last {
          assert entries[..last][i] in before;
        }
      }
    }
  }

  lemma NonNegative(a: real, b: real)
    requires a >= 0.0 && b >= 0.0
    ensures a * b >= 0.0
  {
  }

  /** For a greediness of at least 0 the restricted list is never empty. */
  lemma RestrictedNotEmpty(entries: seq<Element>, v: seq<real>, alpha: real)
    requires |entries| == |v| > 0 && alpha >= 0.0
    ensures Restrict(entries, v, Threshold(alpha, v)) != []
  {
    hide Restrict, MinFold, MaxFold;
    FoldsNearExtrema(v);
    NonNegative(alpha, Spread(v));
    var k :| 0 <= k < |v| && v[k] == MinFold(v);
    RestrictMembers(entries, v, Threshold(alpha, v));
    assert entries[k] in Restrict(entries, v, Threshold(alpha, v));
  }

  /** For any negative one it can be: two candidates of different values leave none. */
  lemma NegativeAlphaRestrictsToNothing(alpha: real, a: Element, b: Element)
    requires alpha < 0.0
    ensures Restrict([a, b], [0.0, 1.0], Threshold(alpha, [0.0, 1.0])) == []
  {
    var v := [0.0, 1.0];
    assert v[..1] == [0.0];
    assert MinFold(v) == 0.0 && MaxFold(v) == 1.0;
    assert Threshold(alpha, v) == alpha;
    assert Restrict([a, b][..1], v[..1], alpha) == Restrict([a, b][..1][..0], v[..1][..0], alpha) == [];
  }

  /** The restricted list is never empty, whatever the candidates and their values, exactly for a
      greediness of at least 0. */
  lemma NeverEmptyIff(alpha: real)
    ensures alpha >= 0.0
       <==> forall entries: seq<Element>, v: seq<real> :: |entries| == |v| > 0 ==>
              Restrict(entries, v, Threshold(alpha, v)) != []
  {
    hide Restrict, Threshold;
    if alpha >= 0.0 {
      forall entries: seq<Element>, v: seq<real> | |entries| == |v| > 0
        ensures Restrict(entries, v, Threshold(alpha, v)) != []
      {
        RestrictedNotEmpty(entries, v, alpha);
      }
    } else {
      var entries := [Element(0, 0.0), Element(1, 0.0)];
      NegativeAlphaRestrictsToNothing(alpha, entries[0], entries[1]);
      assert |entries| == |[0.0, 1.0]| && entries == [entries[0], entries[1]];
    }
  }

  ghost predicate Greedy(v: seq<real>, alpha: real, chosen: real)
    requires v != []
  {
    forall i :: 0 <= i < |v| ==> chosen < v[i] + TOLERANCE + alpha * Spread(v)
  }

  /** Whatever the restricted list holds is no worse than any entry by more than the tolerance and the
      part of the spread that the greediness allows. */
  lemma RestrictedIsGreedy(entries: seq<Element>, v: seq<real>, alpha: real, e: Element)
    requires |entries| == |v| > 0 && e in Restrict(entries, v, Threshold(alpha, v))
    ensures exists q :: 0 <= q < |v| && entries[q] == e && Greedy(v, alpha, v[q])
  {
    hide Restrict, MinFold, MaxFold, Spread;
    FoldsNearExtrema(v);
    RestrictMembers(entries, v, Threshold(alpha, v));
    var q :| 0 <= q < |entries| && entries[q] == e && v[q] <= Threshold(alpha, v);
  }

  // ----- one insertion

  /** The order in which the hash map of a step lists its entries, and the index drawn in that step. */
  datatype Draws = Draws(order: (nat, seq<Element>) -> seq<Element>, choice: nat -> nat)

  ghost predicate Reorders(d: Draws) {
    forall k, s :: multiset(d.order(k, s)) == multiset(s)
  }

  datatype Construction = Construction(solution: seq<Element>, candidates: seq<Element>)

  /** All candidates can take any coordinate. */
  ghost predicate Fit(p: FunctionProblem, candidates: seq<Element>) {
    forall i :: 0 <= i < |candidates| ==> p.lower <= candidates[i].value <= p.upper
  }

  lemma {:induction false} AllValued(p: FunctionProblem, vector: seq<Element>, candidates: seq<Element>)
    requires |p.initialPoint| == p.dimension && |vector| <= p.dimension && Fit(p, candidates)
    ensures Valued(p, vector, candidates) == if |vector| < p.dimension then candidates else []
  {
    if candidates != [] {
      var init, last := candidates[..|candidates| - 1], candidates[|candidates| - 1];
      AllValued(p, vector, init);
      assert candidates == init + [last];
    }
  }

  function Entries(p: FunctionProblem, d: Draws, k: nat, c: Construction): seq<Element>
    requires |p.initialPoint| == p.dimension && |c.solution| <= p.dimension
  {
    d.order(k, Valued(p, c.solution, c.candidates))
  }

  /** What step `k` inserts, or nothing when the construction breaks off. */
  function Insertion(p: FunctionProblem, alpha: real, d: Draws, k: nat, c: Construction): Option<Element>
    requires |p.initialPoint| == p.dimension && |c.solution| <= p.dimension
  {
    var entries := Entries(p, d, k, c);
    if entries == [] || |c.solution| == p.dimension then None
    else
      Drawn(Restricted(p, alpha, c.solution, entries), d.choice(k))
  }

  function Restricted(p: FunctionProblem, alpha: real, vector: seq<Element>, entries: seq<Element>): seq<Element>
    requires |vector| < |p.initialPoint| && entries != []
  {
    var v := Values(p, vector, entries);
    Restrict(entries, v, Threshold(alpha, v))
  }

  function Drawn(restricted: seq<Element>, choice: nat): (e: Option<Element>)
    ensures e.Some? <==> restricted != []
    ensures e.Some? ==> e.value in restricted
  {
    if restricted == [] then None else Some(restricted[choice % |restricted|])
  }

  /** The restricted list is drawn from by position, so any of its elements can be drawn. */
  lemma AnyIsDrawn(restricted: seq<Element>, choice: nat)
    requires choice < |restricted|
    ensures Drawn(restricted, choice) == Some(restricted[choice])
  {
    var n := |restricted|;
    assert choice % n == choice;
  }

  /** The restricted list holds exactly the entries within the threshold, which is the least value plus
      the part of the spread that the greediness allows. */
  lemma RestrictedIff(p: FunctionProblem, alpha: real, vector: seq<Element>, entries: seq<Element>, e: Element)
    requires |p.initialPoint| == p.dimension && |vector| < p.dimension && entries != []
    ensures var v := Values(p, vector, entries);
      e in Restricted(p, alpha, vector, entries) <==>
        e in entries && ValueWith(p, vector, e) <= MinFold(v) + alpha * (MaxFold(v) - MinFold(v))
  {
    hide Restrict, MinFold, MaxFold, ValueWith, Threshold;
    var v := Values(p, vector, entries);
    ThresholdIs(alpha, v);
    RestrictMembers(entries, v, Threshold(alpha, v));
    if e in Restricted(p, alpha, vector, entries) {
      var i :| 0 <= i < |entries| && entries[i] == e && v[i] <= Threshold(alpha, v);
      assert v[i] == ValueWith(p, vector, e);
    } else if e in entries {
      var i :| 0 <= i < |entries| && entries[i] == e;
      assert v[i] == ValueWith(p, vector, e);
    }
  }

  lemma ThresholdIs(alpha: real, v: seq<real>)
    requires v != []
    ensures Threshold(alpha, v) == MinFold(v) + alpha * (MaxFold(v) - MinFold(v))
  {
  }

  /** The vector and the candidates after `k` steps. */
  function After(p: FunctionProblem, alpha: real, d: Draws, candidates: seq<Element>, k: nat): (c: Construction)
    requires |p.initialPoint| == p.dimension
    ensures |c.solution| <= p.dimension
  {
    if k == 0 then Construction([], candidates)
    else
      var c := After(p, alpha, d, candidates, k - 1);
      match Insertion(p, alpha, d, k - 1, c)
      case None => c
      case Some(e) => Construction(c.solution + [e], RemoveFirst(c.candidates, e))
  }

  lemma EntriesAreCandidates(p: FunctionProblem, d: Draws, k: nat, c: Construction)
    requires |p.initialPoint| == p.dimension && |c.solution| <= p.dimension && Reorders(d) && Fit(p, c.candidates)
    ensures |c.solution| < p.dimension ==> multiset(Entries(p, d, k, c)) == multiset(c.candidates)
    ensures |c.solution| == p.dimension ==> Entries(p, d, k, c) == []
  {
    AllValued(p, c.solution, c.candidates);
    var entries := Entries(p, d, k, c);
    assert multiset(entries) == multiset(Valued(p, c.solution, c.candidates));
    assert |entries| == |multiset(entries)|;
  }

  /** A step inserts one of the candidates left unless the vector is full. */
  lemma InsertsUntilFull(p: FunctionProblem, alpha: real, d: Draws, k: nat, c: Construction)
    requires |p.initialPoint| == p.dimension && |c.solution| <= p.dimension && Reorders(d) && alpha >= 0.0
    requires Fit(p, c.candidates) && c.candidates != []
    ensures Insertion(p, alpha, d, k, c).Some? <==> |c.solution| < p.dimension
    ensures Insertion(p, alpha, d, k, c).Some? ==> Insertion(p, alpha, d, k, c).value in c.candidates
  {
    hide Entries, Restrict;
    EntriesAreCandidates(p, d, k, c);
    if |c.solution| < p.dimension {
      var entries := Entries(p, d, k, c);
      SameBag(entries, c.candidates);
      var v := Values(p, c.solution, entries);
      RestrictedNotEmpty(entries, v, alpha);
      RestrictMembers(entries, v, Threshold(alpha, v));
    }
  }

  lemma SameBag(a: seq<Element>, b: seq<Element>)
    requires multiset(a) == multiset(b)
    ensures |a| == |b| && forall e :: e in a <==> e in b
  {
    assert |a| == |multiset(a)| == |multiset(b)| == |b|;
    forall e
      ensures e in a <==> e in b
    {
      assert e in a <==> e in multiset(a);
    }
  }

  lemma FitWithout(p: FunctionProblem, candidates: seq<Element>, e: Element)
    requires Fit(p, candidates) && e in candidates
    ensures Fit(p, RemoveFirst(candidates, e)) && |RemoveFirst(candidates, e)| == |candidates| - 1
    ensures p.lower <= e.value <= p.upper
  {
    RemoveFirstMembers(candidates, e);
    var rest := RemoveFirst(candidates, e);
    forall i | 0 <= i < |rest|
      ensures rest[i] in candidates
    {
      assert rest[i] in multiset(rest);
    }
  }

  /** `k` of the candidates, all of them in the box, have moved into the vector. */
  ghost predicate Built(p: FunctionProblem, candidates: seq<Element>, c: Construction, k: nat) {
    && |c.solution| == k && Fit(p, c.solution)
    && Fit(p, c.candidates) && |c.candidates| + k == |candidates|
    && multiset(c.solution) + multiset(c.candidates) == multiset(candidates)
  }

  lemma InsertionBuilds(p: FunctionProblem, candidates: seq<Element>, c: Construction, k: nat, e: Element)
    requires Built(p, candidates, c, k) && e in c.candidates
    ensures Built(p, candidates, Construction(c.solution + [e], RemoveFirst(c.candidates, e)), k + 1)
  {
    hide Fit, RemoveFirst;
    FitWithout(p, c.candidates, e);
    FitMore(p, c.solution, e);
    BagMoves(c.solution, c.candidates, e);
  }

  /** After `k` steps there are `k` coordinates, all of them in the box, and `k` candidates fewer. */
  lemma {:induction false} StepsInsert(p: FunctionProblem, alpha: real, d: Draws, candidates: seq<Element>, k: nat)
    requires |p.initialPoint| == p.dimension && Reorders(d) && alpha >= 0.0
    requires Fit(p, candidates) && |candidates| >= p.dimension && k <= p.dimension
    ensures Built(p, candidates, After(p, alpha, d, candidates, k), k)
  {
    hide Insertion, Fit, After, Reorders;
    if k == 0 {
      NothingFits(p);
      NothingInserted(p, alpha, d, candidates);
      assert multiset([]) + multiset(candidates) == multiset(candidates);
    } else {
      StepsInsert(p, alpha, d, candidates, k - 1);
      var c := After(p, alpha, d, candidates, k - 1);
      Next(p, alpha, d, candidates, k - 1);
      InsertsUntilFull(p, alpha, d, k - 1, c);
      InsertionBuilds(p, candidates, c, k - 1, Insertion(p, alpha, d, k - 1, c).value);
    }
  }

  lemma NothingFits(p: FunctionProblem)
    ensures Fit(p, [])
  {
  }

  lemma FitMore(p: FunctionProblem, s: seq<Element>, e: Element)
    requires Fit(p, s) && p.lower <= e.value <= p.upper
    ensures Fit(p, s + [e])
  {
  }

  lemma BagMoves(s: seq<Element>, candidates: seq<Element>, e: Element)
    requires e in candidates
    ensures multiset(s + [e]) + multiset(RemoveFirst(candidates, e)) == multiset(s) + multiset(candidates)
  {
    hide RemoveFirst;
    RemoveFirstMembers(candidates, e);
    assert multiset(s + [e]) == multiset(s) + multiset{e};
  }

  /** Every choice is greedy: no candidate left is better by the tolerance plus the part of the spread
      that the greediness allows. */
  lemma ChoiceIsGreedy(p: FunctionProblem, alpha: real, d: Draws, candidates: seq<Element>, k: nat, x: Element)
    requires |p.initialPoint| == p.dimension && Reorders(d) && alpha >= 0.0
    requires Fit(p, candidates) && |candidates| >= p.dimension && k < p.dimension
    requires x in After(p, alpha, d, candidates, k).candidates
    ensures var c := After(p, alpha, d, candidates, k);
      && |c.solution| == k && Entries(p, d, k, c) != []
      && Insertion(p, alpha, d, k, c).Some?
      && ValueWith(p, c.solution, Insertion(p, alpha, d, k, c).value)
         < ValueWith(p, c.solution, x) + TOLERANCE + alpha * Spread(Values(p, c.solution, Entries(p, d, k, c)))
  {
    hide After, Threshold, Restrict, ValueWith, Spread;
    StepsInsert(p, alpha, d, candidates, k);
    var c := After(p, alpha, d, candidates, k);
    InsertsUntilFull(p, alpha, d, k, c);
    EntriesAreCandidates(p, d, k, c);
    var entries := Entries(p, d, k, c);
    var v := Values(p, c.solution, entries);
    var e := Insertion(p, alpha, d, k, c).value;
    RestrictedIsGreedy(entries, v, alpha, e);
    assert x in multiset(entries);
  }

  // ----- the loops

  /** Ten uniform draws for each coordinate; `None` is the exception of an empty range. */
  method GetCandidates(p: FunctionProblem, draws: nat -> real) returns (elements: Option<seq<Element>>)
    requires forall k :: p.lower < p.upper ==> p.lower < draws(k) < p.upper
    ensures elements == None <==> p.dimension > 0 && p.lower >= p.upper
    ensures elements.Some? ==> |elements.value| == p.dimension * MAX_VALUES && Fit(p, elements.value)
    ensures elements.Some? ==>
      forall i :: 0 <= i < |elements.value| ==> elements.value[i] == Element(i, draws(i))
  {
    var list: seq<Element> := [];
    for i := 0 to p.dimension
      invariant |list| == i * MAX_VALUES && (i > 0 ==> p.lower < p.upper)
      invariant forall k :: 0 <= k < |list| ==> list[k] == Element(k, draws(k))
    {
      for j := 0 to MAX_VALUES
        invariant |list| == i * MAX_VALUES + j && (|list| > 0 ==> p.lower < p.upper)
        invariant forall k :: 0 <= k < |list| ==> list[k] == Element(k, draws(k))
      {
        if p.lower >= p.upper {
          return None;
        }
        list := list + [Element(|list|, draws(|list|))];
      }
    }
    elements := Some(list);
  }

  /** Appends a coordinate, unless the vector is full: then it throws. */
  method AddElement(p: FunctionProblem, vector: seq<Element>, e: Element) returns (ok: bool, longer: seq<Element>)
    ensures ok <==> |vector| < p.dimension
    ensures longer == if ok then vector + [e] else vector
  {
    if |vector| >= p.dimension {
      return false, vector;
    }
    return true, vector + [e];
  }

  lemma NothingInserted(p: FunctionProblem, alpha: real, d: Draws, candidates: seq<Element>)
    requires |p.initialPoint| == p.dimension
    ensures After(p, alpha, d, candidates, 0) == Construction([], candidates)
  {
  }

  lemma Next(p: FunctionProblem, alpha: real, d: Draws, candidates: seq<Element>, k: nat)
    requires |p.initialPoint| == p.dimension
    ensures var c := After(p, alpha, d, candidates, k);
      After(p, alpha, d, candidates, k + 1)
      == match Insertion(p, alpha, d, k, c)
         case None => c
         case Some(e) => Construction(c.solution + [e], RemoveFirst(c.candidates, e))
  {
  }

  /** What one turn of the loop picks, or nothing when it breaks off. */
  method Pick(p: FunctionProblem, alpha: real, d: Draws, k: nat, c: Construction) returns (e: Option<Element>)
    requires |p.initialPoint| == p.dimension && |c.solution| <= p.dimension && Reorders(d) && Fit(p, c.candidates)
    ensures e == Insertion(p, alpha, d, k, c)
  {
    hide Restrict, Entries, Valued;
    EntriesAreCandidates(p, d, k, c);
    var entries := Entries(p, d, k, c);
    if entries == [] {
      return None;
    }
    var v := Values(p, c.solution, entries);
    var restricted := Restrict(entries, v, Threshold(alpha, v));
    if restricted == [] {
      return None;
    }
    return Drawn(restricted, d.choice(k));
  }

  /** The construction ends with a full vector inside the box after exactly as many insertions as there
      are coordinates; the guard of `AddElement` never fires and candidates never run out. */
  method Construct(p: FunctionProblem, alpha: real, d: Draws, initial: seq<Element>)
    returns (solution: seq<Element>, ghost insertions: nat, ghost guardFired: bool)
    requires |p.initialPoint| == p.dimension && Reorders(d) && alpha >= 0.0
    requires Fit(p, initial) && |initial| == p.dimension * MAX_VALUES
    ensures solution == After(p, alpha, d, initial, p.dimension).solution
    ensures InBox(p, Points(solution))
    ensures insertions == p.dimension && !guardFired
  {
    hide After, Insertion, Restrict, Threshold;
    solution, insertions, guardFired := [], 0, false;
    var candidates := initial;
    NothingInserted(p, alpha, d, initial);
    while candidates != []
      invariant insertions <= p.dimension && !guardFired
      invariant Construction(solution, candidates) == After(p, alpha, d, initial, insertions)
      invariant |solution| == insertions && |candidates| == |initial| - insertions
      decreases |candidates|
    {
      StepsInsert(p, alpha, d, initial, insertions);
      InsertsUntilFull(p, alpha, d, insertions, Construction(solution, candidates));
      var inserted := Pick(p, alpha, d, |solution|, Construction(solution, candidates));
      if inserted == None {
        break;
      }
      var e := inserted.value;
      var ok, longer := AddElement(p, solution, e);
      if !ok {
        guardFired := true;
        break;
      }
      FitWithout(p, candidates, e);
      Next(p, alpha, d, initial, insertions);
      solution, candidates := longer, RemoveFirst(candidates, e);
      insertions := insertions + 1;
    }
    StepsInsert(p, alpha, d, initial, p.dimension);
    assert insertions == p.dimension;
  }
}
