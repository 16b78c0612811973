/** Differential evolution: the differential step with clamping, and the selection between generations. */
module DifferentialEvolution {
  import opened Analyser
  import opened Options
  import opened FunctionProblems

  /** The random draws behind one offspring. */
  datatype Trial = Trial(id: nat, r1: nat, r2: nat, r3: nat, delta: nat, uniforms: seq<real>)

  datatype Settings = Settings(probC: real, scaleFactor: real)

  /** Three different members; with at least four members none of them is the one to be replaced. */
  predicate SampleOk(popSize: nat, i: nat, t: Trial) {
    && t.r1 < popSize && t.r2 < popSize && t.r3 < popSize
    && t.r1 != t.r2 && t.r1 != t.r3 && t.r2 != t.r3
    && (popSize >= 4 ==> t.r1 != i && t.r2 != i && t.r3 != i)
  }

  ghost predicate TrialsOk(p: FunctionProblem, popSize: nat, trials: seq<Trial>) {
    && |trials| == popSize
    && forall i :: 0 <= i < popSize ==>
         SampleOk(popSize, i, trials[i]) && trials[i].delta <= p.dimension && |trials[i].uniforms| == p.dimension
  }

  function Clamped(e: real, lower: real, upper: real): real {
    var raised := if e < lower then lower else e;
    if raised > upper then upper else raised
  }

  function Coordinate(p: FunctionProblem, cfg: Settings, s: seq<real>, r1: seq<real>, r2: seq<real>, r3: seq<real>,
                      t: Trial, j: nat): real
    requires j < |s| == |r1| == |r2| == |r3| == |t.uniforms|
  {
    if t.uniforms[j] < cfg.probC || j == t.delta
    then Clamped(r1[j] + cfg.scaleFactor * (r2[j] - r3[j]), p.lower, p.upper)
    else s[j]
  }

  function OffspringPoint(p: FunctionProblem, cfg: Settings, s: seq<real>, r1: seq<real>, r2: seq<real>, r3: seq<real>,
                          t: Trial): (x: seq<real>)
    requires |s| == |r1| == |r2| == |r3| == |t.uniforms| == p.dimension
    ensures |x| == p.dimension
  {
    seq(p.dimension, j requires 0 <= j < p.dimension => Coordinate(p, cfg, s, r1, r2, r3, t, j))
  }

  ghost predicate Sized(p: FunctionProblem, pop: seq<Solution>) {
    forall i :: 0 <= i < |pop| ==> |pop[i].point| == p.dimension
  }

  function Offspring(p: FunctionProblem, cfg: Settings, pop: seq<Solution>, i: nat, t: Trial): Solution
    requires i < |pop| && Sized(p, pop) && SampleOk(|pop|, i, t) && |t.uniforms| == p.dimension
  {
    var point := OffspringPoint(p, cfg, pop[i].point, pop[t.r1].point, pop[t.r2].point, pop[t.r3].point, t);
    Solution(t.id, point, p.objective(point))
  }

  function Winner(p: FunctionProblem, offspring: Solution, member: Solution): Solution {
    if InBox(p, offspring.point) && Compare(offspring, member) < 0 then offspring else member
  }

  /** The next population. */
  function Selected(p: FunctionProblem, cfg: Settings, pop: seq<Solution>, trials: seq<Trial>): (next: seq<Solution>)
    requires Sized(p, pop) && TrialsOk(p, |pop|, trials)
    ensures |next| == |pop|
  {
    seq(|pop|, i requires 0 <= i < |pop| => Winner(p, Offspring(p, cfg, pop, i, trials[i]), pop[i]))
  }

  /** The best solution after the slots of a population have been compared with it in turn. */
  function BestAfter(best: Solution, pop: seq<Solution>): Solution {
    if pop == [] then best
    else
      var b := BestAfter(best, pop[..|pop| - 1]);
      if Compare(pop[|pop| - 1], b) < 0 then pop[|pop| - 1] else b
  }

  lemma BestOfNone(best: Solution)
    ensures BestAfter(best, []) == best
  {
  }

  lemma BestAppends(best: Solution, pop: seq<Solution>, s: Solution)
    ensures BestAfter(best, pop + [s]) == if Compare(s, BestAfter(best, pop)) < 0 then s else BestAfter(best, pop)
  {
    assert (pop + [s])[..|pop|] == pop;
  }

  datatype State = State(population: seq<Solution>, best: Solution)

  ghost function Generation(p: FunctionProblem, cfg: Settings, s: State, trials: seq<Trial>): State
    requires Sized(p, s.population) && TrialsOk(p, |s.population|, trials)
  {
    var next := Selected(p, cfg, s.population, trials);
    State(next, BestAfter(s.best, next))
  }

  /** The states of a run, one per generation. */
  ghost predicate IsRun(p: FunctionProblem, cfg: Settings, initial: seq<Solution>, states: seq<State>,
                        draws: seq<seq<Trial>>)
  {
    && |states| == |draws| + 1 && initial != []
    && states[0] == State(initial, initial[0])
    && forall g :: 0 <= g < |draws| ==> Breeds(p, cfg, states[g], draws[g], states[g + 1])
  }

  ghost predicate Breeds(p: FunctionProblem, cfg: Settings, s: State, trials: seq<Trial>, t: State) {
    && Sized(p, s.population) && TrialsOk(p, |s.population|, trials)
    && t == Generation(p, cfg, s, trials)
  }

  // ----- the box

  ghost predicate AllInBox(p: FunctionProblem, pop: seq<Solution>) {
    forall i :: 0 <= i < |pop| ==> InBox(p, pop[i].point)
  }

  /** An offspring of members of the box lies in the box, whatever is drawn. */
  lemma OffspringInBox(p: FunctionProblem, cfg: Settings, pop: seq<Solution>, i: nat, t: Trial)
    requires i < |pop| && AllInBox(p, pop) && SampleOk(|pop|, i, t) && |t.uniforms| == p.dimension
    ensures InBox(p, Offspring(p, cfg, pop, i, t).point)
  {
    var point := Offspring(p, cfg, pop, i, t).point;
    forall j | 0 <= j < p.dimension
      ensures p.lower <= point[j] <= p.upper
    {
      assert InBox(p, pop[i].point);
      assert p.lower <= pop[i].point[j] <= p.upper;
    }
  }

  ghost predicate AllViable(p: FunctionProblem, cfg: Settings, pop: seq<Solution>, trials: seq<Trial>) {
    && Sized(p, pop) && TrialsOk(p, |pop|, trials)
    && forall i :: 0 <= i < |pop| ==> InBox(p, Offspring(p, cfg, pop, i, trials[i]).point)
  }

  lemma GenerationInBox(p: FunctionProblem, cfg: Settings, s: State, trials: seq<Trial>, t: State)
    requires Breeds(p, cfg, s, trials, t) && AllInBox(p, s.population)
    ensures AllViable(p, cfg, s.population, trials)
    ensures |t.population| == |s.population| && AllInBox(p, t.population)
  {
    forall i | 0 <= i < |s.population|
      ensures InBox(p, Offspring(p, cfg, s.population, i, trials[i]).point)
    {
      OffspringInBox(p, cfg, s.population, i, trials[i]);
    }
  }

  /** So in every generation every offspring is viable: the branch for one that is not is never taken. */
  lemma {:induction false} RunStaysInBox(p: FunctionProblem, cfg: Settings, initial: seq<Solution>, states: seq<State>,
                                         draws: seq<seq<Trial>>, g: nat)
    requires IsRun(p, cfg, initial, states, draws) && AllInBox(p, initial) && g < |states|
    ensures |states[g].population| == |initial| && AllInBox(p, states[g].population)
    ensures g < |draws| ==> AllViable(p, cfg, states[g].population, draws[g])
  {
    hide AllInBox, AllViable, Generation;
    if g > 0 {
      RunStaysInBox(p, cfg, initial, states, draws, g - 1);
      assert Breeds(p, cfg, states[g - 1], draws[g - 1], states[g]);
      GenerationInBox(p, cfg, states[g - 1], draws[g - 1], states[g]);
    }
    if g < |draws| {
      assert Breeds(p, cfg, states[g], draws[g], states[g + 1]);
      GenerationInBox(p, cfg, states[g], draws[g], states[g + 1]);
    }
  }

  // ----- the step and the selection, by what they do

  /** The new coordinate, wherever it is drawn: the differential step where it lies in the box, the
      nearer bound where it does not; elsewhere the old coordinate. */
  ghost predicate Steps(p: FunctionProblem, cfg: Settings, s: seq<real>, r1: seq<real>, r2: seq<real>, r3: seq<real>,
                        t: Trial, x: seq<real>)
    requires |s| == |r1| == |r2| == |r3| == |t.uniforms| == p.dimension
  {
    && |x| == p.dimension
    && forall j :: 0 <= j < p.dimension ==>
         var drawn := t.uniforms[j] < cfg.probC || j == t.delta;
         var e := r1[j] + cfg.scaleFactor * (r2[j] - r3[j]);
         && (!drawn ==> x[j] == s[j])
         && (drawn && p.lower <= e <= p.upper ==> x[j] == e)
         && (drawn && e < p.lower <= p.upper ==> x[j] == p.lower)
         && (drawn && p.lower <= p.upper < e ==> x[j] == p.upper)
  }

  /** An offspring is bred from the member it may replace and the three drawn for it, and evaluated. */
  lemma OffspringSteps(p: FunctionProblem, cfg: Settings, pop: seq<Solution>, i: nat, t: Trial)
    requires i < |pop| && Sized(p, pop) && SampleOk(|pop|, i, t) && |t.uniforms| == p.dimension
    ensures var child := Offspring(p, cfg, pop, i, t);
      && Steps(p, cfg, pop[i].point, pop[t.r1].point, pop[t.r2].point, pop[t.r3].point, t, child.point)
      && Evaluated(p, child)
  {
  }

  /** Each slot of the next population holds the old member or its offspring: the offspring iff that is
      viable, lies at another point and is at least the tolerance better. So what is kept is less than
      one tolerance above every viable offspring. */
  lemma SlotSelects(p: FunctionProblem, cfg: Settings, pop: seq<Solution>, trials: seq<Trial>, i: nat)
    requires Sized(p, pop) && TrialsOk(p, |pop|, trials) && i < |pop|
    ensures var (next, child) := (Selected(p, cfg, pop, trials)[i], Offspring(p, cfg, pop, i, trials[i]));
      && (next == child || next == pop[i])
      && (child != pop[i] ==>
            (next == child <==>
               InBox(p, child.point) && child.point != pop[i].point && child.value + TOLERANCE <= pop[i].value))
      && (AllEvaluated(p, pop) && InBox(p, child.point) ==> next.value < child.value + TOLERANCE)
  {
    hide Offspring;
    var child := Offspring(p, cfg, pop, i, trials[i]);
    OffspringSteps(p, cfg, pop, i, trials[i]);
    if AllEvaluated(p, pop) {
      assert Evaluated(p, pop[i]);
      CompareMeans(p, child, pop[i]);
    }
  }

  // ----- values

  ghost predicate AllEvaluated(p: FunctionProblem, pop: seq<Solution>) {
    forall i :: 0 <= i < |pop| ==> Evaluated(p, pop[i])
  }

  /** Each slot keeps its solution or gains at least the tolerance. */
  ghost predicate NoWorse(before: seq<Solution>, after: seq<Solution>) {
    && |before| == |after|
    && forall i :: 0 <= i < |before| ==> after[i] == before[i] || after[i].value + TOLERANCE <= before[i].value
  }

  lemma CompareMeans(p: FunctionProblem, a: Solution, b: Solution)
    ensures Compare(a, b) < 0 ==> a.value + TOLERANCE <= b.value
    ensures Evaluated(p, a) && Evaluated(p, b) && Compare(a, b) >= 0 ==> b.value < a.value + TOLERANCE
  {
  }

  lemma SelectionNoWorse(p: FunctionProblem, cfg: Settings, pop: seq<Solution>, trials: seq<Trial>)
    requires Sized(p, pop) && TrialsOk(p, |pop|, trials)
    ensures NoWorse(pop, Selected(p, cfg, pop, trials))
    ensures AllEvaluated(p, pop) ==> AllEvaluated(p, Selected(p, cfg, pop, trials))
  {
  }

  lemma {:induction false} BestAfterMeans(p: FunctionProblem, best: Solution, pop: seq<Solution>)
    requires Evaluated(p, best) && AllEvaluated(p, pop)
    ensures var b := BestAfter(best, pop);
      && Evaluated(p, b) && (b == best || (b in pop && b.value + TOLERANCE <= best.value))
      && forall i :: 0 <= i < |pop| ==> b.value < pop[i].value + TOLERANCE
  {
    if pop != [] {
      var init, last := pop[..|pop| - 1], pop[|pop| - 1];
      assert pop == init + [last];
      BestAfterMeans(p, best, init);
      CompareMeans(p, last, BestAfter(best, init));
    }
  }

  /** While the best solution sits in a slot, the next best sits in a slot of the next population. */
  lemma BestStaysMember(p: FunctionProblem, best: Solution, pop: seq<Solution>, next: seq<Solution>)
    requires Evaluated(p, best) && AllEvaluated(p, next) && NoWorse(pop, next) && best in pop
    ensures BestAfter(best, next) in next
  {
    var j :| 0 <= j < |pop| && pop[j] == best;
    BestAfterMeans(p, best, next);
    var b := BestAfter(best, next);
    assert b.value < next[j].value + TOLERANCE;
  }

  /** Less than one tolerance above each of them. */
  ghost predicate Near(best: Solution, pop: seq<Solution>) {
    forall i :: 0 <= i < |pop| ==> best.value < pop[i].value + TOLERANCE
  }

  lemma GenerationNeverWorsens(p: FunctionProblem, cfg: Settings, s: State, trials: seq<Trial>, t: State)
    requires Breeds(p, cfg, s, trials, t) && AllEvaluated(p, s.population) && s.best in s.population
    ensures NoWorse(s.population, t.population) && AllEvaluated(p, t.population)
    ensures t.best in t.population && t.best.value <= s.best.value && Near(t.best, t.population)
  {
    hide Selected, BestAfter, Sized, TrialsOk;
    SelectionNoWorse(p, cfg, s.population, trials);
    var j :| 0 <= j < |s.population| && s.population[j] == s.best;
    assert Evaluated(p, s.population[j]);
    BestAfterMeans(p, s.best, t.population);
    BestStaysMember(p, s.best, s.population, t.population);
  }

  lemma NearThrough(best: Solution, a: seq<Solution>, b: seq<Solution>)
    requires NoWorse(a, b) && Near(best, b)
    ensures Near(best, a)
  {
  }

  /** Over any number of generations no slot ever worsens, the best solution is a member of the
      population and never worse than the first initial member; after the first generation it is less
      than one tolerance above every member, initial or present. */
  lemma {:induction false} RunNeverWorsens(p: FunctionProblem, cfg: Settings, initial: seq<Solution>, states: seq<State>,
                                           draws: seq<seq<Trial>>, g: nat)
    requires IsRun(p, cfg, initial, states, draws) && AllEvaluated(p, initial) && g < |states|
    ensures NoWorse(initial, states[g].population) && AllEvaluated(p, states[g].population)
    ensures states[g].best in states[g].population && states[g].best.value <= initial[0].value
    ensures g > 0 ==> Near(states[g].best, states[g].population) && Near(states[g].best, initial)
  {
    hide NoWorse, Near, AllEvaluated, Generation, Sized, TrialsOk;
    if g == 0 {
      NothingWorse(initial);
    } else {
      RunNeverWorsens(p, cfg, initial, states, draws, g - 1);
      assert Breeds(p, cfg, states[g - 1], draws[g - 1], states[g]);
      GenerationNeverWorsens(p, cfg, states[g - 1], draws[g - 1], states[g]);
      NoWorseTrans(initial, states[g - 1].population, states[g].population);
      NearThrough(states[g].best, initial, states[g].population);
    }
  }

  lemma NothingWorse(a: seq<Solution>)
    ensures NoWorse(a, a)
  {
  }

  lemma NoWorseTrans(a: seq<Solution>, b: seq<Solution>, c: seq<Solution>)
    requires NoWorse(a, b) && NoWorse(b, c)
    ensures NoWorse(a, c)
  {
  }

  // ----- the result against the offspring

  /** The offspring takes its slot, or is no better than the member that keeps it. */
  predicate TakenOrNoBetter(p: FunctionProblem, child: Solution, member: Solution) {
    Winner(p, child, member) == child || member.value <= child.value
  }

  lemma WinnerMargin(p: FunctionProblem, child: Solution, member: Solution, best: Solution)
    requires Evaluated(p, child) && Evaluated(p, member) && InBox(p, child.point)
    requires best.value < Winner(p, child, member).value + TOLERANCE
    ensures best.value < child.value + 2.0 * TOLERANCE
    ensures TakenOrNoBetter(p, child, member) ==> best.value < child.value + TOLERANCE
  {
  }

  lemma GenerationMargin(p: FunctionProblem, cfg: Settings, s: State, trials: seq<Trial>, t: State, i: nat)
    requires Breeds(p, cfg, s, trials, t) && AllEvaluated(p, s.population) && s.best in s.population
    requires i < |s.population| && InBox(p, Offspring(p, cfg, s.population, i, trials[i]).point)
    ensures var child := Offspring(p, cfg, s.population, i, trials[i]);
      && t.best.value < child.value + 2.0 * TOLERANCE
      && (TakenOrNoBetter(p, child, s.population[i]) ==> t.best.value < child.value + TOLERANCE)
  {
    hide NoWorse, BestAfter, Winner;
    GenerationNeverWorsens(p, cfg, s, trials, t);
    OffspringSteps(p, cfg, s.population, i, trials[i]);
    assert t.population[i] == Winner(p, Offspring(p, cfg, s.population, i, trials[i]), s.population[i]);
    assert Evaluated(p, s.population[i]);
    WinnerMargin(p, Offspring(p, cfg, s.population, i, trials[i]), s.population[i], t.best);
  }

  lemma {:induction false} BestNeverRises(p: FunctionProblem, cfg: Settings, initial: seq<Solution>, states: seq<State>,
                                          draws: seq<seq<Trial>>, g: nat, h: nat)
    requires IsRun(p, cfg, initial, states, draws) && AllEvaluated(p, initial) && g <= h < |states|
    ensures states[h].best.value <= states[g].best.value
  {
    hide Generation, Sized, TrialsOk, NoWorse, Near;
    if g < h {
      BestNeverRises(p, cfg, initial, states, draws, g, h - 1);
      RunNeverWorsens(p, cfg, initial, states, draws, h - 1);
      assert Breeds(p, cfg, states[h - 1], draws[h - 1], states[h]);
      GenerationNeverWorsens(p, cfg, states[h - 1], draws[h - 1], states[h]);
    }
  }

  /** The result is less than two tolerances above every viable offspring bred in any generation, and
      less than one above each that took its slot or was no better than the member that kept it. */
  lemma RunBeatsOffspring(p: FunctionProblem, cfg: Settings, initial: seq<Solution>, states: seq<State>,
                          draws: seq<seq<Trial>>, g: nat, i: nat)
    requires IsRun(p, cfg, initial, states, draws) && AllEvaluated(p, initial) && g < |draws|
    requires i < |states[g].population|
    ensures Sized(p, states[g].population) && TrialsOk(p, |states[g].population|, draws[g])
    ensures var (child, member) := (Offspring(p, cfg, states[g].population, i, draws[g][i]), states[g].population[i]);
      InBox(p, child.point) ==>
        && states[|draws|].best.value < child.value + 2.0 * TOLERANCE
        && (TakenOrNoBetter(p, child, member) ==> states[|draws|].best.value < child.value + TOLERANCE)
  {
    hide Generation, NoWorse, Near, Winner;
    assert Breeds(p, cfg, states[g], draws[g], states[g + 1]);
    RunNeverWorsens(p, cfg, initial, states, draws, g);
    BestNeverRises(p, cfg, initial, states, draws, g + 1, |draws|);
    if InBox(p, Offspring(p, cfg, states[g].population, i, draws[g][i]).point) {
      GenerationMargin(p, cfg, states[g], draws[g], states[g + 1], i);
    }
  }

  /** One tolerance is what a slot guarantees, whatever the best solution was before at another point,
      exactly when the offspring takes the slot or is no better than the member that keeps it. */
  lemma OneToleranceIff(p: FunctionProblem, child: Solution, member: Solution)
    requires Evaluated(p, child) && Evaluated(p, member) && InBox(p, child.point)
    ensures TakenOrNoBetter(p, child, member)
       <==> forall best: Solution :: best.point != Winner(p, child, member).point ==>
              BestAfter(best, [Winner(p, child, member)]).value < child.value + TOLERANCE
  {
    hide Winner;
    var w := Winner(p, child, member);
    forall best: Solution | best.point != w.point
      ensures BestAfter(best, [w]) == if w.value + TOLERANCE <= best.value then w else best
    {
      BestOfNone(best);
      BestAppends(best, [], w);
      assert [] + [w] == [w];
    }
    KeptMeans(p, child, member);
    if !TakenOrNoBetter(p, child, member) {
      var best := Solution(0, w.point + [0.0], child.value + TOLERANCE);
      assert best.point != w.point;
      assert BestAfter(best, [w]) == best;
    }
  }

  lemma KeptMeans(p: FunctionProblem, child: Solution, member: Solution)
    requires Evaluated(p, child) && Evaluated(p, member) && InBox(p, child.point)
    ensures Winner(p, child, member) == child || Winner(p, child, member) == member
    ensures Winner(p, child, member).value < child.value + TOLERANCE
  {
  }

  /** The value of the only coordinate, on the box from -1 to 1. */
  function Line(): FunctionProblem {
    FunctionProblem(1, -1.0, 1.0, (x: seq<real>) => if x == [] then 0.0 else x[0], [0.0])
  }

  /** A run whose result is more than one tolerance above an offspring it bred: the offspring beats the
      member of its slot, and that member the best solution, each by less than the tolerance. */
  lemma OneToleranceFails() returns (initial: seq<Solution>, states: seq<State>, draws: seq<seq<Trial>>)
    ensures IsRun(Line(), Settings(0.0, 1.0), initial, states, draws) && |draws| == 1 && |initial| == 3
    ensures AllEvaluated(Line(), initial) && AllInBox(Line(), initial)
    ensures Sized(Line(), initial) && TrialsOk(Line(), 3, draws[0])
    ensures var child := Offspring(Line(), Settings(0.0, 1.0), initial, 1, draws[0][1]);
      InBox(Line(), child.point) && states[1].best.value > child.value + TOLERANCE
  {
    var p, cfg := Line(), Settings(0.0, 1.0);
    var a, b, c := Solution(0, [0.000009], 0.000009), Solution(1, [0.0], 0.0), Solution(2, [0.0], 0.0);
    initial := [a, b, c];
    var trials := [Trial(3, 0, 1, 2, 1, [0.5]), Trial(4, 1, 2, 0, 0, [0.5]), Trial(5, 0, 1, 2, 1, [0.5])];
    draws := [trials];
    hide Offspring, BestAfter, Winner, Selected;
    ChildrenOfExample(p, cfg, initial, trials);
    NothingSelected(p, cfg, initial, trials);
    BestOfThree(a, b, c);
    states := [State(initial, a), State(initial, a)];
  }

  lemma ChildrenOfExample(p: FunctionProblem, cfg: Settings, pop: seq<Solution>, trials: seq<Trial>)
    requires p == Line() && cfg == Settings(0.0, 1.0)
    requires pop == [Solution(0, [0.000009], 0.000009), Solution(1, [0.0], 0.0), Solution(2, [0.0], 0.0)]
    requires trials == [Trial(3, 0, 1, 2, 1, [0.5]), Trial(4, 1, 2, 0, 0, [0.5]), Trial(5, 0, 1, 2, 1, [0.5])]
    ensures Sized(p, pop) && TrialsOk(p, 3, trials)
    ensures Offspring(p, cfg, pop, 0, trials[0]).point == [0.000009]
    ensures Offspring(p, cfg, pop, 1, trials[1]).point == [-0.000009]
    ensures Offspring(p, cfg, pop, 1, trials[1]).value == -0.000009
    ensures Offspring(p, cfg, pop, 2, trials[2]).point == [0.0]
  {
  }

  lemma NothingSelected(p: FunctionProblem, cfg: Settings, pop: seq<Solution>, trials: seq<Trial>)
    requires p == Line() && cfg == Settings(0.0, 1.0)
    requires pop == [Solution(0, [0.000009], 0.000009), Solution(1, [0.0], 0.0), Solution(2, [0.0], 0.0)]
    requires trials == [Trial(3, 0, 1, 2, 1, [0.5]), Trial(4, 1, 2, 0, 0, [0.5]), Trial(5, 0, 1, 2, 1, [0.5])]
    requires Sized(p, pop) && TrialsOk(p, 3, trials)
    ensures Selected(p, cfg, pop, trials) == pop
  {
    hide Offspring;
    ChildrenOfExample(p, cfg, pop, trials);
    var next := Selected(p, cfg, pop, trials);
    assert next[0] == pop[0] && next[1] == pop[1] && next[2] == pop[2];
  }

  lemma BestOfThree(a: Solution, b: Solution, c: Solution)
    requires Compare(b, a) >= 0 && Compare(c, a) >= 0
    ensures BestAfter(a, [a, b, c]) == a
  {
    BestOfNone(a);
    BestAppends(a, [], a);
    BestAppends(a, [a], b);
    BestAppends(a, [a, b], c);
    assert [] + [a] == [a] && [a] + [b] == [a, b] && [a, b] + [c] == [a, b, c];
  }

  /** When the result is less than one tolerance above every initial member: iff a generation has been
      bred, or the first member happened to be that good. */
  lemma ResultNearIff(p: FunctionProblem, cfg: Settings, initial: seq<Solution>, states: seq<State>, draws: seq<seq<Trial>>)
    requires IsRun(p, cfg, initial, states, draws) && AllEvaluated(p, initial)
    ensures Near(states[|draws|].best, initial) <==> draws != [] || Near(initial[0], initial)
  {
    RunNeverWorsens(p, cfg, initial, states, draws, |draws|);
  }

  /** Without a generation it can be arbitrarily worse. */
  lemma WorseByAnyMargin(p: FunctionProblem, cfg: Settings, margin: real) returns (initial: seq<Solution>, states: seq<State>)
    requires margin > TOLERANCE && p.objective([0.0]) == margin && p.objective([1.0]) == 0.0
    ensures IsRun(p, cfg, initial, states, []) && AllEvaluated(p, initial) && |initial| == 2
    ensures states[0].best.value == initial[1].value + margin && !Near(states[0].best, initial)
  {
    initial := [Solution(0, [0.0], margin), Solution(1, [1.0], 0.0)];
    states := [State(initial, initial[0])];
    assert initial[1].value + TOLERANCE <= states[0].best.value;
  }

  // ----- the loops

  class DE {
    const problem: FunctionProblem
    const cfg: Settings
    var population: seq<Solution>
    var bestSolution: Option<Solution>

    constructor (problem: FunctionProblem, cfg: Settings)
      ensures this.problem == problem && this.cfg == cfg && population == [] && bestSolution == None
    {
      this.problem, this.cfg, population, bestSolution := problem, cfg, [], None;
    }

    /** The differential step with its clamping. */
    method DeSum(s: seq<real>, r1: seq<real>, r2: seq<real>, r3: seq<real>, t: Trial) returns (solution: seq<real>)
      requires |s| == |r1| == |r2| == |r3| == |t.uniforms| == problem.dimension
      ensures solution == OffspringPoint(problem, cfg, s, r1, r2, r3, t)
      ensures Steps(problem, cfg, s, r1, r2, r3, t, solution)
    {
      solution := [];
      for j := 0 to problem.dimension
        invariant |solution| == j
        invariant forall k :: 0 <= k < j ==> solution[k] == Coordinate(problem, cfg, s, r1, r2, r3, t, k)
      {
        var element := s[j];
        if t.uniforms[j] < cfg.probC || j == t.delta {
          var e := r1[j] + cfg.scaleFactor * (r2[j] - r3[j]);
          if e < problem.lower {
            e := problem.lower;
          }
          if e > problem.upper {
            e := problem.upper;
          }
          element := e;
        }
        solution := solution + [element];
      }
    }

    method Breed(trials: seq<Trial>) returns (offspring: seq<Solution>)
      requires Sized(problem, population) && TrialsOk(problem, |population|, trials)
      ensures |offspring| == |population| && Sized(problem, offspring)
      ensures forall i :: 0 <= i < |population| ==> offspring[i] == Offspring(problem, cfg, population, i, trials[i])
    {
      offspring := [];
      for i := 0 to |population|
        invariant |offspring| == i
        invariant forall k :: 0 <= k < i ==> offspring[k] == Offspring(problem, cfg, population, k, trials[k])
      {
        var t := trials[i];
        var point := DeSum(population[i].point, population[t.r1].point, population[t.r2].point, population[t.r3].point, t);
        offspring := offspring + [Solution(t.id, point, problem.objective(point))];
      }
    }

    /** One turn of the outer loop. */
    method NextGeneration(trials: seq<Trial>)
      requires Sized(problem, population) && TrialsOk(problem, |population|, trials) && bestSolution.Some?
      modifies this
      ensures bestSolution.Some? && Sized(problem, population) && |population| == |old(population)|
      ensures State(population, bestSolution.value)
           == Generation(problem, cfg, State(old(population), old(bestSolution).value), trials)
    {
      hide Offspring, BestAfter, Compare;
      var offspring := Breed(trials);
      BestOfNone(old(bestSolution).value);
      var nextPopulation: seq<Solution> := [];
      for i := 0 to |population|
        invariant |nextPopulation| == i && bestSolution.Some? && population == old(population)
        invariant forall k :: 0 <= k < i ==> nextPopulation[k] == Winner(problem, offspring[k], population[k])
        invariant bestSolution.value == BestAfter(old(bestSolution).value, nextPopulation)
      {
        var nextSolution := population[i];
        var viable := CheckViability(problem, offspring[i].point);
        if viable {
          if Compare(offspring[i], population[i]) < 0 {
            nextSolution := offspring[i];
          }
        }
        if Compare(nextSolution, bestSolution.value) < 0 {
          bestSolution := Some(nextSolution);
        }
        BestAppends(old(bestSolution).value, nextPopulation, nextSolution);
        nextPopulation := nextPopulation + [nextSolution];
      }
      population := nextPopulation;
      assert population == Selected(problem, cfg, old(population), trials);
    }

    /** The outer loop, one turn for each list of trials; `states` are the generations. */
    method Evolve(draws: seq<seq<Trial>>) returns (ghost states: seq<State>)
      requires population != [] && bestSolution == Some(population[0]) && Sized(problem, population)
      requires forall g :: 0 <= g < |draws| ==> TrialsOk(problem, |population|, draws[g])
      modifies this
      ensures IsRun(problem, cfg, old(population), states, draws)
      ensures bestSolution == Some(states[|draws|].best)
    {
      hide TrialsOk, Generation;
      states := [State(population, population[0])];
      for g := 0 to |draws|
        invariant |states| == g + 1 && Sized(problem, population) && |population| == |old(population)|
        invariant bestSolution == Some(states[g].best) && population == states[g].population
        invariant states[0] == State(old(population), old(population)[0])
        invariant forall k :: 0 <= k < g ==> Breeds(problem, cfg, states[k], draws[k], states[k + 1])
      {
        NextGeneration(draws[g]);
        states := states + [State(population, bestSolution.value)];
        assert Breeds(problem, cfg, states[g], draws[g], states[g + 1]);
      }
    }

    /** `draws` holds one list of trials for each generation the stop condition allows. `None` is the
        exception of a sample of three out of fewer members. */
    method RunMetaHeuristic(externalSolution: seq<Solution>, draws: seq<seq<Trial>>)
      returns (result: Option<seq<Solution>>, ghost states: seq<State>)
      requires Sized(problem, externalSolution)
      requires |externalSolution| >= 3 ==>
        forall g :: 0 <= g < |draws| ==> TrialsOk(problem, |externalSolution|, draws[g])
      modifies this
      ensures externalSolution == [] ==> result == Some([])
      ensures 0 < |externalSolution| < 3 ==> result == if draws == [] then Some([externalSolution[0]]) else None
      ensures |externalSolution| >= 3 ==>
        IsRun(problem, cfg, externalSolution, states, draws) && result == Some([states[|draws|].best])
    {
      population, states := externalSolution, [];
      if |externalSolution| == 0 {
        return Some([]), [];
      }
      bestSolution := Some(population[0]);
      if |externalSolution| < 3 && draws != [] {
        return None, [];
      }
      states := Evolve(draws);
      result := Some([bestSolution.value]);
    }
  }
}
