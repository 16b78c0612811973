/** Iterated local search: the disturbance-level state machine, the best solution, and the stop after a
    number of iterations. */
module IteratedLocalSearch {
  import opened Analyser
  import opened Options

  datatype Settings = Settings(initialDisturbLevel: int, disturbThreshold: int, disturbLevel: int)

  /** The outcome of one perturbation and local search. */
  datatype Found = Found(solution: Solution, viable: bool)

  /** What the perturbation and the local search return at an iteration, for a current solution and a level. */
  type Search = (nat, Solution, int) -> Found

  datatype State = State(best: Solution, current: Solution, level: int, waited: int, unimproved: int)

  function Initial(cfg: Settings, best: Solution): State {
    State(best, best, cfg.initialDisturbLevel, 0, 0)
  }

  /** The local search result became the best solution. */
  predicate Improves(s: State, found: Found) {
    found.viable && GetBestSolution(found.solution, s.best).point == found.solution.point
  }

  function Accepted(cfg: Settings, s: State, found: Found): State {
    if !found.viable then s
    else
      var best := GetBestSolution(found.solution, s.best);
      if best.point == found.solution.point
      then State(best, found.solution, cfg.initialDisturbLevel, -1, -1)
      else s.(best := best)
  }

  function Advanced(cfg: Settings, s: State): State {
    if s.level < cfg.disturbLevel && s.waited < cfg.disturbThreshold then s.(waited := s.waited + 1)
    else if s.level < cfg.disturbLevel then s.(level := s.level + 1, waited := 0, unimproved := s.unimproved + 1)
    else s.(level := cfg.initialDisturbLevel, waited := 0, unimproved := s.unimproved + 1)
  }

  /** The state after `k` iterations. */
  function After(cfg: Settings, search: Search, best: Solution, k: nat): State {
    if k == 0 then Initial(cfg, best)
    else
      var s := After(cfg, search, best, k - 1);
      Advanced(cfg, Accepted(cfg, s, search(k - 1, s.current, s.level)))
  }

  // ----- the closed form of the level

  /** How many iterations one level lasts. */
  function Width(cfg: Settings): (w: nat)
    ensures w >= 1
  {
    if cfg.disturbThreshold > 0 then cfg.disturbThreshold + 1 else 1
  }

  /** After so many iterations without an improvement the level is back at its start. */
  function Period(cfg: Settings): (p: nat)
    ensures p >= 1
  {
    if cfg.disturbLevel <= cfg.initialDisturbLevel then 1
    else Product(cfg.disturbLevel - cfg.initialDisturbLevel, Width(cfg)) + 1
  }

  function Product(a: nat, b: nat): nat {
    a * b
  }

  /** The iteration after an improvement starts at this phase: the counter is at -1 when it improves,
      which only a negative threshold does not wait for. */
  function PhaseAfterImprovement(cfg: Settings): nat {
    if cfg.disturbThreshold < 0 && cfg.initialDisturbLevel < cfg.disturbLevel then 1 else 0
  }

  ghost predicate InPhase(cfg: Settings, s: State, phase: nat) {
    && phase < Period(cfg)
    && s.level == cfg.initialDisturbLevel + phase / Width(cfg)
    && s.waited == phase % Width(cfg)
  }

  lemma DivisionStep(x: nat, w: nat)
    requires w >= 1
    ensures x % w < w
    ensures x % w + 1 < w ==> (x + 1) / w == x / w && (x + 1) % w == x % w + 1
    ensures x % w + 1 == w ==> (x + 1) / w == x / w + 1 && (x + 1) % w == 0
  {
    var q, r := x / w, x % w;
    assert x == w * q + r;
    if r + 1 < w {
      QuotientUnique(x + 1, w, q, r + 1);
    } else {
      assert x + 1 == w * q + w == w * (q + 1);
      QuotientUnique(x + 1, w, q + 1, 0);
    }
  }

  lemma MultipleFar(w: nat, d: int)
    requires w >= 1
    ensures d >= 1 ==> w * d >= w
    ensures d <= -1 ==> w * d + w <= 0
  {
    if d >= 1 {
      assert w * d == w * (d - 1) + w && w * (d - 1) >= 0;
    } else if d <= -1 {
      assert w * d == w * (d + 1) - w && w * (-d - 1) >= 0;
    }
  }

  lemma Distribute(w: int, p: int, q: int)
    ensures w * p - w * q == w * (p - q)
  {
  }

  lemma EuclideanDivision(x: int, w: nat)
    requires w >= 1
    ensures x == w * (x / w) + x % w
  {
  }

  lemma QuotientUnique(x: int, w: nat, q: int, r: int)
    requires w >= 1 && x == w * q + r && 0 <= r < w
    ensures x / w == q && x % w == r
  {
    var p, s := x / w, x % w;
    EuclideanDivision(x, w);
    Distribute(w, p, q);
    MultipleFar(w, p - q);
    assert w * (p - q) == r - s;
    assert p == q;
  }

  lemma LevelReached(phase: nat, levels: nat, w: nat)
    requires w >= 1
    ensures phase < Product(levels, w) <==> phase / w < levels
    ensures phase == Product(levels, w) ==> phase / w == levels && phase % w == 0
  {
    var q := phase / w;
    EuclideanDivision(phase, w);
    Distribute(w, levels, q);
    MultipleFar(w, levels - q);
    assert Product(levels, w) == w * levels;
    if phase == Product(levels, w) {
      QuotientUnique(phase, w, levels, 0);
    }
  }

  /** An iteration without improvement goes to the next phase of the period. */
  lemma AdvancePhase(cfg: Settings, s: State, phase: nat)
    requires InPhase(cfg, s, phase)
    ensures InPhase(cfg, Advanced(cfg, s), if phase + 1 == Period(cfg) then 0 else phase + 1)
  {
    hide Product;
    var w := Width(cfg);
    DivisionStep(phase, w);
    if cfg.disturbLevel > cfg.initialDisturbLevel {
      LevelReached(phase, cfg.disturbLevel - cfg.initialDisturbLevel, w);
    }
    QuotientUnique(0, w, 0, 0);
  }

  /** So does an improvement, to the phase it starts over at. */
  lemma ImprovementPhase(cfg: Settings, s: State, found: Found)
    requires Improves(s, found)
    ensures InPhase(cfg, Advanced(cfg, Accepted(cfg, s, found)), PhaseAfterImprovement(cfg))
  {
    hide Product;
    var w := Width(cfg);
    QuotientUnique(0, w, 0, 0);
    if PhaseAfterImprovement(cfg) == 1 {
      QuotientUnique(1, 1, 1, 0);
      assert Product(cfg.disturbLevel - cfg.initialDisturbLevel, 1) >= 1 by {
        ByOne(cfg.disturbLevel - cfg.initialDisturbLevel);
      }
    }
  }

  lemma ByOne(a: nat)
    ensures Product(a, 1) == a
  {
  }

  /** The iteration is not an improvement. */
  ghost predicate Fails(cfg: Settings, search: Search, best: Solution, k: nat) {
    var s := After(cfg, search, best, k);
    !Improves(s, search(k, s.current, s.level))
  }

  lemma FailureAdvances(cfg: Settings, search: Search, best: Solution, k: nat)
    requires Fails(cfg, search, best, k)
    ensures var (s, t) := (After(cfg, search, best, k), After(cfg, search, best, k + 1));
      t.level == Advanced(cfg, s).level && t.waited == Advanced(cfg, s).waited
  {
  }

  lemma WrapAround(start: nat, k: nat, period: nat)
    requires period >= 1
    ensures (start + k + 1) % period
         == if (start + k) % period + 1 == period then 0 else (start + k) % period + 1
  {
    DivisionStep(start + k, period);
  }

  /** The closed form: `k` failing iterations after the phase was `start`, the level is the initial one
      plus the phase divided by the width of a level, the phase counting on modulo the period. */
  lemma {:induction false} LevelClosedForm(cfg: Settings, search: Search, best: Solution, from: nat, start: nat, k: nat)
    requires InPhase(cfg, After(cfg, search, best, from), start)
    requires forall j :: from <= j < from + k ==> Fails(cfg, search, best, j)
    ensures InPhase(cfg, After(cfg, search, best, from + k), (start + k) % Period(cfg))
  {
    hide Product, After, Fails, Advanced;
    if k == 0 {
      QuotientUnique(start, Period(cfg), 0, start);
    } else {
      var phase := (start + k - 1) % Period(cfg);
      LevelClosedForm(cfg, search, best, from, start, k - 1);
      AdvancePhase(cfg, After(cfg, search, best, from + k - 1), phase);
      assert Fails(cfg, search, best, from + k - 1);
      FailureAdvances(cfg, search, best, from + k - 1);
      WrapAround(start, k - 1, Period(cfg));
    }
  }

  lemma StartPhase(cfg: Settings, search: Search, best: Solution)
    ensures InPhase(cfg, After(cfg, search, best, 0), 0)
  {
    QuotientUnique(0, Width(cfg), 0, 0);
  }

  /** `k` failing iterations after the start of the run. */
  lemma LevelFromStart(cfg: Settings, search: Search, best: Solution, k: nat)
    requires forall j :: 0 <= j < k ==> Fails(cfg, search, best, j)
    ensures After(cfg, search, best, k).level == cfg.initialDisturbLevel + (k % Period(cfg)) / Width(cfg)
  {
    hide After, Fails;
    StartPhase(cfg, search, best);
    LevelClosedForm(cfg, search, best, 0, 0, k);
  }

  /** `k` failing iterations after the last improvement, at iteration `last`. */
  lemma LevelSinceImprovement(cfg: Settings, search: Search, best: Solution, last: nat, k: nat)
    requires !Fails(cfg, search, best, last)
    requires forall j :: last < j <= last + k ==> Fails(cfg, search, best, j)
    ensures After(cfg, search, best, last + 1 + k).level
         == cfg.initialDisturbLevel + ((PhaseAfterImprovement(cfg) + k) % Period(cfg)) / Width(cfg)
    ensures cfg.disturbThreshold >= 0 ==> PhaseAfterImprovement(cfg) == 0
  {
    var s := After(cfg, search, best, last);
    ImprovementPhase(cfg, s, search(last, s.current, s.level));
    LevelClosedForm(cfg, search, best, last + 1, PhaseAfterImprovement(cfg), k);
  }

  /** The level never leaves the range between the two settings. */
  lemma {:induction false} LevelInRange(cfg: Settings, search: Search, best: Solution, k: nat)
    ensures exists phase: nat :: InPhase(cfg, After(cfg, search, best, k), phase)
    ensures var level := After(cfg, search, best, k).level;
      cfg.initialDisturbLevel <= level && (level == cfg.initialDisturbLevel || level <= cfg.disturbLevel)
  {
    hide Product, Improves, Width;
    if k == 0 {
      StartPhase(cfg, search, best);
      assert InPhase(cfg, After(cfg, search, best, 0), 0);
    } else {
      LevelInRange(cfg, search, best, k - 1);
      var phase: nat :| InPhase(cfg, After(cfg, search, best, k - 1), phase);
      var s := After(cfg, search, best, k - 1);
      var found := search(k - 1, s.current, s.level);
      if Improves(s, found) {
        ImprovementPhase(cfg, s, found);
        assert InPhase(cfg, After(cfg, search, best, k), PhaseAfterImprovement(cfg));
      } else {
        assert Fails(cfg, search, best, k - 1);
        FailureAdvances(cfg, search, best, k - 1);
        AdvancePhase(cfg, s, phase);
        assert InPhase(cfg, After(cfg, search, best, k), if phase + 1 == Period(cfg) then 0 else phase + 1);
      }
    }
    PhaseInRange(cfg, After(cfg, search, best, k));
  }

  lemma PhaseInRange(cfg: Settings, s: State)
    requires exists phase: nat :: InPhase(cfg, s, phase)
    ensures cfg.initialDisturbLevel <= s.level && (s.level == cfg.initialDisturbLevel || s.level <= cfg.disturbLevel)
  {
    hide Product;
    var phase: nat :| InPhase(cfg, s, phase);
    QuotientUnique(0, Width(cfg), 0, 0);
    if cfg.disturbLevel > cfg.initialDisturbLevel {
      var levels := cfg.disturbLevel - cfg.initialDisturbLevel;
      LevelReached(phase, levels, Width(cfg));
    }
  }

  // ----- the best solution

  /** The best solution never worsens, and changes only for one at least the tolerance better. */
  lemma {:induction false} BestNeverWorsens(cfg: Settings, search: Search, best: Solution, j: nat, k: nat)
    requires j <= k
    ensures var (s, t) := (After(cfg, search, best, j).best, After(cfg, search, best, k).best);
      t == s || t.value + TOLERANCE <= s.value
  {
    if j < k {
      BestNeverWorsens(cfg, search, best, j, k - 1);
    }
  }

  /** It stays less than one tolerance above every viable solution a local search has found. */
  lemma BestNearEveryFound(cfg: Settings, search: Search, best: Solution, j: nat, k: nat)
    requires j < k
    ensures var s := After(cfg, search, best, j);
      var found := search(j, s.current, s.level);
      found.viable ==> After(cfg, search, best, k).best.value < found.solution.value + TOLERANCE
  {
    BestNeverWorsens(cfg, search, best, j + 1, k);
  }

  /** The search goes on from where the best solution is. */
  lemma {:induction false} CurrentIsAtBest(cfg: Settings, search: Search, best: Solution, k: nat)
    ensures After(cfg, search, best, k).current.point == After(cfg, search, best, k).best.point
  {
    if k > 0 {
      CurrentIsAtBest(cfg, search, best, k - 1);
    }
  }

  /** The best and the current solution are the one given at the start or viable results of a local search. */
  ghost predicate FoundBefore(cfg: Settings, search: Search, best: Solution, k: nat, x: Solution) {
    x == best || exists j :: 0 <= j < k && FoundAt(cfg, search, best, j, x)
  }

  ghost predicate FoundAt(cfg: Settings, search: Search, best: Solution, j: nat, x: Solution) {
    var s := After(cfg, search, best, j);
    search(j, s.current, s.level) == Found(x, true)
  }

  lemma {:induction false} BestWasFound(cfg: Settings, search: Search, best: Solution, k: nat)
    ensures FoundBefore(cfg, search, best, k, After(cfg, search, best, k).best)
    ensures FoundBefore(cfg, search, best, k, After(cfg, search, best, k).current)
  {
    if k > 0 {
      BestWasFound(cfg, search, best, k - 1);
      var s := After(cfg, search, best, k - 1);
      var found := search(k - 1, s.current, s.level);
      if found.viable {
        assert FoundAt(cfg, search, best, k - 1, found.solution);
      }
    }
  }

  /** A viable result that is at least the tolerance better becomes the best and the current solution. */
  lemma BetterIsTaken(cfg: Settings, search: Search, best: Solution, k: nat)
    ensures var (s, t) := (After(cfg, search, best, k), After(cfg, search, best, k + 1));
      var found := search(k, s.current, s.level);
      && (found.viable && found.solution.value + TOLERANCE <= s.best.value ==>
            t.best == found.solution == t.current)
      && (!found.viable ==> t.best == s.best && t.current == s.current)
  {
  }

  // ----- the stop condition and the loop

  class MaxIterationsStopCondition {
    var isSatisfied: bool
    var maxIterations: Option<int>

    constructor ()
      ensures !isSatisfied && maxIterations == None
    {
      isSatisfied, maxIterations := false, None;
    }

    /** The parameter map may lack the limit; then the condition is never satisfied. */
    method IsSatisfied(iterations: int, limit: Option<int>) returns (satisfied: bool)
      modifies this
      ensures satisfied == isSatisfied == (limit.Some? && iterations > limit.value)
      ensures maxIterations == if limit.Some? then limit else old(maxIterations)
    {
      isSatisfied := false;
      if limit.Some? {
        maxIterations := limit;
        if iterations > limit.value {
          isSatisfied := true;
        }
      }
      return isSatisfied;
    }
  }

  /** How often the body of a loop runs that stops after the iteration limit has been exceeded. */
  function Iterations(limit: int): nat {
    if limit < 0 then 0 else limit + 1
  }

  class ILS {
    const cfg: Settings
    const search: Search
    const stopCondition: MaxIterationsStopCondition
    var currentSolution: Solution
    var bestSolution: Solution

    constructor (cfg: Settings, search: Search, stopCondition: MaxIterationsStopCondition, bestSolution: Solution)
      ensures this.cfg == cfg && this.search == search && this.stopCondition == stopCondition
      ensures this.bestSolution == bestSolution
    {
      this.cfg, this.search, this.stopCondition := cfg, search, stopCondition;
      this.currentSolution, this.bestSolution := bestSolution, bestSolution;
    }

    /** The search from the best solution of the first local search, with the iteration limit as its
        stop condition; `runs` counts the turns of the loop. */
    method Run(limit: int) returns (result: Solution, ghost runs: nat)
      modifies this, stopCondition
      ensures runs == Iterations(limit)
      ensures result == bestSolution == After(cfg, search, old(bestSolution), runs).best
      ensures currentSolution == After(cfg, search, old(bestSolution), runs).current
    {
      var level, waited, iterations, unimproved := cfg.initialDisturbLevel, 0, 0, 0;
      runs := 0;
      currentSolution := bestSolution;
      var satisfied := stopCondition.IsSatisfied(iterations, Some(limit));
      while !satisfied
        invariant 0 <= iterations == runs <= Iterations(limit)
        invariant satisfied <==> iterations > limit
        invariant State(bestSolution, currentSolution, level, waited, unimproved)
               == After(cfg, search, old(bestSolution), iterations)
        decreases Iterations(limit) - iterations
      {
        var found := search(iterations, currentSolution, level);
        if found.viable {
          bestSolution := GetBestSolution(found.solution, bestSolution);
          if bestSolution.point == found.solution.point {
            level, waited, unimproved := cfg.initialDisturbLevel, -1, -1;
            currentSolution := found.solution;
          }
        }
        if level < cfg.disturbLevel {
          if waited < cfg.disturbThreshold {
            waited := waited + 1;
          } else {
            level, waited, unimproved := level + 1, 0, unimproved + 1;
          }
        } else {
          level, waited, unimproved := cfg.initialDisturbLevel, 0, unimproved + 1;
        }
        iterations, runs := iterations + 1, runs + 1;
        satisfied := stopCondition.IsSatisfied(iterations, Some(limit));
      }
      result := bestSolution;
    }
  }
}
