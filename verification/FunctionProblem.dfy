/** Function minimisation: the box, the objective, and the check that a point lies in the box. */
module FunctionProblems {
  import opened Analyser

  /** Every coordinate has the same bounds. */
  datatype FunctionProblem = FunctionProblem(
    dimension: nat,
    lower: real,
    upper: real,
    objective: seq<real> -> real,
    initialPoint: seq<real>)

  predicate InBox(p: FunctionProblem, point: seq<real>) {
    |point| == p.dimension && forall j :: 0 <= j < |point| ==> p.lower <= point[j] <= p.upper
  }

  /** The stored value is the objective of the point. */
  ghost predicate Evaluated(p: FunctionProblem, s: Solution) {
    s.value == p.objective(s.point)
  }

  method CheckViability(p: FunctionProblem, point: seq<real>) returns (viable: bool)
    requires |point| == p.dimension
    ensures viable <==> InBox(p, point)
  {
    viable := true;
    var i := 0;
    while i < p.dimension && viable
      invariant 0 <= i <= p.dimension
      invariant viable <==> forall j :: 0 <= j < i ==> p.lower <= point[j] <= p.upper
    {
      viable := p.lower <= point[i] <= p.upper;
      i := i + 1;
    }
  }
}
