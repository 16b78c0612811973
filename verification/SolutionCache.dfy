/** A solution with its evaluation cache: mutators mark it changed, and the objective is evaluated again
    only when it is read after a change. */
module SolutionCache {
  import opened Options
  import opened Sequences

  /** Elements are told apart by identity; `None` is an empty position of the vector. */
  type Vector = seq<Option<nat>>

  /** The objective and the viability check of a problem, both functions of the vector. */
  datatype Problem = Problem(dimension: int, objective: Vector -> real, viability: Vector -> bool)

  /** A solution's fields. */
  datatype Cached = Cached(vector: Vector, functionValue: real, viable: bool, changed: bool)

  datatype Mutation =
    | SetElement(index: int, value: nat)
    | InsertElement(index: int, value: nat)
    | AppendElement(value: nat)
    | ClearElement(index: int)
    | RemoveElement(value: nat)
    | RemoveElementShifting(index: int)

  /** The new vector, or the exception of a position or a vector that does not allow the change. */
  function Mutated(p: Problem, v: Vector, m: Mutation): Option<Vector> {
    match m
    case SetElement(i, value) =>
      if 0 <= i < |v| && i < p.dimension then Some(v[i := Some(value)]) else None
    case InsertElement(i, value) =>
      if None in v && 0 <= i <= |v| then Some(WithoutLast(v[..i] + [Some(value)] + v[i..])) else None
    case AppendElement(value) =>
      if |v| < p.dimension then Some(v + [Some(value)]) else None
    case ClearElement(i) =>
      if 0 <= i < |v| && i < p.dimension then Some(v[i := None]) else None
    case RemoveElement(value) => Some(RemoveFirst(v, Some(value)))
    case RemoveElementShifting(i) =>
      if 0 <= i < |v| && i < p.dimension then Some(v[..i] + v[i + 1..] + [None]) else None
  }

  function WithoutLast(v: Vector): Vector
    requires v != []
  {
    v[..|v| - 1]
  }

  /** What a computation leaves in the cache. */
  function Calculated(p: Problem, s: Cached): Cached {
    Cached(s.vector, p.objective(s.vector), p.viability(s.vector), false)
  }

  function Refreshed(p: Problem, s: Cached): Cached {
    if s.changed then Calculated(p, s) else s
  }

  /** The copy constructor leaves `viable` at its default. */
  function CopyOf(s: Cached): Cached {
    Cached(s.vector, s.functionValue, false, s.changed)
  }

  /** A new solution: nothing has been computed, yet it is not marked as changed. */
  function NewSolution(p: Problem, vector: Vector, initialValue: real): Cached {
    Cached(vector, initialValue, false, false)
  }

  /** What each mutator leaves at position `j` of the vector, and when it throws. */
  lemma MutatedAt(p: Problem, v: Vector, i: int, value: nat, j: nat)
    ensures var r := Mutated(p, v, SetElement(i, value));
      && (r.Some? <==> 0 <= i < |v| && i < p.dimension)
      && (r.Some? && j < |v| ==> |r.value| == |v| && r.value[j] == if j == i then Some(value) else v[j])
    ensures var r := Mutated(p, v, ClearElement(i));
      && (r.Some? <==> 0 <= i < |v| && i < p.dimension)
      && (r.Some? && j < |v| ==> |r.value| == |v| && r.value[j] == if j == i then None else v[j])
    ensures var r := Mutated(p, v, InsertElement(i, value));
      && (r.Some? <==> None in v && 0 <= i <= |v|)
      && (r.Some? && j < |v| ==>
            |r.value| == |v| && r.value[j] == if j < i then v[j] else if j == i then Some(value) else v[j - 1])
    ensures var r := Mutated(p, v, RemoveElementShifting(i));
      && (r.Some? <==> 0 <= i < |v| && i < p.dimension)
      && (r.Some? && j < |v| ==>
            |r.value| == |v| && r.value[j] == if j < i then v[j] else if j + 1 < |v| then v[j + 1] else None)
    ensures var r := Mutated(p, v, AppendElement(value));
      && (r.Some? <==> |v| < p.dimension)
      && (r.Some? ==> |r.value| == |v| + 1 && r.value[|v|] == Some(value) && (j < |v| ==> r.value[j] == v[j]))
  {
  }

  // ----- a population of solutions and the context that counts evaluations

  /** What has happened to a solution: whether its value, or the one it was copied from, was ever
      computed; whether its own viability was; and the value it, or its original, was created with. */
  datatype Past = Past(evaluated: bool, computed: bool, initialValue: real)

  /** `invocations` is the context's counter; the last two are history as well: all computations, and
      how often a solution became one that is waiting for its computation. */
  datatype World = World(solutions: seq<Cached>, pasts: seq<Past>, invocations: nat, calculations: nat, batches: nat)

  datatype Operation =
    | Create(vector: Vector, initialValue: real)
    | Copy(i: nat)
    | Mutate(i: nat, mutation: Mutation)
    | Read(i: nat, withContext: bool)

  predicate Allowed(p: Problem, w: World, op: Operation) {
    |w.pasts| == |w.solutions| &&
    match op
    case Create(_, _) => true
    case Copy(i) => i < |w.solutions|
    case Mutate(i, m) => i < |w.solutions| && Mutated(p, w.solutions[i].vector, m).Some?
    case Read(i, _) => i < |w.solutions|
  }

  function Waiting(s: Cached): nat {
    if s.changed then 1 else 0
  }

  /** Reading is `evaluate` or `isViable`: both refresh the cache. */
  function Next(p: Problem, w: World, op: Operation): World
    requires Allowed(p, w, op)
  {
    match op
    case Create(vector, value) =>
      w.(solutions := w.solutions + [NewSolution(p, vector, value)], pasts := w.pasts + [Past(false, false, value)])
    case Copy(i) =>
      w.(solutions := w.solutions + [CopyOf(w.solutions[i])], pasts := w.pasts + [w.pasts[i].(computed := false)],
         batches := w.batches + Waiting(w.solutions[i]))
    case Mutate(i, m) =>
      var s := w.solutions[i];
      w.(solutions := w.solutions[i := s.(vector := Mutated(p, s.vector, m).value, changed := true)],
         batches := w.batches + 1 - Waiting(s))
    case Read(i, withContext) =>
      var s := w.solutions[i];
      w.(solutions := w.solutions[i := Refreshed(p, s)],
         pasts := if s.changed then w.pasts[i := w.pasts[i].(evaluated := true, computed := true)] else w.pasts,
         calculations := w.calculations + Waiting(s),
         invocations := w.invocations + if withContext then Waiting(s) else 0)
  }

  const START := World([], [], 0, 0, 0)

  predicate IsHistory(p: Problem, worlds: seq<World>, ops: seq<Operation>) {
    && |worlds| == |ops| + 1 && worlds[0] == START
    && forall k :: 0 <= k < |ops| ==> Allowed(p, worlds[k], ops[k]) && worlds[k + 1] == Next(p, worlds[k], ops[k])
  }

  function WaitingCount(solutions: seq<Cached>): nat {
    if solutions == [] then 0 else WaitingCount(solutions[..|solutions| - 1]) + Waiting(solutions[|solutions| - 1])
  }

  lemma {:induction false} WaitingUpdate(s: seq<Cached>, i: nat, c: Cached)
    requires i < |s|
    ensures WaitingCount(s[i := c]) == WaitingCount(s) - Waiting(s[i]) + Waiting(c)
  {
    var last := |s| - 1;
    if i == last {
      assert s[i := c][..last] == s[..last];
    } else {
      assert s[i := c][..last] == s[..last][i := c];
      WaitingUpdate(s[..last], i, c);
    }
  }

  lemma WaitingAppend(s: seq<Cached>, c: Cached)
    ensures WaitingCount(s + [c]) == WaitingCount(s) + Waiting(c)
  {
    assert (s + [c])[..|s|] == s;
  }

  /** The value cached is the objective once evaluated and not changed since, and the initial value
      before; the viability cached is right when computed and not changed since, and false before. */
  predicate CacheOk(p: Problem, s: Cached, past: Past) {
    && (past.evaluated && !s.changed ==> s.functionValue == p.objective(s.vector))
    && (!past.evaluated ==> s.functionValue == past.initialValue)
    && (past.computed && !s.changed ==> s.viable == p.viability(s.vector))
    && (!past.computed ==> !s.viable)
  }

  /** Every cache is right, and every batch of changes has been computed or is waiting. */
  ghost predicate Inv(p: Problem, w: World) {
    && |w.pasts| == |w.solutions|
    && (forall i :: 0 <= i < |w.solutions| ==> CacheOk(p, w.solutions[i], w.pasts[i]))
    && w.calculations + WaitingCount(w.solutions) == w.batches
    && w.invocations <= w.calculations
  }

  lemma StepKeepsInv(p: Problem, w: World, op: Operation)
    requires Inv(p, w) && Allowed(p, w, op)
    ensures Inv(p, Next(p, w, op))
  {
    hide WaitingCount, Mutated;
    match op
    case Create(vector, value) =>
      WaitingAppend(w.solutions, NewSolution(p, vector, value));
    case Copy(i) =>
      WaitingAppend(w.solutions, CopyOf(w.solutions[i]));
    case Mutate(i, m) =>
      WaitingUpdate(w.solutions, i, Next(p, w, op).solutions[i]);
    case Read(i, _) =>
      WaitingUpdate(w.solutions, i, Refreshed(p, w.solutions[i]));
  }

  /** After any sequence of operations every cache is right: in particular a solution that has been
      evaluated and is not marked as changed holds the objective of its current vector. There has been
      at most one computation for each batch of changes. */
  lemma {:induction false} CacheIsRight(p: Problem, worlds: seq<World>, ops: seq<Operation>, k: nat)
    requires IsHistory(p, worlds, ops) && k < |worlds|
    ensures Inv(p, worlds[k])
    ensures worlds[k].invocations <= worlds[k].calculations <= worlds[k].batches
  {
    if k > 0 {
      CacheIsRight(p, worlds, ops, k - 1);
      StepKeepsInv(p, worlds[k - 1], ops[k - 1]);
    }
  }

  /** When every read passes the context, its counter is the number of computations. */
  lemma {:induction false} CounterCountsComputations(p: Problem, worlds: seq<World>, ops: seq<Operation>, k: nat)
    requires IsHistory(p, worlds, ops) && k < |worlds|
    requires forall j :: 0 <= j < k && ops[j].Read? ==> ops[j].withContext
    ensures worlds[k].invocations == worlds[k].calculations
  {
    if k > 0 {
      CounterCountsComputations(p, worlds, ops, k - 1);
    }
  }

  /** What reading the value returns, exactly: the objective of the current vector once the solution, or
      the one it was copied from, has been changed or evaluated; before that the initial value. */
  lemma ReadIsRight(p: Problem, worlds: seq<World>, ops: seq<Operation>, k: nat, i: nat)
    requires IsHistory(p, worlds, ops) && k < |worlds| && i < |worlds[k].solutions|
    ensures |worlds[k].pasts| == |worlds[k].solutions|
    ensures var (s, past) := (worlds[k].solutions[i], worlds[k].pasts[i]);
      Refreshed(p, s).functionValue
      == if s.changed || past.evaluated then p.objective(s.vector) else past.initialValue
  {
    CacheIsRight(p, worlds, ops, k);
    assert CacheOk(p, worlds[k].solutions[i], worlds[k].pasts[i]);
  }

  /** Reading the viability is right exactly when it is computed now, was computed for this very
      solution, or is false anyway: a copy loses it. */
  lemma ViabilityIsRightIff(p: Problem, worlds: seq<World>, ops: seq<Operation>, k: nat, i: nat)
    requires IsHistory(p, worlds, ops) && k < |worlds| && i < |worlds[k].solutions|
    ensures |worlds[k].pasts| == |worlds[k].solutions|
    ensures var (s, past) := (worlds[k].solutions[i], worlds[k].pasts[i]);
      Refreshed(p, s).viable == p.viability(s.vector) <==> s.changed || past.computed || !p.viability(s.vector)
  {
    CacheIsRight(p, worlds, ops, k);
    assert CacheOk(p, worlds[k].solutions[i], worlds[k].pasts[i]);
  }

  /** A history that ends with a wrong read: a solution is created, changed, read and copied, and the
      copy is reported as not viable although its vector, and its cached value, are those of the original. */
  lemma CopyLosesViability(p: Problem, v: Vector, value: nat) returns (worlds: seq<World>, ops: seq<Operation>)
    requires |v| < p.dimension && p.viability(v + [Some(value)])
    ensures IsHistory(p, worlds, ops) && |worlds| == 5 && |worlds[4].solutions| == 2
    ensures var (original, copy) := (worlds[4].solutions[0], worlds[4].solutions[1]);
      && copy.vector == original.vector == v + [Some(value)]
      && Refreshed(p, original).viable && !Refreshed(p, copy).viable
      && Refreshed(p, copy).functionValue == p.objective(copy.vector)
  {
    ops := [Create(v, 0.0), Mutate(0, AppendElement(value)), Read(0, true), Copy(0)];
    var w1 := Next(p, START, ops[0]);
    var w2 := Next(p, w1, ops[1]);
    var w3 := Next(p, w2, ops[2]);
    worlds := [START, w1, w2, w3, Next(p, w3, ops[3])];
  }

  // ----- the objects

  class AgentContext {
    var invocations: nat

    constructor ()
      ensures invocations == 0
    {
      invocations := 0;
    }

    method Accept()
      modifies this
      ensures invocations == old(invocations) + 1
    {
      invocations := invocations + 1;
    }
  }

  class Solution {
    const problem: Problem
    var solutionsVector: Vector
    var functionValue: real
    var viable: bool
    var changed: bool

    ghost function State(): Cached
      reads this
    {
      Cached(solutionsVector, functionValue, viable, changed)
    }

    constructor (problem: Problem, vector: Vector, initialValue: real)
      ensures this.problem == problem && State() == NewSolution(problem, vector, initialValue)
    {
      this.problem, solutionsVector, functionValue, viable, changed := problem, vector, initialValue, false, false;
    }

    constructor Copy(another: Solution)
      ensures problem == another.problem && State() == CopyOf(another.State())
    {
      problem, solutionsVector := another.problem, another.solutionsVector;
      changed, functionValue, viable := another.changed, another.functionValue, false;
    }

    method SetElement(index: int, value: nat) returns (ok: bool)
      modifies this
      ensures ok == Mutated(problem, old(solutionsVector), Mutation.SetElement(index, value)).Some?
      ensures State() == After(old(State()), Mutated(problem, old(solutionsVector), Mutation.SetElement(index, value)))
      ensures ok <==> 0 <= index < |old(solutionsVector)| && index < problem.dimension
      ensures ok ==> |solutionsVector| == |old(solutionsVector)| && solutionsVector[index] == Some(value) && changed
      ensures ok ==> forall j :: 0 <= j < |solutionsVector| && j != index ==> solutionsVector[j] == old(solutionsVector)[j]
      ensures !ok ==> State() == old(State())
    {
      if index >= problem.dimension || index < 0 || index >= |solutionsVector| {
        return false;
      }
      solutionsVector := solutionsVector[index := Some(value)];
      changed := true;
      return true;
    }

    method InsertElement(index: int, value: nat) returns (ok: bool)
      modifies this
      ensures ok == Mutated(problem, old(solutionsVector), Mutation.InsertElement(index, value)).Some?
      ensures State() == After(old(State()), Mutated(problem, old(solutionsVector), Mutation.InsertElement(index, value)))
      ensures ok <==> None in old(solutionsVector) && 0 <= index <= |old(solutionsVector)|
      ensures ok ==> |solutionsVector| == |old(solutionsVector)| && changed
      ensures ok ==> forall j :: 0 <= j < |solutionsVector| ==>
        solutionsVector[j] == if j < index then old(solutionsVector)[j]
                              else if j == index then Some(value) else old(solutionsVector)[j - 1]
      ensures !ok ==> State() == old(State())
    {
      if None !in solutionsVector || index < 0 || index > |solutionsVector| {
        return false;
      }
      var longer := solutionsVector[..index] + [Some(value)] + solutionsVector[index..];
      solutionsVector := longer[..|longer| - 1];
      changed := true;
      return true;
    }

    method AppendElement(value: nat) returns (ok: bool)
      modifies this
      ensures ok == Mutated(problem, old(solutionsVector), Mutation.AppendElement(value)).Some?
      ensures State() == After(old(State()), Mutated(problem, old(solutionsVector), Mutation.AppendElement(value)))
      ensures ok <==> |old(solutionsVector)| < problem.dimension
      ensures ok ==> changed && solutionsVector == old(solutionsVector) + [Some(value)]
      ensures !ok ==> State() == old(State())
    {
      if |solutionsVector| >= problem.dimension {
        return false;
      }
      solutionsVector := solutionsVector + [Some(value)];
      changed := true;
      return true;
    }

    method ClearElement(index: int) returns (ok: bool)
      modifies this
      ensures ok == Mutated(problem, old(solutionsVector), Mutation.ClearElement(index)).Some?
      ensures State() == After(old(State()), Mutated(problem, old(solutionsVector), Mutation.ClearElement(index)))
      ensures ok <==> 0 <= index < |old(solutionsVector)| && index < problem.dimension
      ensures ok ==> |solutionsVector| == |old(solutionsVector)| && solutionsVector[index] == None && changed
      ensures ok ==> forall j :: 0 <= j < |solutionsVector| && j != index ==> solutionsVector[j] == old(solutionsVector)[j]
      ensures !ok ==> State() == old(State())
    {
      if index >= problem.dimension || index < 0 || index >= |solutionsVector| {
        return false;
      }
      solutionsVector := solutionsVector[index := None];
      changed := true;
      return true;
    }

    method RemoveElement(value: nat)
      modifies this
      ensures State() == After(old(State()), Mutated(problem, old(solutionsVector), Mutation.RemoveElement(value)))
      ensures changed && (Some(value) !in old(solutionsVector) ==> solutionsVector == old(solutionsVector))
      ensures multiset(solutionsVector) == multiset(old(solutionsVector)) - multiset{Some(value)}
      ensures InOrder(solutionsVector, old(solutionsVector))
    {
      RemoveFirstMembers(solutionsVector, Some(value));
      RemoveFirstInOrder(solutionsVector, Some(value));
      if Some(value) !in solutionsVector {
        RemoveAbsent(solutionsVector, Some(value));
      }
      solutionsVector := RemoveFirst(solutionsVector, Some(value));
      changed := true;
    }

    method RemoveElementShifting(index: int) returns (ok: bool)
      modifies this
      ensures ok == Mutated(problem, old(solutionsVector), Mutation.RemoveElementShifting(index)).Some?
      ensures State() == After(old(State()), Mutated(problem, old(solutionsVector), Mutation.RemoveElementShifting(index)))
      ensures ok <==> 0 <= index < |old(solutionsVector)| && index < problem.dimension
      ensures ok ==> |solutionsVector| == |old(solutionsVector)| && changed
      ensures ok ==> forall j :: 0 <= j < |solutionsVector| ==>
        solutionsVector[j] == if j < index then old(solutionsVector)[j]
                              else if j + 1 < |solutionsVector| then old(solutionsVector)[j + 1] else None
      ensures !ok ==> State() == old(State())
    {
      if index >= problem.dimension || index < 0 || index >= |solutionsVector| {
        return false;
      }
      solutionsVector := solutionsVector[..index] + solutionsVector[index + 1..] + [None];
      changed := true;
      return true;
    }

    method Calculate(context: AgentContext?)
      modifies this, context
      ensures State() == Calculated(problem, old(State()))
      ensures context != null ==> context.invocations == old(context.invocations) + 1
    {
      functionValue := problem.objective(solutionsVector);
      viable := problem.viability(solutionsVector);
      changed := false;
      if context != null {
        context.Accept();
      }
    }

    method IsViable(context: AgentContext?) returns (r: bool)
      modifies this, context
      ensures State() == Refreshed(problem, old(State())) && r == viable
      ensures context != null ==> context.invocations == old(context.invocations) + Waiting(old(State()))
    {
      if changed {
        Calculate(context);
      }
      return viable;
    }

    method Evaluate(context: AgentContext?) returns (r: real)
      modifies this, context
      ensures State() == Refreshed(problem, old(State())) && r == functionValue
      ensures context != null ==> context.invocations == old(context.invocations) + Waiting(old(State()))
    {
      if changed {
        Calculate(context);
      }
      return functionValue;
    }
  }

  /** A mutator that throws leaves the solution as it was. */
  function After(s: Cached, vector: Option<Vector>): Cached {
    if vector.None? then s else s.(vector := vector.value, changed := true)
  }
}
