/** An agent's memory of regions: a bounded table of rewards, its update rule, and its roulette. */
module QLearning {
  import opened Analyser
  import opened Options
  import opened Statistics

  /** `squash` is the sigmoid between -1 and 1; no value of it is computed here. */
  datatype Settings = Settings(alpha: real, gamma: real, maxRegions: int, squash: real -> real)

  /** The rates of the update rule and the range of the sigmoid. */
  ghost predicate Rated(cfg: Settings) {
    && 0.0 <= cfg.alpha <= 1.0 && 0.0 <= cfg.gamma < 1.0
    && cfg.squash(0.0) == 0.0
    && forall x :: -1.0 <= cfg.squash(x) <= 1.0
  }

  ghost predicate Sound(cfg: Settings) {
    Rated(cfg) && cfg.maxRegions >= 1
  }

  datatype Memory = Memory(table: map<int, real>, best: Option<Solution>)

  const EMPTY := Memory(map[], None)

  predicate Knows(table: map<int, real>, ids: seq<int>) {
    forall i :: 0 <= i < |ids| ==> ids[i] in table
  }

  /** An iteration order of the table, as its hash map yields one. */
  ghost predicate Enumerates(order: seq<int>, table: map<int, real>) {
    && (forall p, q :: 0 <= p < q < |order| ==> order[p] != order[q])
    && Knows(table, order)
    && (forall id :: id in table ==> id in order)
  }

  lemma {:induction false} EnumeratesAll(order: seq<int>, table: map<int, real>)
    requires Enumerates(order, table)
    ensures |order| == |table|
  {
    if order == [] {
      assert forall id :: id !in table;
      assert table == map[];
    } else {
      var last := |order| - 1;
      var rest := table - {order[last]};
      assert Enumerates(order[..last], rest) by {
        assert order == order[..last] + [order[last]];
      }
      EnumeratesAll(order[..last], rest);
      assert table.Keys == rest.Keys + {order[last]};
    }
  }

  function ValuesIn(order: seq<int>, table: map<int, real>): (v: seq<real>)
    requires Knows(table, order)
    ensures |v| == |order|
    ensures forall i :: 0 <= i < |order| ==> v[i] == table[order[i]]
  {
    seq(|order|, i requires 0 <= i < |order| => table[order[i]])
  }

  // ----- extrema of the table

  function Maximum(v: seq<real>): (m: real)
    requires v != []
    ensures m in v && forall i :: 0 <= i < |v| ==> v[i] <= m
  {
    var last := v[|v| - 1];
    if |v| == 1 then last
    else var m := Maximum(v[..|v| - 1]); if m < last then last else m
  }

  function Minimum(v: seq<real>): (m: real)
    requires v != []
    ensures m in v && forall i :: 0 <= i < |v| ==> m <= v[i]
  {
    var last := v[|v| - 1];
    if |v| == 1 then last
    else var m := Minimum(v[..|v| - 1]); if last < m then last else m
  }

  /** The largest value remembered, or 0 when nothing is. */
  function MaxQ(order: seq<int>, table: map<int, real>): real
    requires Knows(table, order)
  {
    if order == [] then 0.0 else Maximum(ValuesIn(order, table))
  }

  /** The first entry of least value. */
  function MinEntry(order: seq<int>, table: map<int, real>): (id: int)
    requires order != [] && Knows(table, order)
    ensures id in order && forall i :: 0 <= i < |order| ==> table[id] <= table[order[i]]
  {
    var last := order[|order| - 1];
    if |order| == 1 then last
    else
      var id := MinEntry(order[..|order| - 1], table);
      assert order == order[..|order| - 1] + [last];
      if table[last] < table[id] then last else id
  }

  // ----- ranking: a stable sort by descending value

  predicate Descending(order: seq<int>, table: map<int, real>)
    requires Knows(table, order)
  {
    forall p, q :: 0 <= p < q < |order| ==> table[order[q]] <= table[order[p]]
  }

  /** Puts `x` behind everything that is worth at least as much. */
  function InsertRanked(sorted: seq<int>, x: int, table: map<int, real>): (r: seq<int>)
    requires x in table && Knows(table, sorted)
    ensures Knows(table, r)
  {
    if sorted == [] then [x]
    else
      var init, last := sorted[..|sorted| - 1], sorted[|sorted| - 1];
      if table[last] >= table[x] then sorted + [x]
      else InsertRanked(init, x, table) + [last]
  }

  lemma {:induction false} InsertKeeps(sorted: seq<int>, x: int, table: map<int, real>)
    requires x in table && Knows(table, sorted)
    ensures multiset(InsertRanked(sorted, x, table)) == multiset(sorted) + multiset{x}
  {
    if sorted != [] {
      var init, last := sorted[..|sorted| - 1], sorted[|sorted| - 1];
      assert sorted == init + [last];
      InsertKeeps(init, x, table);
    }
  }

  lemma {:induction false} InsertDescends(sorted: seq<int>, x: int, table: map<int, real>)
    requires x in table && Knows(table, sorted) && Descending(sorted, table)
    ensures Descending(InsertRanked(sorted, x, table), table)
  {
    if sorted != [] && table[sorted[|sorted| - 1]] < table[x] {
      var init, last := sorted[..|sorted| - 1], sorted[|sorted| - 1];
      InsertDescends(init, x, table);
      InsertKeeps(init, x, table);
      var r := InsertRanked(init, x, table);
      forall i | 0 <= i < |r|
        ensures table[last] <= table[r[i]]
      {
        assert r[i] in multiset(r);
        assert r[i] in init || r[i] == x;
      }
    }
  }

  function Ranked(order: seq<int>, table: map<int, real>): (r: seq<int>)
    requires Knows(table, order)
    ensures Knows(table, r)
  {
    if order == [] then []
    else InsertRanked(Ranked(order[..|order| - 1], table), order[|order| - 1], table)
  }

  /** The ranking reorders the ids by descending value. */
  lemma {:induction false} RankedIsSorted(order: seq<int>, table: map<int, real>)
    requires Knows(table, order)
    ensures multiset(Ranked(order, table)) == multiset(order) && Descending(Ranked(order, table), table)
  {
    if order != [] {
      var init, last := order[..|order| - 1], order[|order| - 1];
      assert order == init + [last];
      RankedIsSorted(init, table);
      InsertKeeps(Ranked(init, table), last, table);
      InsertDescends(Ranked(init, table), last, table);
    }
  }

  // ----- the operations on values

  /** The table after every id not in `ids` has gone and every new one holds the value of nothing learnt. */
  function Merged(cfg: Settings, table: map<int, real>, ids: seq<int>): map<int, real> {
    map id | id in ids :: if id in table then table[id] else cfg.squash(0.0)
  }

  function Restricted(table: map<int, real>, ids: seq<int>): map<int, real>
    requires Knows(table, ids)
  {
    map id | id in ids :: table[id]
  }

  function Best(cfg: Settings, ranked: seq<int>): seq<int> {
    if cfg.maxRegions < 0 then [] else if |ranked| <= cfg.maxRegions then ranked else ranked[..cfg.maxRegions]
  }

  function UpdateIds(cfg: Settings, table: map<int, real>, ids: seq<int>, order: seq<int>): map<int, real>
    requires Knows(Merged(cfg, table, ids), order)
  {
    var merged := Merged(cfg, table, ids);
    Restricted(merged, Best(cfg, Ranked(order, merged)))
  }

  function Initialized(cfg: Settings, table: map<int, real>, ids: seq<int>): map<int, real> {
    table + map id | id in ids :: cfg.squash(0.0)
  }

  function Reward(cfg: Settings, best: Option<Solution>, s: Solution): real {
    if best.None? then 1.0 else cfg.squash(best.value.value - s.value)
  }

  /** One step of the update rule. */
  function Learned(cfg: Settings, q: real, reward: real, maxQ: real): real {
    q + cfg.alpha * (reward + cfg.gamma * maxQ - q)
  }

  function UpdateQ(cfg: Settings, m: Memory, region: int, s: Solution, order: seq<int>): map<int, real>
    requires Knows(m.table, order)
  {
    var reward, maxQ := Reward(cfg, m.best, s), MaxQ(order, m.table);
    if region in m.table then
      m.table[region := Learned(cfg, m.table[region], reward, maxQ)]
    else
      var room := if |m.table| >= cfg.maxRegions && order != [] then m.table - {MinEntry(order, m.table)} else m.table;
      room[region := reward]
  }

  function UpdateBest(best: Option<Solution>, s: Solution): Option<Solution> {
    if best.None? || Compare(s, best.value) < 0 then Some(s) else best
  }

  /** What can happen to a memory; hash-map orders and the random sample are inputs. */
  datatype Operation =
    | Initialize(ids: seq<int>, sample: seq<int>)
    | UpdateRegionIds(ids: seq<int>, order: seq<int>)
    | Learn(region: int, solution: Solution, order: seq<int>)
    | Reset

  /** The sample takes that many entries of the list, none of them twice. */
  predicate IsSample(sample: seq<int>, ids: seq<int>, k: int) {
    |sample| == k && multiset(sample) <= multiset(ids)
  }

  ghost predicate Allowed(cfg: Settings, m: Memory, op: Operation) {
    match op
    case Initialize(ids, sample) => |ids| > cfg.maxRegions ==> IsSample(sample, ids, cfg.maxRegions)
    case UpdateRegionIds(ids, order) => Enumerates(order, Merged(cfg, m.table, ids))
    case Learn(_, _, order) => Enumerates(order, m.table)
    case Reset => true
  }

  ghost function Apply(cfg: Settings, m: Memory, op: Operation): Memory
    requires Allowed(cfg, m, op)
  {
    match op
    case Initialize(ids, sample) =>
      m.(table := Initialized(cfg, m.table, if |ids| > cfg.maxRegions then sample else ids))
    case UpdateRegionIds(ids, order) => m.(table := UpdateIds(cfg, m.table, ids, order))
    case Learn(region, s, order) => Memory(UpdateQ(cfg, m, region, s, order), UpdateBest(m.best, s))
    case Reset => EMPTY
  }

  /** The states a memory passes through, one operation after the other. */
  ghost predicate IsHistory(cfg: Settings, states: seq<Memory>, ops: seq<Operation>) {
    && |states| == |ops| + 1 && states[0] == EMPTY
    && forall k :: 0 <= k < |ops| ==> Follows(cfg, states[k], ops[k], states[k + 1])
  }

  ghost predicate Follows(cfg: Settings, m: Memory, op: Operation, n: Memory) {
    Allowed(cfg, m, op) && n == Apply(cfg, m, op)
  }

  /** The agent initialises only an empty memory. */
  ghost predicate ByAgent(states: seq<Memory>, ops: seq<Operation>)
    requires |states| == |ops| + 1
  {
    forall k :: 0 <= k < |ops| && ops[k].Initialize? ==> states[k].table == map[]
  }

  // ----- what a result changes

  ghost predicate Monotone(f: real -> real) {
    forall x, y :: x <= y ==> f(x) <= f(y)
  }

  /** The largest of the values remembered; 0 when there is none. */
  ghost predicate IsLargest(top: real, table: map<int, real>) {
    if table == map[] then top == 0.0
    else (exists id :: id in table && table[id] == top) && forall id :: id in table ==> table[id] <= top
  }

  lemma MaxQIsLargest(order: seq<int>, table: map<int, real>)
    requires Enumerates(order, table)
    ensures IsLargest(MaxQ(order, table), table)
  {
    if order == [] {
      assert forall id :: id !in table;
      assert table == map[];
    } else {
      var v := ValuesIn(order, table);
      var k :| 0 <= k < |v| && v[k] == MaxQ(order, table);
      var best := order[k];
      assert best in table && table[best] == MaxQ(order, table);
      forall id | id in table
        ensures table[id] <= MaxQ(order, table)
      {
        var i :| 0 <= i < |order| && order[i] == id;
        assert v[i] <= MaxQ(order, table);
      }
    }
  }

  /** Everything else is as it was. */
  ghost predicate SameBut(before: map<int, real>, after: map<int, real>, region: int) {
    forall id :: id in after && id != region ==> id in before && after[id] == before[id]
  }

  /** A known region moves from its value towards the reward plus the discounted largest value, by the
      part `alpha`, and nothing else changes. */
  lemma KnownRegionLearns(cfg: Settings, m: Memory, region: int, s: Solution, order: seq<int>, reward: real, top: real)
    requires Enumerates(order, m.table) && IsLargest(top, m.table) && region in m.table
    requires reward == if m.best.None? then 1.0 else cfg.squash(m.best.value.value - s.value)
    ensures var r := UpdateQ(cfg, m, region, s, order);
      && r.Keys == m.table.Keys && SameBut(m.table, r, region)
      && r[region] == (1.0 - cfg.alpha) * m.table[region] + cfg.alpha * (reward + cfg.gamma * top)
  {
    hide Learned, MaxQ, IsLargest;
    MaxQIsLargest(order, m.table);
    LargestUnique(top, MaxQ(order, m.table), m.table);
    LearnedMoves(cfg, m.table[region], reward, top);
    var r := UpdateQ(cfg, m, region, s, order);
    assert r.Keys == m.table.Keys;
    assert Reward(cfg, m.best, s) == reward;
    assert r[region] == Learned(cfg, m.table[region], reward, top);
  }

  /** A new region gets the reward, and with room for it no other changes. */
  lemma NewRegionLearns(cfg: Settings, m: Memory, region: int, s: Solution, order: seq<int>, reward: real)
    requires Enumerates(order, m.table) && region !in m.table
    requires reward == if m.best.None? then 1.0 else cfg.squash(m.best.value.value - s.value)
    ensures var r := UpdateQ(cfg, m, region, s, order);
      && region in r && r[region] == reward && SameBut(m.table, r, region)
      && (|m.table| < cfg.maxRegions || m.table == map[] ==> r.Keys == m.table.Keys + {region})
  {
    hide MaxQ, Learned, MinEntry;
    var r := UpdateQ(cfg, m, region, s, order);
    if m.table == map[] {
      NoOrder(order);
    }
    if |m.table| < cfg.maxRegions || order == [] {
      assert r.Keys == m.table.Keys + {region};
    }
  }

  lemma NoOrder(order: seq<int>)
    requires Enumerates(order, EMPTY.table)
    ensures order == []
  {
    EnumeratesAll(order, EMPTY.table);
  }

  /** A full memory gives up exactly one region for a new one, and one of least value. */
  lemma FullMemoryEvicts(cfg: Settings, m: Memory, region: int, s: Solution, order: seq<int>)
    requires Enumerates(order, m.table) && region !in m.table && |m.table| >= cfg.maxRegions && m.table != map[]
    ensures exists gone :: IsLeast(m.table, gone) && UpdateQ(cfg, m, region, s, order).Keys == m.table.Keys - {gone} + {region}
  {
    hide MaxQ, Learned, MinEntry;
    EnumeratesAll(order, m.table);
    var gone := MinEntry(order, m.table);
    LeastOf(order, m.table);
    assert UpdateQ(cfg, m, region, s, order).Keys == m.table.Keys - {gone} + {region};
  }

  ghost predicate IsLeast(table: map<int, real>, gone: int) {
    gone in table && forall id :: id in table ==> table[gone] <= table[id]
  }

  lemma LeastOf(order: seq<int>, table: map<int, real>)
    requires Enumerates(order, table) && order != []
    ensures IsLeast(table, MinEntry(order, table))
  {
    forall id | id in table
      ensures table[MinEntry(order, table)] <= table[id]
    {
      var i :| 0 <= i < |order| && order[i] == id;
    }
  }

  lemma LargestUnique(a: real, b: real, table: map<int, real>)
    requires IsLargest(a, table) && IsLargest(b, table)
    ensures a == b
  {
  }

  lemma LearnedMoves(cfg: Settings, q: real, reward: real, top: real)
    ensures Learned(cfg, q, reward, top) == (1.0 - cfg.alpha) * q + cfg.alpha * (reward + cfg.gamma * top)
  {
  }

  /** A better result never leaves its region with less. */
  lemma BetterEarnsMore(cfg: Settings, m: Memory, region: int, s: Solution, t: Solution, order: seq<int>)
    requires Monotone(cfg.squash) && cfg.alpha >= 0.0 && Enumerates(order, m.table)
    requires s.value <= t.value
    ensures region in UpdateQ(cfg, m, region, s, order) && region in UpdateQ(cfg, m, region, t, order)
    ensures UpdateQ(cfg, m, region, t, order)[region] <= UpdateQ(cfg, m, region, s, order)[region]
  {
    var a, b := Reward(cfg, m.best, t), Reward(cfg, m.best, s);
    if m.best.Some? {
      assert m.best.value.value - t.value <= m.best.value.value - s.value;
    }
    if region in m.table {
      LearnedGrows(cfg, m.table[region], a, b, MaxQ(order, m.table), MaxQ(order, m.table));
    }
  }

  /** Learning grows with the reward and, for a discount of at least 0, with the largest value. */
  lemma LearnedGrows(cfg: Settings, q: real, a: real, b: real, top: real, higher: real)
    requires cfg.alpha >= 0.0 && a <= b && (top == higher || (top <= higher && cfg.gamma >= 0.0))
    ensures Learned(cfg, q, a, top) <= Learned(cfg, q, b, higher)
  {
    hide Product;
    Scaled(cfg.gamma, top, higher);
    var x, y := a + Product(cfg.gamma, top) - q, b + Product(cfg.gamma, higher) - q;
    Scaled(cfg.alpha, x, y);
    LearnedAdds(cfg, q, a, top);
    LearnedAdds(cfg, q, b, higher);
  }

  lemma Scaled(c: real, x: real, y: real)
    requires x == y || (c >= 0.0 && x <= y)
    ensures Product(c, x) <= Product(c, y)
  {
    if x < y {
      assert c * (y - x) >= 0.0;
    }
  }

  lemma LearnedAdds(cfg: Settings, q: real, reward: real, top: real)
    ensures Learned(cfg, q, reward, top) == q + Product(cfg.alpha, reward + Product(cfg.gamma, top) - q)
  {
  }

  /** Judged against the best solution before it, a result starts a new region at 1 when it is the very
      first, at 0 or more when it is at least as good, and at 0 or less when it is worse. */
  lemma FirstValueSign(cfg: Settings, m: Memory, region: int, s: Solution, order: seq<int>)
    requires Monotone(cfg.squash) && cfg.squash(0.0) == 0.0
    requires Allowed(cfg, m, Learn(region, s, order)) && region !in m.table
    ensures region in Apply(cfg, m, Learn(region, s, order)).table
    ensures var q := Apply(cfg, m, Learn(region, s, order)).table[region];
      && (m.best.None? ==> q == 1.0)
      && (m.best.Some? && s.value <= m.best.value.value ==> q >= 0.0)
      && (m.best.Some? && s.value >= m.best.value.value ==> q <= 0.0)
  {
    if m.best.Some? {
      var diff := m.best.value.value - s.value;
      assert diff >= 0.0 ==> cfg.squash(0.0) <= cfg.squash(diff);
      assert diff <= 0.0 ==> cfg.squash(diff) <= cfg.squash(0.0);
    }
  }

  /** What a known region learns does not fall when the largest value remembered rises. */
  lemma HigherTopTeachesMore(cfg: Settings, m: Memory, n: Memory, region: int, s: Solution, order: seq<int>, other: seq<int>,
                             top: real, higher: real)
    requires cfg.alpha >= 0.0 && cfg.gamma >= 0.0 && m.best == n.best
    requires Enumerates(order, m.table) && Enumerates(other, n.table)
    requires region in m.table && region in n.table && m.table[region] == n.table[region]
    requires IsLargest(top, m.table) && IsLargest(higher, n.table) && top <= higher
    ensures UpdateQ(cfg, m, region, s, order)[region] <= UpdateQ(cfg, n, region, s, other)[region]
  {
    MaxQIsLargest(order, m.table);
    MaxQIsLargest(other, n.table);
    LargestUnique(top, MaxQ(order, m.table), m.table);
    LargestUnique(higher, MaxQ(other, n.table), n.table);
    var reward := Reward(cfg, m.best, s);
    LearnedGrows(cfg, m.table[region], reward, reward, top, higher);
  }

  /** The best solution is replaced exactly by one at another point that is at least the tolerance
      better; the first one is always taken. */
  lemma BestReplacedIff(b: Solution, s: Solution)
    ensures UpdateBest(None, s) == Some(s)
    ensures UpdateBest(Some(b), s) == Some(s) || UpdateBest(Some(b), s) == Some(b)
    ensures s != b ==>
      (UpdateBest(Some(b), s) == Some(s) <==> s.point != b.point && s.value + TOLERANCE <= b.value)
  {
  }

  /** Initialising: every id chosen holds 0, every other one what it held; a sample is as long as the
      memory allows and only names ids given. */
  lemma InitializedHolds(cfg: Settings, m: Memory, ids: seq<int>, sample: seq<int>)
    requires cfg.squash(0.0) == 0.0 && Allowed(cfg, m, Initialize(ids, sample))
    ensures var (chosen, r) := (if |ids| > cfg.maxRegions then sample else ids, Apply(cfg, m, Initialize(ids, sample)));
      && (|ids| > cfg.maxRegions ==> |chosen| == cfg.maxRegions)
      && (forall id :: id in chosen ==> id in ids && id in r.table && r.table[id] == 0.0)
      && (forall id :: id !in chosen ==> (id in r.table <==> id in m.table) && (id in m.table ==> r.table[id] == m.table[id]))
      && r.best == m.best
  {
    if |ids| > cfg.maxRegions {
      forall id | id in sample
        ensures id in ids
      {
        assert id in multiset(sample);
        assert id in multiset(ids);
      }
    }
  }

  // ----- every value stays within 1 / (1 - gamma)

  function Bound(cfg: Settings): (b: real)
    requires 0.0 <= cfg.gamma < 1.0
    ensures b >= 1.0
  {
    InverseAtLeastOne(1.0 - cfg.gamma);
    1.0 / (1.0 - cfg.gamma)
  }

  lemma InverseAtLeastOne(d: real)
    requires 0.0 < d <= 1.0
    ensures 1.0 / d >= 1.0
  {
    assert (1.0 / d) * d == 1.0;
  }

  ghost predicate Within(table: map<int, real>, b: real) {
    forall id :: id in table ==> -b <= table[id] <= b
  }

  lemma FixedPoint(cfg: Settings)
    requires 0.0 <= cfg.gamma < 1.0
    ensures 1.0 + Product(cfg.gamma, Bound(cfg)) == Bound(cfg)
  {
    var b, d := Bound(cfg), 1.0 - cfg.gamma;
    assert b * d == 1.0;
    assert b * d == b - b * cfg.gamma;
  }

  lemma ProductBound(c: real, x: real, b: real)
    requires c >= 0.0 && -b <= x <= b
    ensures -Product(c, b) <= Product(c, x) <= Product(c, b)
  {
    assert c * (b - x) >= 0.0 && c * (b + x) >= 0.0;
  }

  lemma Blend(a: real, q: real, t: real)
    ensures q + a * (t - q) == Product(1.0 - a, q) + Product(a, t)
    ensures Product(1.0 - a, q) + Product(a, q) == q
  {
  }

  lemma Contracts(a: real, g: real, b: real, q: real, r: real, top: real)
    requires 0.0 <= a <= 1.0 && 0.0 <= g && 1.0 + Product(g, b) == b
    requires -b <= q <= b && -b <= top <= b && -1.0 <= r <= 1.0
    ensures -b <= Product(1.0 - a, q) + Product(a, r + Product(g, top)) <= b
  {
    hide Product;
    var t := r + Product(g, top);
    ProductBound(g, top, b);
    ProductBound(a, t, b);
    ProductBound(1.0 - a, q, b);
    Blend(a, b, b);
  }

  lemma LearnedBlends(cfg: Settings, q: real, r: real, top: real)
    ensures Learned(cfg, q, r, top)
         == Product(1.0 - cfg.alpha, q) + Product(cfg.alpha, r + Product(cfg.gamma, top))
  {
  }

  lemma Contraction(cfg: Settings, q: real, r: real, top: real)
    requires 0.0 <= cfg.alpha <= 1.0 && 0.0 <= cfg.gamma < 1.0
    requires -Bound(cfg) <= q <= Bound(cfg) && -Bound(cfg) <= top <= Bound(cfg) && -1.0 <= r <= 1.0
    ensures -Bound(cfg) <= Learned(cfg, q, r, top) <= Bound(cfg)
  {
    hide Product, Bound;
    FixedPoint(cfg);
    Contracts(cfg.alpha, cfg.gamma, Bound(cfg), q, r, top);
    LearnedBlends(cfg, q, r, top);
  }

  lemma MaxWithin(order: seq<int>, table: map<int, real>, b: real)
    requires Knows(table, order) && Within(table, b) && b >= 0.0
    ensures -b <= MaxQ(order, table) <= b
  {
    if order != [] {
      var v := ValuesIn(order, table);
      var k :| 0 <= k < |v| && v[k] == Maximum(v);
      var id := order[k];
      assert id in table;
      assert -b <= table[id];
      assert MaxQ(order, table) == v[k];
    }
  }

  lemma UpdateQWithin(cfg: Settings, m: Memory, region: int, s: Solution, order: seq<int>)
    requires Rated(cfg) && Knows(m.table, order) && Within(m.table, Bound(cfg))
    ensures Within(UpdateQ(cfg, m, region, s, order), Bound(cfg))
  {
    var b, reward, maxQ := Bound(cfg), Reward(cfg, m.best, s), MaxQ(order, m.table);
    MaxWithin(order, m.table, b);
    if region in m.table {
      Contraction(cfg, m.table[region], reward, maxQ);
    }
  }

  lemma ApplyWithin(cfg: Settings, m: Memory, op: Operation)
    requires Rated(cfg) && Allowed(cfg, m, op) && Within(m.table, Bound(cfg))
    ensures Within(Apply(cfg, m, op).table, Bound(cfg))
  {
    if op.Learn? {
      UpdateQWithin(cfg, m, op.region, op.solution, op.order);
    }
  }

  /** After any history, whatever its order, every value lies within 1 / (1 - gamma). */
  lemma {:induction false} ValuesStayWithin(cfg: Settings, states: seq<Memory>, ops: seq<Operation>, k: nat)
    requires Rated(cfg) && IsHistory(cfg, states, ops) && k < |states|
    ensures Within(states[k].table, Bound(cfg))
  {
    if k > 0 {
      ValuesStayWithin(cfg, states, ops, k - 1);
      assert Follows(cfg, states[k - 1], ops[k - 1], states[k]);
      ApplyWithin(cfg, states[k - 1], ops[k - 1]);
    }
  }

  // ----- the table never outgrows the memory

  lemma SetOfSeq(ids: seq<int>)
    ensures |set id | id in ids| <= |ids|
  {
    if ids != [] {
      var last := |ids| - 1;
      SetOfSeq(ids[..last]);
      assert ids == ids[..last] + [ids[last]];
      assert (set id | id in ids) == (set id | id in ids[..last]) + {ids[last]};
    }
  }

  lemma DistinctSet(ids: seq<int>)
    requires forall p, q :: 0 <= p < q < |ids| ==> ids[p] != ids[q]
    ensures |set id | id in ids| == |ids|
  {
    if ids != [] {
      var last := |ids| - 1;
      DistinctSet(ids[..last]);
      assert ids == ids[..last] + [ids[last]];
      assert (set id | id in ids) == (set id | id in ids[..last]) + {ids[last]};
    }
  }

  lemma {:induction false} SameBagDistinct(a: seq<int>, b: seq<int>)
    requires multiset(a) == multiset(b)
    requires forall p, q :: 0 <= p < q < |a| ==> a[p] != a[q]
    ensures forall p, q :: 0 <= p < q < |b| ==> b[p] != b[q]
  {
    forall p, q | 0 <= p < q < |b|
      ensures b[p] != b[q]
    {
      if b[p] == b[q] {
        Twice(b, p, q);
        Once(a, b[p]);
        assert false;
      }
    }
  }

  lemma Twice(b: seq<int>, p: int, q: int)
    requires 0 <= p < q < |b| && b[p] == b[q]
    ensures multiset(b)[b[p]] >= 2
  {
    assert b == b[..p] + [b[p]] + b[p + 1..q] + [b[q]] + b[q + 1..];
  }

  lemma {:induction false} Once(a: seq<int>, x: int)
    requires forall p, q :: 0 <= p < q < |a| ==> a[p] != a[q]
    ensures multiset(a)[x] <= 1
  {
    if a != [] {
      var last := |a| - 1;
      Once(a[..last], x);
      assert a == a[..last] + [a[last]];
      if a[last] == x {
        assert x !in a[..last];
      }
    }
  }

  /** What an update of the region ids leaves: only ids it was given, as many as fit, old values as they
      were and new ones at 0, and nothing that fell out was worth more than anything that stayed. */
  lemma UpdateIdsKeepsTheBest(cfg: Settings, table: map<int, real>, ids: seq<int>, order: seq<int>)
    requires Sound(cfg) && Enumerates(order, Merged(cfg, table, ids))
    ensures var updated := UpdateIds(cfg, table, ids, order);
      && (forall id :: id in updated ==> id in ids && updated[id] == if id in table then table[id] else 0.0)
      && |updated| == Smaller(|set id | id in ids|, cfg.maxRegions)
      && (forall kept, dropped :: kept in updated && dropped in ids && dropped !in updated ==>
            (if dropped in table then table[dropped] else 0.0) <= updated[kept])
  {
    hide Ranked, Descending;
    RankedSize(cfg, table, ids, order);
    var merged, updated := Merged(cfg, table, ids), UpdateIds(cfg, table, ids, order);
    forall kept, dropped | kept in updated && dropped in ids && dropped !in updated
      ensures merged[dropped] <= updated[kept]
    {
      DroppedIsWorthLess(cfg, table, ids, order, kept, dropped);
    }
  }

  lemma DroppedIsWorthLess(cfg: Settings, table: map<int, real>, ids: seq<int>, order: seq<int>, kept: int, dropped: int)
    requires Enumerates(order, Merged(cfg, table, ids)) && dropped in ids
    requires kept in UpdateIds(cfg, table, ids, order) && dropped !in UpdateIds(cfg, table, ids, order)
    ensures Merged(cfg, table, ids)[dropped] <= UpdateIds(cfg, table, ids, order)[kept]
  {
    var merged := Merged(cfg, table, ids);
    var ranked := Ranked(order, merged);
    RankedIsSorted(order, merged);
    assert dropped in merged && dropped in order;
    assert dropped in multiset(ranked);
    DroppedRanksLower(cfg, ranked, merged, kept, dropped);
  }

  function Smaller(a: int, b: int): int {
    if a < b then a else b
  }

  lemma DroppedRanksLower(cfg: Settings, ranked: seq<int>, table: map<int, real>, kept: int, dropped: int)
    requires Knows(table, ranked) && Descending(ranked, table)
    requires kept in Best(cfg, ranked) && dropped in ranked && dropped !in Best(cfg, ranked)
    ensures table[dropped] <= table[kept]
  {
    var best := Best(cfg, ranked);
    var p :| 0 <= p < |best| && best[p] == kept;
    var q :| 0 <= q < |ranked| && ranked[q] == dropped;
    assert ranked[p] == kept;
    assert forall i :: 0 <= i < |best| ==> best[i] == ranked[i] && best[i] != dropped;
  }

  lemma RankedSize(cfg: Settings, table: map<int, real>, ids: seq<int>, order: seq<int>)
    requires Sound(cfg) && Enumerates(order, Merged(cfg, table, ids))
    ensures |UpdateIds(cfg, table, ids, order)| == Smaller(|set id | id in ids|, cfg.maxRegions)
  {
    var merged := Merged(cfg, table, ids);
    var ranked := Ranked(order, merged);
    var best := Best(cfg, ranked);
    RankedIsSorted(order, merged);
    SameBagDistinct(order, ranked);
    EnumeratesAll(order, merged);
    assert |ranked| == |multiset(ranked)| == |multiset(order)| == |order|;
    assert merged.Keys == set id | id in ids;
    DistinctSet(best);
    assert UpdateIds(cfg, table, ids, order).Keys == set id | id in best;
  }

  lemma InitializedSize(cfg: Settings, ids: seq<int>)
    ensures |Initialized(cfg, map[], ids)| <= |ids|
  {
    SetOfSeq(ids);
    assert Initialized(cfg, map[], ids).Keys == set id | id in ids;
  }

  lemma UpdateQSize(cfg: Settings, m: Memory, region: int, s: Solution, order: seq<int>)
    requires cfg.maxRegions >= 1 && Enumerates(order, m.table) && |m.table| <= cfg.maxRegions
    ensures |UpdateQ(cfg, m, region, s, order)| <= cfg.maxRegions
    ensures region in UpdateQ(cfg, m, region, s, order)
  {
    EnumeratesAll(order, m.table);
    var updated := UpdateQ(cfg, m, region, s, order);
    if region in m.table {
      assert updated.Keys == m.table.Keys;
    } else if |m.table| >= cfg.maxRegions {
      var gone := MinEntry(order, m.table);
      assert updated.Keys == m.table.Keys - {gone} + {region};
    } else {
      assert updated.Keys == m.table.Keys + {region};
    }
  }

  lemma ApplyFits(cfg: Settings, m: Memory, op: Operation)
    requires Sound(cfg) && Allowed(cfg, m, op) && |m.table| <= cfg.maxRegions
    requires op.Initialize? ==> m.table == map[]
    ensures |Apply(cfg, m, op).table| <= cfg.maxRegions
  {
    match op
    case Initialize(ids, sample) => InitializedSize(cfg, if |ids| > cfg.maxRegions then sample else ids);
    case UpdateRegionIds(ids, order) => RankedSize(cfg, m.table, ids, order);
    case Learn(region, s, order) => UpdateQSize(cfg, m, region, s, order);
    case Reset =>
  }

  /** In every history an agent produces the table never holds more than `maxRegions` regions. */
  lemma {:induction false} TableFits(cfg: Settings, states: seq<Memory>, ops: seq<Operation>, k: nat)
    requires Sound(cfg) && IsHistory(cfg, states, ops) && ByAgent(states, ops) && k < |states|
    ensures |states[k].table| <= cfg.maxRegions
  {
    if k > 0 {
      TableFits(cfg, states, ops, k - 1);
      assert Follows(cfg, states[k - 1], ops[k - 1], states[k]);
      ApplyFits(cfg, states[k - 1], ops[k - 1]);
    }
  }

  /** A memory that is to hold no region at all still takes in the first one it learns about. */
  lemma FirstRegionAlwaysFits(cfg: Settings, region: int, s: Solution)
    ensures |UpdateQ(cfg, EMPTY, region, s, [])| == 1
    ensures cfg.maxRegions < 1 ==> |UpdateQ(cfg, EMPTY, region, s, [])| > cfg.maxRegions
  {
    assert UpdateQ(cfg, EMPTY, region, s, []).Keys == {region};
  }

  // ----- the roulette

  /** The values shifted so that the least one is 1. */
  function NormalizedRewards(v: seq<real>, minReward: real): (w: seq<real>)
    ensures |w| == |v| && forall i :: 0 <= i < |v| ==> w[i] == v[i] - minReward + 1.0
  {
    seq(|v|, i requires 0 <= i < |v| => v[i] - minReward + 1.0)
  }

  function Shifted(order: seq<int>, table: map<int, real>): (w: seq<real>)
    requires order != [] && Knows(table, order)
    ensures |w| == |order|
  {
    NormalizedRewards(ValuesIn(order, table), Minimum(ValuesIn(order, table)))
  }

  function Shares(w: seq<real>, total: real): (p: seq<real>)
    requires total != 0.0
    ensures |p| == |w| && forall i :: 0 <= i < |w| ==> p[i] == w[i] / total
  {
    seq(|w|, i requires 0 <= i < |w| => w[i] / total)
  }

  /** The upper end of the interval of entry `k`. */
  function End(p: seq<real>, k: nat): real
    requires k < |p|
  {
    Sum(p[..k + 1])
  }

  function Start(p: seq<real>, k: nat): real
    requires k < |p|
  {
    Sum(p[..k])
  }

  /** The dice falls into the interval of entry `k`; the first interval is closed. */
  ghost predicate Falls(p: seq<real>, dice: real, k: int) {
    0 <= k < |p| && (k == 0 || Start(p, k) < dice) && dice <= End(p, k)
  }

  ghost predicate AtLeastOne(w: seq<real>) {
    forall i :: 0 <= i < |w| ==> w[i] >= 1.0
  }

  lemma PrefixStep(p: seq<real>, k: nat)
    requires k < |p|
    ensures Sum(p[..k + 1]) == Sum(p[..k]) + p[k]
  {
    assert p[..k + 1][..k] == p[..k];
  }

  lemma {:induction false} SumAtLeast(w: seq<real>)
    requires AtLeastOne(w)
    ensures Sum(w) >= |w| as real
  {
    if w != [] {
      SumAtLeast(w[..|w| - 1]);
    }
  }

  /** Weights of at most `c`, one of which is 1. */
  lemma {:induction false} SumAtMost(w: seq<real>, c: real)
    requires c >= 1.0 && forall i :: 0 <= i < |w| ==> w[i] <= c
    ensures Sum(w) <= Times(|w|, c)
    ensures w != [] && 1.0 in w ==> Sum(w) <= 1.0 + Times(|w| - 1, c)
  {
    if w != [] {
      var init, last := w[..|w| - 1], w[|w| - 1];
      SumAtMost(init, c);
      if 1.0 in w && last != 1.0 {
        assert w == init + [last];
      }
    }
  }

  lemma Quotients(a: real, b: real, t: real)
    requires t > 0.0
    ensures (a + b) / t == a / t + b / t
    ensures 0.0 / t == 0.0 && t / t == 1.0
  {
  }

  lemma {:induction false} SharesSum(w: seq<real>, t: real, k: nat)
    requires t > 0.0 && k <= |w|
    ensures Sum(Shares(w, t)[..k]) == Sum(w[..k]) / t
  {
    Quotients(0.0, 0.0, t);
    if k > 0 {
      SharesSum(w, t, k - 1);
      PrefixStep(Shares(w, t), k - 1);
      PrefixStep(w, k - 1);
      Quotients(Sum(w[..k - 1]), w[k - 1], t);
    }
  }

  lemma {:induction false} PrefixesGrow(p: seq<real>, j: nat, k: nat)
    requires j <= k <= |p| && forall i :: 0 <= i < |p| ==> p[i] >= 0.0
    ensures Sum(p[..j]) <= Sum(p[..k])
  {
    if j < k {
      PrefixesGrow(p, j, k - 1);
      PrefixStep(p, k - 1);
    }
  }

  lemma WeightsOf(order: seq<int>, table: map<int, real>, b: real)
    requires order != [] && Enumerates(order, table) && Within(table, b) && b >= 0.0
    ensures var w := Shifted(order, table);
      AtLeastOne(w) && 1.0 in w && forall i :: 0 <= i < |w| ==> w[i] <= 2.0 * b + 1.0
  {
    var v := ValuesIn(order, table);
    var m := Minimum(v);
    var k :| 0 <= k < |v| && v[k] == m;
    assert Shifted(order, table)[k] == 1.0;
    forall i | 0 <= i < |v|
      ensures -b <= v[i] <= b
    {
      assert order[i] in table;
    }
  }

  lemma ShareAtLeast(w: real, t: real, c: real)
    requires w >= 1.0 && 0.0 < t <= c
    ensures w / t >= 1.0 / c
  {
    assert (w / t) * t == w && (1.0 / c) * c == 1.0;
    assert (w / t) >= 0.0;
    assert (w / t) * c >= (w / t) * t;
    assert ((w / t) - 1.0 / c) * c >= 0.0;
  }

  /** The inverse of the least share among `n` regions with values within `b`. */
  function Crowd(n: int, b: real): (c: real)
    requires n >= 1 && b >= 0.0
    ensures c >= 1.0
  {
    TimesMonotone(0, n - 1, 2.0 * b + 1.0);
    1.0 + Times(n - 1, 2.0 * b + 1.0)
  }

  /** The length of the interval of each remembered id. */
  lemma IntervalLength(order: seq<int>, table: map<int, real>, b: real, n: int, k: nat)
    requires order != [] && Enumerates(order, table) && Within(table, b) && b >= 0.0
    requires |table| <= n && k < |order| && n >= 1
    ensures var w := Shifted(order, table);
      && Sum(w) >= 1.0
      && End(Shares(w, Sum(w)), k) - Start(Shares(w, Sum(w)), k) >= 1.0 / Crowd(n, b)
  {
    hide Sum, Times, Shifted, Within;
    var w := Shifted(order, table);
    WeightsOf(order, table, b);
    EnumeratesAll(order, table);
    SumAtLeast(w);
    SumAtMost(w, 2.0 * b + 1.0);
    TimesMonotone(|w| - 1, n - 1, 2.0 * b + 1.0);
    PrefixStep(Shares(w, Sum(w)), k);
    ShareAtLeast(w[k], Sum(w), Crowd(n, b));
  }

  /** The intervals start at 0, end at 1 and leave no gap. */
  lemma IntervalsCover(w: seq<real>)
    requires w != [] && AtLeastOne(w)
    ensures Sum(w) >= 1.0
    ensures var p := Shares(w, Sum(w));
      && Start(p, 0) == 0.0 && End(p, |p| - 1) == 1.0
      && (forall k: nat :: 0 < k < |p| ==> Start(p, k) == End(p, k - 1))
  {
    SumAtLeast(w);
    var p := Shares(w, Sum(w));
    SharesSum(w, Sum(w), |w|);
    Quotients(Sum(w), 0.0, Sum(w));
    assert w[..|w|] == w && p[..|p|] == p;
  }

  /** Each draw falls into exactly one of the intervals. */
  lemma FallsOnce(w: seq<real>, dice: real)
    requires w != [] && AtLeastOne(w) && 0.0 <= dice <= 1.0 && Sum(w) >= 1.0
    ensures exists k :: Falls(Shares(w, Sum(w)), dice, k)
    ensures forall j, k :: Falls(Shares(w, Sum(w)), dice, j) && Falls(Shares(w, Sum(w)), dice, k) ==> j == k
  {
    hide Sum;
    IntervalsCover(w);
    var p := Shares(w, Sum(w));
    SharesPositive(w, Sum(w));
    FallsSomewhere(p, dice, |p| - 1);
    forall j, k | Falls(p, dice, j) && Falls(p, dice, k)
      ensures j == k
    {
      if j < k {
        PrefixesGrow(p, j + 1, k);
      } else if k < j {
        PrefixesGrow(p, k + 1, j);
      }
    }
  }

  lemma SharesPositive(w: seq<real>, t: real)
    requires AtLeastOne(w) && t > 0.0
    ensures forall i :: 0 <= i < |w| ==> Shares(w, t)[i] >= 0.0
  {
  }

  lemma {:induction false} FallsSomewhere(p: seq<real>, dice: real, k: nat)
    requires k < |p| && dice <= End(p, k)
    ensures exists j :: Falls(p, dice, j)
  {
    if k == 0 || Start(p, k) < dice {
      assert Falls(p, dice, k);
    } else {
      FallsSomewhere(p, dice, k - 1);
    }
  }

  /** Of two remembered regions the one of the higher value never has the shorter interval, and the
      lengths differ in proportion to the values. */
  lemma HigherValueLongerInterval(order: seq<int>, table: map<int, real>, j: nat, k: nat)
    requires order != [] && Enumerates(order, table) && j < |order| && k < |order|
    ensures var w := Shifted(order, table);
      && Sum(w) >= 1.0
      && var p := Shares(w, Sum(w));
      && (End(p, k) - Start(p, k)) - (End(p, j) - Start(p, j)) == (table[order[k]] - table[order[j]]) / Sum(w)
      && (table[order[j]] <= table[order[k]] ==> End(p, j) - Start(p, j) <= End(p, k) - Start(p, k))
  {
    hide Sum;
    var w, v := Shifted(order, table), ValuesIn(order, table);
    assert AtLeastOne(w);
    SumAtLeast(w);
    var p := Shares(w, Sum(w));
    PrefixStep(p, j);
    PrefixStep(p, k);
    QuotientDifference(w[k], w[j], Sum(w));
    assert w[k] - w[j] == v[k] - v[j];
  }

  lemma QuotientDifference(a: real, b: real, t: real)
    requires t > 0.0
    ensures a / t - b / t == (a - b) / t
    ensures a >= b ==> (a - b) / t >= 0.0
  {
  }

  /** After any history of an agent, every remembered region keeps a share of the roulette that depends
      only on the settings; with the defaults it is one hundredth. */
  lemma EveryRegionHasAShare(cfg: Settings, states: seq<Memory>, ops: seq<Operation>, j: nat, order: seq<int>, k: nat)
    requires Sound(cfg) && IsHistory(cfg, states, ops) && ByAgent(states, ops) && j < |states|
    requires Enumerates(order, states[j].table) && k < |order|
    ensures var w := Shifted(order, states[j].table);
      && Sum(w) >= 1.0
      && End(Shares(w, Sum(w)), k) - Start(Shares(w, Sum(w)), k) >= 1.0 / Crowd(cfg.maxRegions, Bound(cfg))
  {
    ValuesStayWithin(cfg, states, ops, j);
    TableFits(cfg, states, ops, j);
    IntervalLength(order, states[j].table, Bound(cfg), cfg.maxRegions, k);
  }

  lemma DefaultShare(cfg: Settings)
    requires cfg.gamma == 0.8 && cfg.maxRegions == 10
    ensures Bound(cfg) == 5.0 && 1.0 / Crowd(cfg.maxRegions, Bound(cfg)) == 0.01
  {
    TimesIsProduct(9, 11.0);
  }

  // ----- the object

  /** The ids of the list that are also among `others`, or those that are not. */
  function Those(ids: seq<int>, others: seq<int>, contained: bool): (r: seq<int>)
    ensures forall id :: id in r <==> id in ids && ((id in others) == contained)
  {
    if ids == [] then []
    else
      var last := ids[|ids| - 1];
      assert ids == ids[..|ids| - 1] + [last];
      Those(ids[..|ids| - 1], others, contained) + if (last in others) == contained then [last] else []
  }

  lemma RemovedAndAdded(cfg: Settings, table: map<int, real>, updatedIds: seq<int>, regionIds: seq<int>)
    requires Enumerates(regionIds, table)
    ensures var stay := Those(updatedIds, regionIds, true);
      var (remove, add) := (Those(regionIds, stay, false), Those(updatedIds, stay, false));
      (map id | id in table && id !in remove :: table[id]) + (map id | id in add :: cfg.squash(0.0))
      == Merged(cfg, table, updatedIds)
  {
    var stay := Those(updatedIds, regionIds, true);
    var remove, add := Those(regionIds, stay, false), Those(updatedIds, stay, false);
    forall id
      ensures id in remove <==> id in table && id !in updatedIds
      ensures id in add <==> id in updatedIds && id !in table
    {
      assert id in stay <==> id in updatedIds && id in table;
    }
  }

  class QLearningMemory {
    const cfg: Settings
    var qTable: map<int, real>
    var bestFoundSolution: Option<Solution>

    ghost function State(): Memory
      reads this
    {
      Memory(qTable, bestFoundSolution)
    }

    constructor (cfg: Settings)
      ensures this.cfg == cfg && State() == EMPTY
    {
      this.cfg := cfg;
      qTable, bestFoundSolution := map[], None;
    }

    method Initialize(regionIds: seq<int>, sample: seq<int>)
      requires Allowed(cfg, State(), Operation.Initialize(regionIds, sample))
      modifies this
      ensures State() == Apply(cfg, old(State()), Operation.Initialize(regionIds, sample))
    {
      var ids := if |regionIds| > cfg.maxRegions then sample else regionIds;
      PutAll(ids);
      assert qTable == Initialized(cfg, old(qTable), ids);
    }

    method PutAll(ids: seq<int>)
      modifies this`qTable
      ensures qTable == old(qTable) + map id | id in ids :: cfg.squash(0.0)
    {
      var i := 0;
      while i < |ids|
        invariant 0 <= i <= |ids|
        invariant qTable == old(qTable) + map id | id in ids[..i] :: cfg.squash(0.0)
      {
        assert ids[..i + 1] == ids[..i] + [ids[i]];
        qTable := qTable[ids[i] := cfg.squash(0.0)];
        i := i + 1;
      }
      assert ids[..i] == ids;
    }

    method RemoveAll(ids: seq<int>)
      modifies this`qTable
      ensures qTable == map id | id in old(qTable) && id !in ids :: old(qTable)[id]
    {
      var i := 0;
      while i < |ids|
        invariant 0 <= i <= |ids|
        invariant qTable == map id | id in old(qTable) && id !in ids[..i] :: old(qTable)[id]
      {
        assert ids[..i + 1] == ids[..i] + [ids[i]];
        qTable := qTable - {ids[i]};
        i := i + 1;
      }
      assert ids[..i] == ids;
    }

    /** `regionIds` is the iteration order of the table before, `order` that of the table to be ranked. */
    method UpdateRegionIds(updatedIds: seq<int>, regionIds: seq<int>, order: seq<int>)
      requires Enumerates(regionIds, qTable)
      requires Allowed(cfg, State(), Operation.UpdateRegionIds(updatedIds, order))
      modifies this
      ensures State() == Apply(cfg, old(State()), Operation.UpdateRegionIds(updatedIds, order))
    {
      var stay := Those(updatedIds, regionIds, true);
      var remove := Those(regionIds, stay, false);
      var add := Those(updatedIds, stay, false);
      RemoveAll(remove);
      PutAll(add);
      RemovedAndAdded(cfg, old(qTable), updatedIds, regionIds);
      qTable := Restricted(qTable, Best(cfg, Ranked(order, qTable)));
    }

    method UpdateQTable(regionId: int, s: Solution, order: seq<int>)
      requires Enumerates(order, qTable)
      modifies this`qTable
      ensures qTable == UpdateQ(cfg, old(State()), regionId, s, order)
    {
      var reward, maxQ := Reward(cfg, bestFoundSolution, s), MaxQ(order, qTable);
      if regionId in qTable {
        qTable := qTable[regionId := Learned(cfg, qTable[regionId], reward, maxQ)];
      } else {
        if |qTable| >= cfg.maxRegions && order != [] {
          qTable := qTable - {MinEntry(order, qTable)};
        }
        qTable := qTable[regionId := reward];
      }
    }

    method UpdateBestFoundSolution(s: Solution)
      modifies this`bestFoundSolution
      ensures bestFoundSolution == UpdateBest(old(bestFoundSolution), s)
    {
      if bestFoundSolution == None || Compare(s, bestFoundSolution.value) < 0 {
        bestFoundSolution := Some(s);
      }
    }

    method ResetMemory()
      modifies this
      ensures State() == Apply(cfg, old(State()), Reset)
    {
      bestFoundSolution := None;
      qTable := map[];
    }

    /** The agent's dispatch: an empty memory is initialised, any other is brought up to date. */
    method UpdateMemory(ids: seq<int>, sample: seq<int>, regionIds: seq<int>, order: seq<int>)
      requires qTable == map[] ==> Allowed(cfg, State(), Operation.Initialize(ids, sample))
      requires qTable != map[] ==>
        Enumerates(regionIds, qTable) && Allowed(cfg, State(), Operation.UpdateRegionIds(ids, order))
      modifies this
      ensures State() == Apply(cfg, old(State()), if old(qTable) == map[] then Operation.Initialize(ids, sample)
                                                  else Operation.UpdateRegionIds(ids, order))
    {
      if qTable == map[] {
        Initialize(ids, sample);
      } else {
        UpdateRegionIds(ids, regionIds, order);
      }
    }

    /** What an agent does with a result: the reward is judged against the best solution so far. */
    method Learn(regionId: int, s: Solution, order: seq<int>)
      requires Allowed(cfg, State(), Operation.Learn(regionId, s, order))
      modifies this
      ensures State() == Apply(cfg, old(State()), Operation.Learn(regionId, s, order))
    {
      UpdateQTable(regionId, s, order);
      UpdateBestFoundSolution(s);
    }

    /** Chooses the remembered region into whose interval the dice falls. */
    method ChooseRegion(ids: seq<int>, dice: real) returns (chosen: Option<int>)
      requires Enumerates(ids, qTable) && 0.0 <= dice <= 1.0
      ensures chosen == None <==> qTable == map[]
      ensures chosen.Some? ==> ids != [] && Sum(Shifted(ids, qTable)) >= 1.0
      ensures chosen.Some? ==>
        exists k :: Falls(Shares(Shifted(ids, qTable), Sum(Shifted(ids, qTable))), dice, k) && chosen.value == ids[k]
    {
      EnumeratesAll(ids, qTable);
      if qTable == map[] {
        return None;
      }
      var rewards := ValuesIn(ids, qTable);
      var normalized := NormalizedRewards(rewards, Minimum(rewards));
      IntervalsCover(normalized);
      var total := Sum(normalized);
      if total != 0.0 {
        var probabilities := Shares(normalized, total);
        var accumulated := Accumulate(probabilities);
        var i := Scan(probabilities, accumulated, dice);
        return Some(ids[i]);
      }
      return None;
    }

    method Scan(ghost probabilities: seq<real>, accumulated: array<real>, dice: real) returns (i: nat)
      requires probabilities != [] && accumulated.Length == |probabilities|
      requires forall k :: 0 <= k < |probabilities| ==> accumulated[k] == End(probabilities, k)
      requires dice <= End(probabilities, |probabilities| - 1)
      ensures Falls(probabilities, dice, i)
    {
      i := 0;
      while i < accumulated.Length
        invariant 0 <= i <= accumulated.Length
        invariant forall j :: 0 <= j < i ==> End(probabilities, j) < dice
      {
        if dice <= accumulated[i] {
          break;
        }
        i := i + 1;
      }
      assert i > 0 ==> End(probabilities, i - 1) < dice;
    }

    method Accumulate(probabilities: seq<real>) returns (accumulated: array<real>)
      requires probabilities != []
      ensures fresh(accumulated) && accumulated.Length == |probabilities|
      ensures forall k :: 0 <= k < |probabilities| ==> accumulated[k] == End(probabilities, k)
    {
      accumulated := new real[|probabilities|];
      accumulated[0] := probabilities[0];
      PrefixStep(probabilities, 0);
      for i := 1 to accumulated.Length
        invariant forall k :: 0 <= k < i ==> accumulated[k] == End(probabilities, k)
      {
        PrefixStep(probabilities, i);
        accumulated[i] := accumulated[i - 1] + probabilities[i];
      }
    }
  }
}
