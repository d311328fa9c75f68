/** Per-cell statistics of benchmark results, over the reals. */
module Benchmarks {
  import opened Support

  function Sum(values: seq<real>): real {
    if values == [] then 0.0 else Sum(values[..|values| - 1]) + values[|values| - 1]
  }

  function Mean(values: seq<real>): real {
    if values == [] then 0.0 else Sum(values) / |values| as real
  }

  function Squared(x: real): (r: real)
    ensures r >= 0.0
  {
    x * x
  }

  /** Sum of squared distances from m. */
  function Deviation(values: seq<real>, m: real): real {
    if values == [] then 0.0
    else Deviation(values[..|values| - 1], m) + Squared(values[|values| - 1] - m)
  }

  /** Sample variance, zero for fewer than two values. */
  function Variance(values: seq<real>): real {
    if |values| <= 1 then 0.0 else Deviation(values, Mean(values)) / (|values| - 1) as real
  }

  const Z_95 := 1.96

  /** What the statistics need of the square root. */
  ghost predicate IsSqrt(sqrt: real -> real) {
    forall x :: x >= 0.0 ==> sqrt(x) >= 0.0 && Squared(sqrt(x)) == x
  }

  /** Standard error of the mean. */
  function StandardError(values: seq<real>, sqrt: real -> real): real
    requires values != []
  {
    sqrt(Variance(values) / |values| as real)
  }

  /** Confidence interval around the mean. */
  function Ci95(values: seq<real>, sqrt: real -> real): (real, real) {
    var m := Mean(values);
    if |values| <= 1 then (m, m)
    else
      var se := StandardError(values, sqrt);
      (m - Z_95 * se, m + Z_95 * se)
  }

  // ---- Bounds ----

  predicate Rates(values: seq<real>) {
    forall i :: 0 <= i < |values| ==> 0.0 <= values[i] <= 1.0
  }

  lemma {:induction false} SumOfRates(values: seq<real>)
    requires Rates(values)
    ensures 0.0 <= Sum(values) <= |values| as real
  {
    if values != [] {
      SumOfRates(values[..|values| - 1]);
    }
  }

  lemma MeanOfRates(values: seq<real>)
    requires Rates(values)
    ensures 0.0 <= Mean(values) <= 1.0
  {
    SumOfRates(values);
  }

  /** Squares summed. */
  function SumOfSquares(values: seq<real>): real {
    if values == [] then 0.0
    else SumOfSquares(values[..|values| - 1]) + Squared(values[|values| - 1])
  }

  lemma {:induction false} DeviationExpands(values: seq<real>, m: real)
    ensures Deviation(values, m) == SumOfSquares(values) - 2.0 * (m * Sum(values)) + |values| as real * Squared(m)
    ensures Deviation(values, m) >= 0.0
  {
    hide Squared;
    if values != [] {
      var init, x := values[..|values| - 1], values[|values| - 1];
      DeviationExpands(init, m);
      SquaredDifference(x, m);
      Distribute(m, Sum(init), x);
      Distribute(Squared(m), |init| as real, 1.0);
    }
  }

  lemma SquaredDifference(x: real, m: real)
    ensures Squared(x - m) == Squared(x) - 2.0 * (m * x) + Squared(m)
  {
  }

  lemma Distribute(a: real, b: real, c: real)
    ensures a * (b + c) == a * b + a * c
  {
  }

  /** For rates, the squares sum to at most the sum, and to the sum exactly when every rate is zero or one. */
  lemma {:induction false} SquaresOfRates(values: seq<real>)
    requires Rates(values)
    ensures SumOfSquares(values) <= Sum(values)
    ensures SumOfSquares(values) == Sum(values) <==> AllOrNothing(values)
  {
    hide Squared;
    if values != [] {
      var init, x := values[..|values| - 1], values[|values| - 1];
      SquaresOfRates(init);
      SquareOfRate(x);
      assert AllOrNothing(values) <==> AllOrNothing(init) && (x == 0.0 || x == 1.0);
    }
  }

  /** Every rate is zero or one. */
  predicate AllOrNothing(values: seq<real>) {
    forall i :: 0 <= i < |values| ==> values[i] == 0.0 || values[i] == 1.0
  }

  lemma SquareOfRate(x: real)
    requires 0.0 <= x <= 1.0
    ensures Squared(x) <= x && (Squared(x) == x <==> x == 0.0 || x == 1.0)
  {
    Gap(x);
    hide Times;
    if 0.0 < x < 1.0 {
      hide Squared;
      Positive(x, 1.0 - x);
    } else if x == 0.0 {
      assert Squared(0.0) == 0.0;
    } else {
      assert Squared(1.0) == 1.0;
    }
  }

  function Times(a: real, b: real): real {
    a * b
  }

  lemma Gap(x: real)
    ensures Times(x, 1.0 - x) == x - Squared(x)
  {
  }

  lemma Positive(a: real, b: real)
    requires a > 0.0 && b > 0.0
    ensures Times(a, b) > 0.0
  {
  }

  /** The largest sample variance rates with this mean can have: m (1 - m) n / (n - 1). */
  function VarianceBound(values: seq<real>): real
    requires |values| > 1
  {
    var n, m := |values| as real, Mean(values);
    m * (1.0 - m) * n / (n - 1.0)
  }

  lemma SumFromMean(values: seq<real>)
    requires values != []
    ensures Sum(values) == |values| as real * Mean(values)
  {
  }

  lemma MeanTimesSum(s: real, n: real, m: real)
    requires s == n * m
    ensures m * s == n * Squared(m)
    ensures s - n * Squared(m) == m * (1.0 - m) * n
  {
  }

  lemma DeviationAtMean(values: seq<real>)
    requires values != []
    ensures var n, m := |values| as real, Mean(values);
            Deviation(values, m) == SumOfSquares(values) - n * Squared(m)
  {
    hide Squared, Deviation, SumOfSquares;
    var n, m := |values| as real, Mean(values);
    DeviationExpands(values, m);
    SumFromMean(values);
    hide *;
    MeanTimesSum(Sum(values), n, m);
  }

  /** Variance of rates: never negative, at most the bound, and at the bound exactly when every rate is zero or one. */
  lemma VarianceOfRates(values: seq<real>)
    requires Rates(values) && |values| > 1
    ensures 0.0 <= Variance(values) <= VarianceBound(values)
    ensures Variance(values) == VarianceBound(values) <==> AllOrNothing(values)
  {
    hide *;
    var n, m := |values| as real, Mean(values);
    var d, b := Deviation(values, m), m * (1.0 - m) * n;
    VarianceIsQuotient(values);
    DeviationExpands(values, m);
    DeviationAtMean(values);
    SumFromMean(values);
    SquaresOfRates(values);
    MeanTimesSum(Sum(values), n, m);
    QuotientsCompare(d, b, n - 1.0);
  }

  lemma VarianceIsQuotient(values: seq<real>)
    requires |values| > 1
    ensures Variance(values) == Deviation(values, Mean(values)) / (|values| as real - 1.0)
    ensures VarianceBound(values)
            == Mean(values) * (1.0 - Mean(values)) * |values| as real / (|values| as real - 1.0)
  {
    hide Mean, Deviation;
    assert (|values| - 1) as real == |values| as real - 1.0;
  }

  lemma QuotientsCompare(a: real, b: real, c: real)
    requires c > 0.0 && 0.0 <= a <= b
    ensures 0.0 <= a / c <= b / c && (a / c == b / c <==> a == b)
  {
    assert a / c * c == a && b / c * c == b;
  }

  lemma VarianceNotNegative(values: seq<real>)
    ensures Variance(values) >= 0.0
  {
    hide Mean, Deviation;
    if |values| > 1 {
      DeviationExpands(values, Mean(values));
      QuotientsCompare(Deviation(values, Mean(values)), Deviation(values, Mean(values)), (|values| - 1) as real);
    }
  }

  /** The mean is the middle of its interval, whose half-width squared is z squared times the variance over n. */
  lemma MeanInInterval(values: seq<real>, sqrt: real -> real)
    requires IsSqrt(sqrt)
    ensures var (low, high) := Ci95(values, sqrt);
            && low <= Mean(values) <= high && low + high == 2.0 * Mean(values)
            && if |values| <= 1 then low == high
               else Squared(high - Mean(values)) == Squared(1.96) * (Variance(values) / |values| as real)
  {
    hide Mean, Variance;
    if |values| > 1 {
      var v, n := Variance(values), |values| as real;
      VarianceNotNegative(values);
      QuotientsCompare(v, v, n);
      var se := StandardError(values, sqrt);
      assert se >= 0.0 && Squared(se) == v / n;
      SquaredProduct(Z_95, se);
    }
  }

  lemma SquaredProduct(a: real, b: real)
    ensures Squared(a * b) == Squared(a) * Squared(b)
  {
    assert a * b * (a * b) == a * a * (b * b);
  }

  // ---- Cells ----

  /** One benchmark instance: whether each run resolved it, and the cause of each escalation. */
  datatype Instance = Instance(
    id: string, topology: Option<string>, model: Option<string>, resolved: seq<bool>, causes: seq<Option<string>>)

  type Key = (string, string)

  function Named(name: Option<string>): string {
    if name.Some? then name.value else "unknown"
  }

  function KeyOf(i: Instance): Key {
    (Named(i.topology), Named(i.model))
  }

  /** The instances of one cell, in input order. */
  function Group(instances: seq<Instance>, key: Key): seq<Instance> {
    if instances == [] then []
    else
      var last := instances[|instances| - 1];
      Group(instances[..|instances| - 1], key) + if KeyOf(last) == key then [last] else []
  }

  function Keys(instances: seq<Instance>): set<Key> {
    set i | 0 <= i < |instances| :: KeyOf(instances[i])
  }

  function Flags(resolved: seq<bool>): seq<real> {
    seq(|resolved|, i requires 0 <= i < |resolved| => if resolved[i] then 1.0 else 0.0)
  }

  /** Per-instance success rates of a group. */
  function SuccessRates(group: seq<Instance>): seq<real> {
    seq(|group|, i requires 0 <= i < |group| => Mean(Flags(group[i].resolved)))
  }

  function Counted(causes: seq<Option<string>>, counts: map<string, nat>): map<string, nat> {
    if causes == [] then counts
    else
      var before := Counted(causes[..|causes| - 1], counts);
      var cause := Named(causes[|causes| - 1]);
      before[cause := GetOr(before, cause, 0) + 1]
  }

  /** How often each cause occurs in a group. */
  function CauseCounts(group: seq<Instance>): map<string, nat> {
    if group == [] then map[]
    else Counted(group[|group| - 1].causes, CauseCounts(group[..|group| - 1]))
  }

  function Escalations(group: seq<Instance>): nat {
    if group == [] then 0 else Escalations(group[..|group| - 1]) + |group[|group| - 1].causes|
  }

  datatype Cell = Cell(
    key: Key, n: nat, mean: real, variance: real, ciLow: real, ciHigh: real,
    causes: map<string, nat>, instances: seq<Instance>)

  function CellOf(key: Key, group: seq<Instance>, sqrt: real -> real): Cell {
    var rates := SuccessRates(group);
    var (low, high) := Ci95(rates, sqrt);
    Cell(key, |group|, Mean(rates), Variance(rates), low, high, CauseCounts(group), group)
  }

  method GroupInstances(instances: seq<Instance>) returns (groups: map<Key, seq<Instance>>)
    ensures groups.Keys == Keys(instances)
    ensures forall key :: key in groups ==> groups[key] == Group(instances, key)
  {
    groups := map[];
    for i := 0 to |instances|
      invariant groups.Keys == Keys(instances[..i])
      invariant forall key :: GetOr(groups, key, []) == Group(instances[..i], key)
    {
      var key := KeyOf(instances[i]);
      groups := groups[key := GetOr(groups, key, []) + [instances[i]]];
      assert instances[..i + 1][..i] == instances[..i];
      KeysExtend(instances[..i + 1]);
    }
    assert instances[..|instances|] == instances;
  }

  lemma KeysExtend(instances: seq<Instance>)
    requires instances != []
    ensures Keys(instances) == Keys(instances[..|instances| - 1]) + {KeyOf(instances[|instances| - 1])}
  {
  }

  method CountCauses(group: seq<Instance>) returns (counts: map<string, nat>)
    ensures counts == CauseCounts(group)
  {
    counts := map[];
    for i := 0 to |group|
      invariant counts == CauseCounts(group[..i])
    {
      ghost var before := counts;
      var causes := group[i].causes;
      for j := 0 to |causes|
        invariant counts == Counted(causes[..j], before)
      {
        var cause := Named(causes[j]);
        counts := counts[cause := GetOr(counts, cause, 0) + 1];
        assert causes[..j + 1][..j] == causes[..j];
      }
      assert causes[..|causes|] == causes && group[..i + 1][..i] == group[..i];
    }
    assert group[..|group|] == group;
  }

  function CellKeys(cells: seq<Cell>): set<Key> {
    set i | 0 <= i < |cells| :: cells[i].key
  }

  lemma CellKeysExtend(cells: seq<Cell>, c: Cell)
    ensures CellKeys(cells + [c]) == CellKeys(cells) + {c.key}
  {
    assert forall i :: 0 <= i < |cells| ==> (cells + [c])[i] == cells[i];
    assert (cells + [c])[|cells|] == c;
  }

  /** One cell per (topology, model), each holding exactly its instances. */
  method ComputeCells(instances: seq<Instance>, sqrt: real -> real) returns (cells: seq<Cell>)
    ensures CellKeys(cells) == Keys(instances) && |cells| == |Keys(instances)|
    ensures forall i :: 0 <= i < |cells| ==> cells[i] == CellOf(cells[i].key, Group(instances, cells[i].key), sqrt)
  {
    hide Group, CauseCounts, Mean, Variance, Ci95, SuccessRates, CellKeys, Keys;
    var groups := GroupInstances(instances);
    var remaining := groups.Keys;
    cells := [];
    assert CellKeys([]) == {} by { NoCells(); }
    while remaining != {}
      invariant remaining <= groups.Keys
      invariant CellKeys(cells) == groups.Keys - remaining && |cells| + |remaining| == |groups.Keys|
      invariant forall i :: 0 <= i < |cells| ==> cells[i] == CellOf(cells[i].key, Group(instances, cells[i].key), sqrt)
      decreases |remaining|
    {
      var key :| key in remaining;
      remaining := remaining - {key};
      var group := groups[key];
      var rates := SuccessRates(group);
      var causes := CountCauses(group);
      var (low, high) := Ci95(rates, sqrt);
      var cell := Cell(key, |group|, Mean(rates), Variance(rates), low, high, causes, group);
      CellKeysExtend(cells, cell);
      cells := cells + [cell];
    }
  }

  lemma NoCells()
    ensures CellKeys([]) == {}
  {
  }

  // ---- What the cells add up to ----

  lemma FlagsAreRates(resolved: seq<bool>)
    ensures 0.0 <= Mean(Flags(resolved)) <= 1.0
  {
    MeanOfRates(Flags(resolved));
  }

  lemma {:induction false} FlagsSumToSuccesses(resolved: seq<bool>)
    ensures Sum(Flags(resolved)) == multiset(resolved)[true] as real
  {
    if resolved != [] {
      var init, last := resolved[..|resolved| - 1], resolved[|resolved| - 1];
      FlagsSumToSuccesses(init);
      assert resolved == init + [last] && Flags(resolved)[..|init|] == Flags(init);
    }
  }

  /** An instance's rate is its share of resolved runs, and the cell's mean the mean of these shares. */
  lemma RatesAreShares(group: seq<Instance>, i: nat)
    requires i < |group|
    ensures var rates, runs := SuccessRates(group), group[i].resolved;
            && |rates| == |group|
            && rates[i] * |runs| as real == multiset(runs)[true] as real
            && (runs == [] ==> rates[i] == 0.0)
            && Sum(rates) == |group| as real * Mean(rates)
  {
    hide Sum;
    FlagsSumToSuccesses(group[i].resolved);
    if group[i].resolved != [] {
      SumFromMean(Flags(group[i].resolved));
    }
    SumFromMean(SuccessRates(group));
  }

  /** Every cell's mean is a rate inside its interval, and its variance is within the bound for its mean. */
  lemma CellBounds(instances: seq<Instance>, key: Key, sqrt: real -> real)
    requires IsSqrt(sqrt)
    ensures var c := CellOf(key, Group(instances, key), sqrt);
            && c.key == key && c.instances == Group(instances, key) && c.n == |c.instances|
            && (forall cause :: GetOr(c.causes, cause, 0) == Given(c.instances, cause))
            && c.n as real * c.mean == Sum(SuccessRates(c.instances))
            && 0.0 <= c.mean <= 1.0
            && c.ciLow <= c.mean <= c.ciHigh && c.ciLow + c.ciHigh == 2.0 * c.mean
            && (c.n <= 1 ==> c.variance == 0.0 && c.ciLow == c.ciHigh)
            && (c.n > 1 ==> 0.0 <= c.variance <= VarianceBound(SuccessRates(c.instances)))
  {
    hide Mean, Variance, Ci95, IsSqrt, Sum, CauseCounts, Given;
    var group := Group(instances, key);
    var rates := SuccessRates(group);
    forall i | 0 <= i < |rates| ensures 0.0 <= rates[i] <= 1.0 {
      FlagsAreRates(group[i].resolved);
    }
    MeanOfRates(rates);
    MeanInInterval(rates, sqrt);
    CellAddsUp(group);
    if |rates| > 1 {
      VarianceOfRates(rates);
    } else {
      FewValues(rates);
    }
  }

  lemma CellAddsUp(group: seq<Instance>)
    ensures forall cause :: GetOr(CauseCounts(group), cause, 0) == Given(group, cause)
    ensures |group| as real * Mean(SuccessRates(group)) == Sum(SuccessRates(group))
  {
    hide *;
    forall cause ensures GetOr(CauseCounts(group), cause, 0) == Given(group, cause) {
      CausesAreCounted(group, cause);
    }
    if group == [] {
      EmptyCell(group);
    } else {
      RatesAreShares(group, 0);
    }
  }

  lemma EmptyCell(group: seq<Instance>)
    requires group == []
    ensures Sum(SuccessRates(group)) == 0.0
  {
  }

  lemma FewValues(values: seq<real>)
    requires |values| <= 1
    ensures Variance(values) == 0.0
  {
  }

  /** Sizes of the groups of a set of keys, added up. */
  ghost function GroupSizes(instances: seq<Instance>, keys: set<Key>): int {
    MapSum(map k | k in keys :: |Group(instances, k)|)
  }

  lemma GroupExtend(instances: seq<Instance>, i: Instance, key: Key)
    ensures Group(instances + [i], key) == Group(instances, key) + if KeyOf(i) == key then [i] else []
  {
    assert (instances + [i])[..|instances|] == instances;
  }

  lemma GroupSizesExtend(instances: seq<Instance>, i: Instance, keys: set<Key>)
    requires KeyOf(i) in keys
    ensures GroupSizes(instances + [i], keys) == GroupSizes(instances, keys) + 1
  {
    hide Group, MapSum, KeyOf;
    var m: map<Key, int> := map k | k in keys :: |Group(instances, k)|;
    var m': map<Key, int> := map k | k in keys :: |Group(instances + [i], k)|;
    forall k | k in keys ensures m'[k] == m[k] + if k == KeyOf(i) then 1 else 0 {
      GroupExtend(instances, i, k);
    }
    MapSumUpdate(m, KeyOf(i), m[KeyOf(i)] + 1);
    assert m' == m[KeyOf(i) := m[KeyOf(i)] + 1];
  }

  lemma {:induction false} SizesOver(instances: seq<Instance>, keys: set<Key>)
    requires Keys(instances) <= keys
    ensures GroupSizes(instances, keys) == |instances|
  {
    if instances == [] {
      var m: map<Key, int> := map k | k in keys :: |Group(instances, k)|;
      MapSumZero(m);
    } else {
      var init, last := instances[..|instances| - 1], instances[|instances| - 1];
      KeysExtend(instances);
      SizesOver(init, keys);
      GroupSizesExtend(init, last, keys);
      assert init + [last] == instances;
    }
  }

  /** The cells partition the instances: the sizes add up, and a cell holds an instance exactly when the keys agree. */
  lemma CellsPartition(instances: seq<Instance>, key: Key, i: Instance)
    ensures GroupSizes(instances, Keys(instances)) == |instances|
    ensures multiset(Group(instances, key))[i] == if KeyOf(i) == key then multiset(instances)[i] else 0
  {
    SizesOver(instances, Keys(instances));
    GroupHolds(instances, key, i);
  }

  lemma {:induction false} GroupHolds(instances: seq<Instance>, key: Key, i: Instance)
    ensures multiset(Group(instances, key))[i] == if KeyOf(i) == key then multiset(instances)[i] else 0
  {
    if instances != [] {
      var init, last := instances[..|instances| - 1], instances[|instances| - 1];
      GroupHolds(init, key, i);
      assert instances == init + [last];
    }
  }

  /** A cell's instances are picked one by one, by topology and model with unknown for what is missing, in order. */
  lemma {:induction false} GroupPicksInOrder(before: seq<Instance>, i: Instance, later: seq<Instance>, key: Key)
    ensures Group(before + [i] + later, key)
            == Group(before, key)
               + (if (if i.topology.Some? then i.topology.value else "unknown") == key.0
                     && (if i.model.Some? then i.model.value else "unknown") == key.1 then [i] else [])
               + Group(later, key)
  {
    if later == [] {
      assert before + [i] + later == before + [i];
      GroupExtend(before, i, key);
    } else {
      var init, last := later[..|later| - 1], later[|later| - 1];
      GroupPicksInOrder(before, i, init, key);
      assert before + [i] + later == before + [i] + init + [last] && later == init + [last];
      GroupExtend(before + [i] + init, last, key);
      GroupExtend(init, last, key);
    }
  }

  /** How often escalations of a group give a cause; a missing cause counts as unknown. */
  function Given(group: seq<Instance>, cause: string): nat {
    if group == [] then 0
    else
      var causes := multiset(group[|group| - 1].causes);
      Given(group[..|group| - 1], cause) + causes[Some(cause)] + if cause == "unknown" then causes[None] else 0
  }

  lemma {:induction false} CountedGives(causes: seq<Option<string>>, counts: map<string, nat>, cause: string)
    ensures GetOr(Counted(causes, counts), cause, 0)
            == GetOr(counts, cause, 0) + multiset(causes)[Some(cause)]
               + if cause == "unknown" then multiset(causes)[None] else 0
  {
    if causes != [] {
      var init, last := causes[..|causes| - 1], causes[|causes| - 1];
      CountedGives(init, counts, cause);
      assert causes == init + [last];
    }
  }

  /** Each cause is counted as often as the cell's escalations give it. */
  lemma {:induction false} CausesAreCounted(group: seq<Instance>, cause: string)
    ensures GetOr(CauseCounts(group), cause, 0) == Given(group, cause)
  {
    if group != [] {
      CausesAreCounted(group[..|group| - 1], cause);
      CountedGives(group[|group| - 1].causes, CauseCounts(group[..|group| - 1]), cause);
    }
  }

  lemma {:induction false} CountedSums(causes: seq<Option<string>>, counts: map<string, nat>)
    ensures MapSum(Counted(causes, counts)) == MapSum(counts) + |causes|
  {
    if causes != [] {
      var init := causes[..|causes| - 1];
      CountedSums(init, counts);
      var before := Counted(init, counts);
      MapSumUpdate(before, Named(causes[|causes| - 1]), GetOr(before, Named(causes[|causes| - 1]), 0) + 1);
    }
  }

  /** The cause counts of a cell add up to its number of escalations. */
  lemma {:induction false} CausesAddUp(group: seq<Instance>)
    ensures MapSum(CauseCounts(group)) == Escalations(group)
  {
    if group != [] {
      CausesAddUp(group[..|group| - 1]);
      CountedSums(group[|group| - 1].causes, CauseCounts(group[..|group| - 1]));
    }
  }
}
