/**
 * The emissions aggregator: per-scope totals as left folds of
 * quantity * factor over the scope's keys, the grand total, and the emission
 * intensity, which divides the total by the parsed revenue with JavaScript's
 * division semantics.
 */
module Emissions {
  import opened Wrappers
  import opened EmissionFactors

  /** An activity record: the quantity entered for each key of one scope. */
  type Record = map<Key, real>

  /** `a` has exactly the keys of scope `s`. */
  predicate IsRecordOf(s: Scope, a: Record) {
    forall k :: k in a <==> ScopeOf(k) == s
  }

  /**
   * The useState initial value of a scope's record: the scope's keys, each at
   * 0. The caller receives the record through this contract only, so the
   * recomputation over it is reasoned about symbolically.
   */
  method InitialRecord(s: Scope) returns (a: Record)
    ensures IsRecordOf(s, a)
    ensures forall k :: k in a ==> a[k] == 0.0
  {
    match s
    case Scope1 => a := map[Diesel := 0.0, Petrol := 0.0, NaturalGas := 0.0, Lpg := 0.0, Coal := 0.0];
    case Scope2 => a := map[Electricity := 0.0];
    case Scope3 =>
      a := map[AirTravel := 0.0, RoadTravel := 0.0, RailTravel := 0.0, Hotels := 0.0,
               Waste := 0.0, Water := 0.0, Paper := 0.0];
  }

  /** `parseFloat(text) || 0`: an unparsable entry (NaN) and 0 are both stored as 0. */
  function ParseOrZero(parsed: Option<real>): (v: real)
    ensures parsed.None? ==> v == 0.0
    ensures parsed.Some? ==> v == parsed.value
  {
    match parsed
    case None => 0.0
    case Some(x) => x
  }

  /** The emissions of one key: quantity times factor. */
  function Term(a: Record, k: Key): real
    requires k in a
  {
    a[k] * Factor(k)
  }

  /**
   * `Object.keys(a).reduce((sum, key) => sum + a[key] * EMISSION_FACTORS[key], acc)`
   * over the last `n` keys of scope `s`, the first of them at position
   * `KeyCount(s) - n`.
   */
  function Fold(s: Scope, a: Record, n: nat, acc: real): real
    requires IsRecordOf(s, a) && n <= KeyCount(s)
  {
    if n == 0 then acc else Fold(s, a, n - 1, acc + Term(a, KeyAt(s, KeyCount(s) - n)))
  }

  /**
   * Reference definition: the sum of the emissions of the last `n` keys of
   * scope `s`, independent of any accumulator.
   */
  function Sum(s: Scope, a: Record, n: nat): real
    requires IsRecordOf(s, a) && n <= KeyCount(s)
  {
    if n == 0 then 0.0 else Term(a, KeyAt(s, KeyCount(s) - n)) + Sum(s, a, n - 1)
  }

  /** The left fold adds the reference sum to its starting value. */
  lemma {:induction false} FoldIsSum(s: Scope, a: Record, n: nat, acc: real)
    requires IsRecordOf(s, a) && n <= KeyCount(s)
    ensures Fold(s, a, n, acc) == acc + Sum(s, a, n)
  {
    if n > 0 {
      FoldIsSum(s, a, n - 1, acc + Term(a, KeyAt(s, KeyCount(s) - n)));
    }
  }

  /** The scope 1 total: a fold over the scope 1 record's keys. */
  function Scope1Total(a: Record): (t: real)
    requires IsRecordOf(Scope1, a)
    ensures t == Sum(Scope1, a, KeyCount(Scope1))
  {
    FoldIsSum(Scope1, a, KeyCount(Scope1), 0.0);
    Fold(Scope1, a, KeyCount(Scope1), 0.0)
  }

  /** The scope 2 total: the electricity quantity times its factor, without a fold. */
  function Scope2Total(a: Record): (t: real)
    requires IsRecordOf(Scope2, a)
    ensures t == Sum(Scope2, a, KeyCount(Scope2))
  {
    a[Electricity] * Factor(Electricity)
  }

  /** The scope 3 total: a fold over the scope 3 record's keys. */
  function Scope3Total(a: Record): (t: real)
    requires IsRecordOf(Scope3, a)
    ensures t == Sum(Scope3, a, KeyCount(Scope3))
  {
    FoldIsSum(Scope3, a, KeyCount(Scope3), 0.0);
    Fold(Scope3, a, KeyCount(Scope3), 0.0)
  }

  /** The total of scope `s` over its record `a`, as the calculator computes it. */
  function ScopeTotal(s: Scope, a: Record): (t: real)
    requires IsRecordOf(s, a)
    ensures t == Sum(s, a, KeyCount(s))
  {
    match s
    case Scope1 => Scope1Total(a)
    case Scope2 => Scope2Total(a)
    case Scope3 => Scope3Total(a)
  }

  lemma Scope1Formula(a: Record)
    requires IsRecordOf(Scope1, a)
    ensures Scope1Total(a)
         == a[Diesel] * 2.68 + a[Petrol] * 2.31 + a[NaturalGas] * 2.03 + a[Lpg] * 2.98 + a[Coal] * 2419.0
  {
    assert Sum(Scope1, a, 1) == a[Coal] * 2419.0;
    assert Sum(Scope1, a, 2) == a[Lpg] * 2.98 + Sum(Scope1, a, 1);
    assert Sum(Scope1, a, 3) == a[NaturalGas] * 2.03 + Sum(Scope1, a, 2);
    assert Sum(Scope1, a, 4) == a[Petrol] * 2.31 + Sum(Scope1, a, 3);
    assert Sum(Scope1, a, 5) == a[Diesel] * 2.68 + Sum(Scope1, a, 4);
  }

  lemma Scope2Formula(a: Record)
    requires IsRecordOf(Scope2, a)
    ensures Scope2Total(a) == a[Electricity] * 0.82
  {
  }

  lemma Scope3Formula(a: Record)
    requires IsRecordOf(Scope3, a)
    ensures Scope3Total(a)
         == a[AirTravel] * 0.255 + a[RoadTravel] * 0.17 + a[RailTravel] * 0.041 + a[Hotels] * 29.4
          + a[Waste] * 500.0 + a[Water] * 0.344 + a[Paper] * 0.91
  {
    assert Sum(Scope3, a, 1) == a[Paper] * 0.91;
    assert Sum(Scope3, a, 2) == a[Water] * 0.344 + Sum(Scope3, a, 1);
    assert Sum(Scope3, a, 3) == a[Waste] * 500.0 + Sum(Scope3, a, 2);
    assert Sum(Scope3, a, 4) == a[Hotels] * 29.4 + Sum(Scope3, a, 3);
    assert Sum(Scope3, a, 5) == a[RailTravel] * 0.041 + Sum(Scope3, a, 4);
    assert Sum(Scope3, a, 6) == a[RoadTravel] * 0.17 + Sum(Scope3, a, 5);
    assert Sum(Scope3, a, 7) == a[AirTravel] * 0.255 + Sum(Scope3, a, 6);
  }

  /** Emissions are monotone in each quantity: a total over non-negative quantities is non-negative. */
  lemma {:induction false} SumNonNegative(s: Scope, a: Record, n: nat)
    requires IsRecordOf(s, a) && n <= KeyCount(s)
    requires forall k :: k in a ==> a[k] >= 0.0
    ensures Sum(s, a, n) >= 0.0
  {
    if n > 0 {
      var k := KeyAt(s, KeyCount(s) - n);
      assert Factor(k) > 0.0;
      assert Term(a, k) >= 0.0;
      SumNonNegative(s, a, n - 1);
    }
  }

  /**
   * A positive sum has a key with a positive quantity behind it among the keys
   * summed (whatever the signs of the others).
   */
  lemma {:induction false} PositiveSumHasPositiveQuantity(s: Scope, a: Record, n: nat)
    requires IsRecordOf(s, a) && n <= KeyCount(s)
    requires Sum(s, a, n) > 0.0
    ensures exists k :: k in a && IndexOf(k) >= KeyCount(s) - n && a[k] > 0.0
  {
    var k := KeyAt(s, KeyCount(s) - n);
    IndexOfKeyAt(s, KeyCount(s) - n);
    if a[k] <= 0.0 {
      assert Factor(k) > 0.0;
      assert Term(a, k) <= 0.0;
      PositiveSumHasPositiveQuantity(s, a, n - 1);
    }
  }

  /** With non-negative quantities, one positive quantity among the keys summed makes the sum positive. */
  lemma {:induction false} PositiveQuantityMakesSumPositive(s: Scope, a: Record, n: nat, j: Key)
    requires IsRecordOf(s, a) && n <= KeyCount(s)
    requires forall k :: k in a ==> a[k] >= 0.0
    requires j in a && IndexOf(j) >= KeyCount(s) - n && a[j] > 0.0
    ensures Sum(s, a, n) > 0.0
  {
    var k := KeyAt(s, KeyCount(s) - n);
    assert Factor(k) > 0.0;
    if j == k {
      assert Term(a, k) > 0.0;
      SumNonNegative(s, a, n - 1);
    } else {
      assert Term(a, k) >= 0.0;
      PositiveQuantityMakesSumPositive(s, a, n - 1, j);
    }
  }

  /** With non-negative quantities, a sum is positive exactly when one of its quantities is. */
  lemma SumPositiveIff(s: Scope, a: Record, n: nat)
    requires IsRecordOf(s, a) && n <= KeyCount(s)
    requires forall k :: k in a ==> a[k] >= 0.0
    ensures Sum(s, a, n) > 0.0 <==> exists k :: k in a && IndexOf(k) >= KeyCount(s) - n && a[k] > 0.0
  {
    if Sum(s, a, n) > 0.0 {
      PositiveSumHasPositiveQuantity(s, a, n);
    }
    if exists k :: k in a && IndexOf(k) >= KeyCount(s) - n && a[k] > 0.0 {
      var j :| j in a && IndexOf(j) >= KeyCount(s) - n && a[j] > 0.0;
      PositiveQuantityMakesSumPositive(s, a, n, j);
    }
  }

  /** A record of zero quantities has no emissions. */
  lemma {:induction false} SumOfZeroQuantities(s: Scope, a: Record, n: nat)
    requires IsRecordOf(s, a) && n <= KeyCount(s)
    requires forall k :: k in a ==> a[k] == 0.0
    ensures Sum(s, a, n) == 0.0
  {
    if n > 0 {
      SumOfZeroQuantities(s, a, n - 1);
    }
  }

  /** Changing the quantity of a key before the keys summed leaves the sum unchanged. */
  lemma {:induction false} SumIgnoresEarlierKeys(s: Scope, a: Record, n: nat, k: Key, v: real)
    requires IsRecordOf(s, a) && n <= KeyCount(s)
    requires ScopeOf(k) == s && IndexOf(k) < KeyCount(s) - n
    ensures IsRecordOf(s, a[k := v])
    ensures Sum(s, a[k := v], n) == Sum(s, a, n)
  {
    if n > 0 {
      IndexOfKeyAt(s, KeyCount(s) - n);
      SumIgnoresEarlierKeys(s, a, n - 1, k, v);
    }
  }

  /** Editing a key changes its emissions by the change in quantity times its factor. */
  lemma TermAfterEdit(a: Record, k: Key, v: real)
    requires k in a
    ensures Term(a[k := v], k) == Term(a, k) + (v - a[k]) * Factor(k)
  {
  }

  /** Editing the first key summed changes the sum by exactly the change in that key's emissions. */
  lemma SumAfterEditOfFirst(s: Scope, a: Record, n: nat, k: Key, v: real)
    requires IsRecordOf(s, a) && 0 < n <= KeyCount(s)
    requires k == KeyAt(s, KeyCount(s) - n)
    ensures IsRecordOf(s, a[k := v])
    ensures Sum(s, a[k := v], n) == Sum(s, a, n) + (v - a[k]) * Factor(k)
  {
    IndexOfKeyAt(s, KeyCount(s) - n);
    SumIgnoresEarlierKeys(s, a, n - 1, k, v);
    TermAfterEdit(a, k, v);
  }

  /**
   * Editing the quantity of one of the keys summed changes the sum by exactly
   * the change in that key's emissions.
   */
  lemma {:induction false} SumAfterEdit(s: Scope, a: Record, n: nat, k: Key, v: real)
    requires IsRecordOf(s, a) && n <= KeyCount(s)
    requires ScopeOf(k) == s && KeyCount(s) - n <= IndexOf(k)
    ensures IsRecordOf(s, a[k := v])
    ensures Sum(s, a[k := v], n) == Sum(s, a, n) + (v - a[k]) * Factor(k)
  {
    var first := KeyAt(s, KeyCount(s) - n);
    if first == k {
      SumAfterEditOfFirst(s, a, n, k, v);
    } else {
      assert Term(a[k := v], first) == Term(a, first);
      SumAfterEdit(s, a, n - 1, k, v);
    }
  }

  /** A JavaScript number: the result of a division, which may be infinite or NaN. */
  datatype Number = Finite(value: real) | PositiveInfinity | NegativeInfinity | NaN

  /**
   * JavaScript `x / y` for a finite `x` and the number `y` that parseFloat
   * produced (None: parseFloat gave NaN).
   */
  function Divide(x: real, y: Option<real>): (q: Number)
    ensures q.Finite? <==> y.Some? && y.value != 0.0
    ensures q == PositiveInfinity <==> y == Some(0.0) && x > 0.0
    ensures q == NegativeInfinity <==> y == Some(0.0) && x < 0.0
    ensures q.Finite? ==> q.value * y.value == x
  {
    match y
    case None => NaN
    case Some(r) =>
      if r != 0.0 then Finite(x / r)
      else if x > 0.0 then PositiveInfinity
      else if x < 0.0 then NegativeInfinity
      else NaN
  }

  /**
   * `companyInfo.revenue ? total / parseFloat(companyInfo.revenue) : 0`: only
   * an empty revenue field gives 0; a revenue of "0" or an unparsable one is
   * divided by all the same.
   */
  function Intensity(total: real, revenueText: string, revenueValue: Option<real>): (i: Number)
    ensures revenueText == "" ==> i == Finite(0.0)
    ensures revenueText != "" && revenueValue.Some? && revenueValue.value != 0.0 ==> i.Finite?
    ensures revenueText != "" && revenueValue.None? ==> i == NaN
    ensures revenueText != "" && revenueValue == Some(0.0) ==>
              i == (if total > 0.0 then PositiveInfinity else if total < 0.0 then NegativeInfinity else NaN)
    ensures revenueText != "" && i.Finite? ==> revenueValue.Some? && i.value * revenueValue.value == total
  {
    if revenueText == "" then Finite(0.0) else Divide(total, revenueValue)
  }

  /** The company record; every field holds the text as entered. */
  datatype CompanyInfo = CompanyInfo(name: string, cin: string, sector: string, employees: string, revenue: string)

  /** The cached result of the recomputation. */
  datatype Calculations = Calculations(scope1: real, scope2: real, scope3: real, total: real, intensity: Number)

  /**
   * The recomputation run after every change of an activity record or of the
   * revenue: the three scope totals, their sum and the intensity.
   */
  function Compute(s1: Record, s2: Record, s3: Record, revenueText: string, revenueValue: Option<real>): (c: Calculations)
    requires IsRecordOf(Scope1, s1) && IsRecordOf(Scope2, s2) && IsRecordOf(Scope3, s3)
    ensures c.scope1 == Sum(Scope1, s1, KeyCount(Scope1))
    ensures c.scope2 == Sum(Scope2, s2, KeyCount(Scope2))
    ensures c.scope3 == Sum(Scope3, s3, KeyCount(Scope3))
    ensures c.total == c.scope1 + c.scope2 + c.scope3
    ensures c.intensity == Intensity(c.total, revenueText, revenueValue)
  {
    var scope1Total := Scope1Total(s1);
    var scope2Total := Scope2Total(s2);
    var scope3Total := Scope3Total(s3);
    var total := scope1Total + scope2Total + scope3Total;
    Calculations(scope1Total, scope2Total, scope3Total, total, Intensity(total, revenueText, revenueValue))
  }

  /**
   * Scope 2 holds electricity alone, so replacing its record by a fresh
   * one-entry record is the same as updating that one entry.
   */
  lemma ElectricityRecordReplaced(a: Record, v: real)
    requires IsRecordOf(Scope2, a)
    ensures map[Electricity := v] == a[Electricity := v]
  {
    assert forall k :: k in a <==> k == Electricity;
  }

  /** Records of zero quantities and an empty revenue field give all-zero calculations. */
  lemma ComputeOfZeroRecords(s1: Record, s2: Record, s3: Record, revenueValue: Option<real>)
    requires IsRecordOf(Scope1, s1) && IsRecordOf(Scope2, s2) && IsRecordOf(Scope3, s3)
    requires forall k :: k in s1 ==> s1[k] == 0.0
    requires forall k :: k in s2 ==> s2[k] == 0.0
    requires forall k :: k in s3 ==> s3[k] == 0.0
    ensures Compute(s1, s2, s3, "", revenueValue) == Calculations(0.0, 0.0, 0.0, 0.0, Finite(0.0))
  {
    SumOfZeroQuantities(Scope1, s1, KeyCount(Scope1));
    SumOfZeroQuantities(Scope2, s2, KeyCount(Scope2));
    SumOfZeroQuantities(Scope3, s3, KeyCount(Scope3));
  }

  /** The worked example: 100 L of diesel and a revenue of 10 give 268 kg CO2e and an intensity of 26.8. */
  lemma DieselExample(s1: Record, s2: Record, s3: Record, revenueText: string)
    requires IsRecordOf(Scope1, s1) && IsRecordOf(Scope2, s2) && IsRecordOf(Scope3, s3)
    requires s1[Diesel] == 100.0 && forall k :: k in s1 && k != Diesel ==> s1[k] == 0.0
    requires forall k :: k in s2 ==> s2[k] == 0.0
    requires forall k :: k in s3 ==> s3[k] == 0.0
    requires revenueText != ""
    ensures Compute(s1, s2, s3, revenueText, Some(10.0)) == Calculations(268.0, 0.0, 0.0, 268.0, Finite(26.8))
  {
    var c := Compute(s1, s2, s3, revenueText, Some(10.0));
    Scope1Formula(s1);
    SumOfZeroQuantities(Scope3, s3, KeyCount(Scope3));
    assert c.scope1 == 268.0;
    assert c.scope2 == 0.0;
    assert c.scope3 == 0.0;
    assert c.total == 268.0;
    assert c.intensity == Finite(26.8);
  }

  /** 1000 kWh of electricity give 820 kg CO2e. */
  lemma ElectricityExample(a: Record)
    requires a == map[Electricity := 1000.0]
    ensures IsRecordOf(Scope2, a) && Scope2Total(a) == 820.0
  {
  }

  /** 1000 passenger-km of air travel and 500 km of road travel give 255 + 85 = 340 kg CO2e. */
  lemma TravelExample(a: Record)
    requires IsRecordOf(Scope3, a) && a[AirTravel] == 1000.0 && a[RoadTravel] == 500.0
    requires forall k :: k in a && k != AirTravel && k != RoadTravel ==> a[k] == 0.0
    ensures Scope3Total(a) == 340.0
  {
    Scope3Formula(a);
  }
}
