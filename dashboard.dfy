/**
 * Values the dashboard derives from the cached calculations: tonnes for
 * display, each scope's share of the total as a rounded percentage, and the
 * compliance checklist.
 */
module Dashboard {
  import opened Wrappers
  import opened EmissionFactors
  import opened Emissions

  /** Emissions are computed in kg CO2e and shown in tonnes. */
  function ToTonnes(kg: real): (t: real)
    ensures t * 1000.0 == kg
  {
    kg / 1000.0
  }

  /** JavaScript `Math.round` of a finite number: the nearest integer, halves rounded up. */
  function RoundHalfUp(x: real): (n: int)
    ensures n as real - 0.5 <= x < n as real + 0.5
  {
    (x + 0.5).Floor
  }

  /** `total ? Math.round(part / total * 100) : 0`. */
  function SharePercent(part: real, total: real): (p: int)
    ensures total == 0.0 ==> p == 0
    ensures total != 0.0 ==> p as real - 0.5 <= part / total * 100.0 < p as real + 0.5
  {
    if total == 0.0 then 0 else RoundHalfUp(part / total * 100.0)
  }

  /** A non-negative part of a positive total has a share between 0 and 100 percent. */
  lemma ShareBounds(part: real, total: real)
    requires 0.0 <= part <= total && total > 0.0
    ensures 0 <= SharePercent(part, total) <= 100
  {
    var x := part / total * 100.0;
    assert 0.0 <= part / total <= 1.0 by {
      assert part / total * total == part;
    }
    assert 0.0 <= x <= 100.0;
  }

  /**
   * The three rounded shares of any non-zero total that is the sum of the
   * scope totals (negative scope totals included) add up to 100, give or take
   * one point of rounding.
   */
  lemma SharesSumNear100(c: Calculations)
    requires c.total == c.scope1 + c.scope2 + c.scope3 && c.total != 0.0
    ensures 99 <= SharePercent(c.scope1, c.total) + SharePercent(c.scope2, c.total) + SharePercent(c.scope3, c.total) <= 101
  {
    var t := c.total;
    var x1, x2, x3 := c.scope1 / t * 100.0, c.scope2 / t * 100.0, c.scope3 / t * 100.0;
    assert x1 + x2 + x3 == 100.0 by {
      assert x1 + x2 + x3 == (c.scope1 + c.scope2 + c.scope3) / t * 100.0;
    }
    var p := SharePercent(c.scope1, t) + SharePercent(c.scope2, t) + SharePercent(c.scope3, t);
    assert p as real - 1.5 <= 100.0 < p as real + 1.5;
  }

  /** JavaScript `n > 0` on a number that may be infinite or NaN. */
  predicate IsPositive(n: Number) {
    match n
    case Finite(v) => v > 0.0
    case PositiveInfinity => true
    case NegativeInfinity => false
    case NaN => false
  }

  datatype ChecklistItem = ChecklistItem(title: string, completed: bool)

  /** The compliance checklist shown on the dashboard. */
  function Checklist(company: CompanyInfo, c: Calculations): (items: seq<ChecklistItem>)
    ensures |items| == 5
    ensures items[0].completed <==> company.name != "" && company.cin != ""
    ensures items[1].completed <==> c.scope1 > 0.0
    ensures items[2].completed <==> c.scope2 > 0.0
    ensures items[3].completed <==> c.scope3 > 0.0
    ensures items[4].completed <==> IsPositive(c.intensity)
  {
    [ ChecklistItem("Company Information Provided", company.name != "" && company.cin != ""),
      ChecklistItem("Scope 1 Emissions Calculated", c.scope1 > 0.0),
      ChecklistItem("Scope 2 Emissions Calculated", c.scope2 > 0.0),
      ChecklistItem("Scope 3 Emissions Calculated", c.scope3 > 0.0),
      ChecklistItem("Emission Intensity Calculated", IsPositive(c.intensity)) ]
  }

  /**
   * A scope's checklist item is complete only if some quantity of that scope
   * is positive; when no quantity is negative, exactly then.
   */
  lemma ScopeItemMeansActivity(s1: Record, s2: Record, s3: Record, company: CompanyInfo, revenueValue: Option<real>, s: Scope)
    requires IsRecordOf(Scope1, s1) && IsRecordOf(Scope2, s2) && IsRecordOf(Scope3, s3)
    ensures var a := match s case Scope1 => s1 case Scope2 => s2 case Scope3 => s3;
            var item := Checklist(company, Compute(s1, s2, s3, company.revenue, revenueValue))[match s case Scope1 => 1 case Scope2 => 2 case Scope3 => 3];
            (item.completed ==> exists k :: k in a && a[k] > 0.0) &&
            ((forall k :: k in a ==> a[k] >= 0.0) ==> (item.completed <==> exists k :: k in a && a[k] > 0.0))
  {
    var a := match s case Scope1 => s1 case Scope2 => s2 case Scope3 => s3;
    var c := Compute(s1, s2, s3, company.revenue, revenueValue);
    assert ScopeTotal(s, a) == (match s case Scope1 => c.scope1 case Scope2 => c.scope2 case Scope3 => c.scope3);
    if Sum(s, a, KeyCount(s)) > 0.0 {
      PositiveSumHasPositiveQuantity(s, a, KeyCount(s));
    }
    if forall k :: k in a ==> a[k] >= 0.0 {
      SumPositiveIff(s, a, KeyCount(s));
    }
  }

  /**
   * The intensity item is never complete while the revenue field is empty;
   * with a positive parsed revenue it is complete exactly when the total is
   * positive; with a revenue of 0 it is complete whenever the total is
   * positive (the division gives Infinity); with a negative revenue exactly
   * when the total is negative; with an unparsable revenue never.
   */
  lemma IntensityItem(s1: Record, s2: Record, s3: Record, company: CompanyInfo, revenueValue: Option<real>)
    requires IsRecordOf(Scope1, s1) && IsRecordOf(Scope2, s2) && IsRecordOf(Scope3, s3)
    ensures var c := Compute(s1, s2, s3, company.revenue, revenueValue);
            var done := Checklist(company, c)[4].completed;
            (company.revenue == "" ==> !done) &&
            (company.revenue != "" && revenueValue.Some? && revenueValue.value >= 0.0 ==> (done <==> c.total > 0.0)) &&
            (company.revenue != "" && revenueValue.Some? && revenueValue.value < 0.0 ==> (done <==> c.total < 0.0)) &&
            (company.revenue != "" && revenueValue.None? ==> !done)
  {
    var c := Compute(s1, s2, s3, company.revenue, revenueValue);
    if company.revenue != "" && revenueValue.Some? && revenueValue.value != 0.0 {
      var r, q := revenueValue.value, c.intensity.value;
      assert q * r == c.total;
      if r > 0.0 {
        assert q > 0.0 <==> c.total > 0.0;
      } else {
        assert q > 0.0 <==> c.total < 0.0;
      }
    }
  }
}
