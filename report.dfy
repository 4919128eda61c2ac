/**
 * The exported report: a snapshot of the company record, every key of every
 * scope with its activity and emissions, the cached totals and intensity, and
 * the export file name.
 */
module Reporting {
  import opened Wrappers
  import opened EmissionFactors
  import opened Emissions

  /** One breakdown line: `{ source, activity, emissions }`. */
  datatype Entry = Entry(source: string, activity: real, emissions: real)

  datatype ScopeReport = ScopeReport(total: real, breakdown: seq<Entry>)

  datatype Report = Report(
    company: CompanyInfo,
    scope1: ScopeReport,
    scope2: ScopeReport,
    scope3: ScopeReport,
    total: real,
    intensity: Number,
    generatedDate: string)

  function EntryOf(a: Record, k: Key): Entry
    requires k in a
  {
    Entry(KeyName(k), a[k], Term(a, k))
  }

  /**
   * `Object.keys(a).map(key => ({ source: key, activity: a[key],
   * emissions: a[key] * EMISSION_FACTORS[key] }))`, each key's entry read from
   * the record by indexing, over the last `n` keys of scope `s`.
   */
  function Breakdown(s: Scope, a: Record, n: nat): (b: seq<Entry>)
    requires IsRecordOf(s, a) && n <= KeyCount(s)
    ensures |b| == n
    ensures forall j :: 0 <= j < n ==> b[j] == EntryOf(a, KeyAt(s, KeyCount(s) - n + j))
  {
    if n == 0 then []
    else
      var rest := Breakdown(s, a, n - 1);
      assert forall j :: 0 <= j < n - 1 ==> rest[j] == EntryOf(a, KeyAt(s, KeyCount(s) - n + 1 + j));
      [EntryOf(a, KeyAt(s, KeyCount(s) - n))] + rest
  }

  /** The scope 2 breakdown, written out as a one-entry list rather than mapped over the record. */
  function ElectricityBreakdown(a: Record): seq<Entry>
    requires IsRecordOf(Scope2, a)
  {
    [Entry("electricity", a[Electricity], a[Electricity] * Factor(Electricity))]
  }

  /** The literal scope 2 list is the breakdown of the scope 2 record like the other two. */
  lemma ElectricityBreakdownIsBreakdown(a: Record)
    requires IsRecordOf(Scope2, a)
    ensures ElectricityBreakdown(a) == Breakdown(Scope2, a, KeyCount(Scope2))
  {
    assert Breakdown(Scope2, a, 1)[0] == EntryOf(a, Electricity);
  }

  function SumEmissions(b: seq<Entry>): real {
    if b == [] then 0.0 else b[0].emissions + SumEmissions(b[1..])
  }

  /** The emissions of a breakdown add up to the sum of its keys' emissions. */
  lemma {:induction false} BreakdownSum(s: Scope, a: Record, n: nat)
    requires IsRecordOf(s, a) && n <= KeyCount(s)
    ensures SumEmissions(Breakdown(s, a, n)) == Sum(s, a, n)
  {
    if n > 0 {
      var b := Breakdown(s, a, n);
      assert b[1..] == Breakdown(s, a, n - 1);
      BreakdownSum(s, a, n - 1);
    }
  }

  /**
   * `generateReport`'s report object: the company record verbatim, the three
   * breakdowns built from the current records, and the totals and intensity
   * read from the cached calculations.
   */
  function ReportOf(company: CompanyInfo, s1: Record, s2: Record, s3: Record, cached: Calculations, generatedDate: string): (r: Report)
    requires IsRecordOf(Scope1, s1) && IsRecordOf(Scope2, s2) && IsRecordOf(Scope3, s3)
    ensures r.company == company && r.generatedDate == generatedDate
    ensures |r.scope1.breakdown| == 5 && |r.scope2.breakdown| == 1 && |r.scope3.breakdown| == 7
    ensures r.scope1.total == cached.scope1 && r.scope2.total == cached.scope2 && r.scope3.total == cached.scope3
    ensures r.total == cached.total && r.intensity == cached.intensity
  {
    Report(
      company,
      ScopeReport(cached.scope1, Breakdown(Scope1, s1, KeyCount(Scope1))),
      ScopeReport(cached.scope2, ElectricityBreakdown(s2)),
      ScopeReport(cached.scope3, Breakdown(Scope3, s3, KeyCount(Scope3))),
      cached.total,
      cached.intensity,
      generatedDate)
  }

  /**
   * When the cached calculations are the recomputation over the records, the
   * report is self-consistent: each scope's entries add up to its total, the
   * grand total is the sum of the scope totals, and the intensity is that
   * total over the revenue.
   */
  lemma ReportConsistent(company: CompanyInfo, s1: Record, s2: Record, s3: Record, revenueValue: Option<real>, generatedDate: string)
    requires IsRecordOf(Scope1, s1) && IsRecordOf(Scope2, s2) && IsRecordOf(Scope3, s3)
    ensures var r := ReportOf(company, s1, s2, s3, Compute(s1, s2, s3, company.revenue, revenueValue), generatedDate);
            SumEmissions(r.scope1.breakdown) == r.scope1.total &&
            SumEmissions(r.scope2.breakdown) == r.scope2.total &&
            SumEmissions(r.scope3.breakdown) == r.scope3.total &&
            r.total == r.scope1.total + r.scope2.total + r.scope3.total &&
            r.intensity == Intensity(r.total, company.revenue, revenueValue)
  {
    BreakdownSum(Scope1, s1, KeyCount(Scope1));
    ElectricityBreakdownIsBreakdown(s2);
    BreakdownSum(Scope2, s2, KeyCount(Scope2));
    BreakdownSum(Scope3, s3, KeyCount(Scope3));
  }

  /** The three breakdowns of the report are the breakdowns of the three records over their keys. */
  lemma ReportBreakdowns(company: CompanyInfo, s1: Record, s2: Record, s3: Record, cached: Calculations, generatedDate: string)
    requires IsRecordOf(Scope1, s1) && IsRecordOf(Scope2, s2) && IsRecordOf(Scope3, s3)
    ensures var r := ReportOf(company, s1, s2, s3, cached, generatedDate);
            r.scope1.breakdown == Breakdown(Scope1, s1, KeyCount(Scope1)) &&
            r.scope2.breakdown == Breakdown(Scope2, s2, KeyCount(Scope2)) &&
            r.scope3.breakdown == Breakdown(Scope3, s3, KeyCount(Scope3))
  {
    ElectricityBreakdownIsBreakdown(s2);
  }

  /**
   * Every key of a scope appears in that scope's breakdown at the key's own
   * position, with its quantity (zero quantities included), its emissions,
   * and its property name as source.
   */
  lemma BreakdownListsEveryKey(a: Record, k: Key)
    requires IsRecordOf(ScopeOf(k), a)
    ensures IndexOf(k) < |Breakdown(ScopeOf(k), a, KeyCount(ScopeOf(k)))|
    ensures Breakdown(ScopeOf(k), a, KeyCount(ScopeOf(k)))[IndexOf(k)] == Entry(KeyName(k), a[k], a[k] * Factor(k))
  {
  }

  predicate IsDigit(c: char) {
    '0' <= c <= '9'
  }

  predicate AllDigits(s: string) {
    forall i :: 0 <= i < |s| ==> IsDigit(s[i])
  }

  function DigitChar(d: nat): (c: char)
    requires d < 10
    ensures IsDigit(c) && c as int - '0' as int == d
  {
    ('0' as int + d) as char
  }

  /** The decimal text of a whole number, as a template literal renders `Date.now()`. */
  function DecimalDigits(n: nat): (s: string)
    ensures |s| > 0 && AllDigits(s)
    ensures s[0] == '0' ==> n == 0
    decreases n
  {
    if n < 10 then [DigitChar(n)] else DecimalDigits(n / 10) + [DigitChar(n % 10)]
  }

  /** The number a string of decimal digits denotes. */
  function ParseDecimal(s: string): nat
    requires AllDigits(s)
  {
    if s == [] then 0 else ParseDecimal(s[..|s| - 1]) * 10 + (s[|s| - 1] as int - '0' as int)
  }

  lemma {:induction false} DecimalRoundTrip(n: nat)
    ensures ParseDecimal(DecimalDigits(n)) == n
    decreases n
  {
    var s := DecimalDigits(n);
    if n >= 10 {
      assert s[..|s| - 1] == DecimalDigits(n / 10);
      DecimalRoundTrip(n / 10);
    }
  }

  /** The company name as the file name shows it: "Company" when the name is empty. */
  function NameOrDefault(name: string): (shown: string)
    ensures |shown| > 0
    ensures name != "" ==> shown == name
    ensures name == "" ==> shown == "Company"
  {
    if name == "" then "Company" else name
  }

  /** `BRSR_Carbon_Report_${companyInfo.name || 'Company'}_${Date.now()}.json`. */
  function FileName(companyName: string, timestamp: nat): (f: string)
    ensures |f| >= 19 + |NameOrDefault(companyName)| + 7
    ensures f[..19] == "BRSR_Carbon_Report_"
    ensures f[|f| - 5..] == ".json"
    ensures f[19..19 + |NameOrDefault(companyName)|] == NameOrDefault(companyName)
    ensures f[19 + |NameOrDefault(companyName)|] == '_'
    ensures f[20 + |NameOrDefault(companyName)|..|f| - 5] == DecimalDigits(timestamp)
  {
    "BRSR_Carbon_Report_" + NameOrDefault(companyName) + "_" + DecimalDigits(timestamp) + ".json"
  }

  /** The longest suffix of decimal digits. */
  function TrailingDigits(s: string): (d: string)
    ensures AllDigits(d)
  {
    if s == [] || !IsDigit(s[|s| - 1]) then [] else TrailingDigits(s[..|s| - 1]) + [s[|s| - 1]]
  }

  /** The timestamp an export file name carries: the digits before ".json". */
  function TimestampOf(fileName: string): Option<nat> {
    if |fileName| < 5 || fileName[|fileName| - 5..] != ".json" then None
    else
      var digits := TrailingDigits(fileName[..|fileName| - 5]);
      if digits == [] then None else Some(ParseDecimal(digits))
  }

  lemma {:induction false} TrailingDigitsAfterSeparator(p: string, c: char, d: string)
    requires !IsDigit(c) && AllDigits(d)
    ensures TrailingDigits(p + [c] + d) == d
    decreases |d|
  {
    var s := p + [c] + d;
    if d == [] {
      assert s[|s| - 1] == c;
    } else {
      assert s[..|s| - 1] == p + [c] + d[..|d| - 1];
      TrailingDigitsAfterSeparator(p, c, d[..|d| - 1]);
      assert d[..|d| - 1] + [d[|d| - 1]] == d;
    }
  }

  /** The timestamp is recoverable from the export file name, whatever the company name holds. */
  lemma FileNameTimestamp(companyName: string, timestamp: nat)
    ensures TimestampOf(FileName(companyName, timestamp)) == Some(timestamp)
  {
    var f := FileName(companyName, timestamp);
    var p := "BRSR_Carbon_Report_" + NameOrDefault(companyName);
    var d := DecimalDigits(timestamp);
    assert f == p + ['_'] + d + ".json";
    assert f[..|f| - 5] == p + ['_'] + d;
    TrailingDigitsAfterSeparator(p, '_', d);
    DecimalRoundTrip(timestamp);
  }
}
