/**
 * The calculator component's state: the company record, the three activity
 * records and the cached calculations. Every edit replaces one field; an edit
 * of an activity record or of the revenue reruns the recomputation, so the
 * cache always equals the recomputation over the current inputs.
 */
module CalculatorState {
  import opened Wrappers
  import opened EmissionFactors
  import opened Emissions
  import opened Reporting

  /** The company fields that are stored as typed and do not feed the recomputation. */
  datatype TextField = Name | Cin | Sector | Employees

  class Calculator {
    var companyInfo: CompanyInfo
    /** The number parseFloat yields for companyInfo.revenue (None: NaN). */
    var revenueValue: Option<real>
    var scope1Data: Record
    var scope2Data: Record
    var scope3Data: Record
    var calculations: Calculations

    /** Each record has its scope's keys, and the cache equals the recomputation. */
    ghost predicate Valid()
      reads this
    {
      IsRecordOf(Scope1, scope1Data) && IsRecordOf(Scope2, scope2Data) && IsRecordOf(Scope3, scope3Data) &&
      calculations == Compute(scope1Data, scope2Data, scope3Data, companyInfo.revenue, revenueValue)
    }

    /** Empty company fields, every quantity 0, and all calculations 0. */
    constructor ()
      ensures Valid()
      ensures companyInfo == CompanyInfo("", "", "", "", "") && revenueValue == None
      ensures forall k :: k in scope1Data ==> scope1Data[k] == 0.0
      ensures forall k :: k in scope2Data ==> scope2Data[k] == 0.0
      ensures forall k :: k in scope3Data ==> scope3Data[k] == 0.0
      ensures calculations == Calculations(0.0, 0.0, 0.0, 0.0, Finite(0.0))
    {
      var z1 := InitialRecord(Scope1);
      var z2 := InitialRecord(Scope2);
      var z3 := InitialRecord(Scope3);
      companyInfo := CompanyInfo("", "", "", "", "");
      revenueValue := None;
      scope1Data := z1;
      scope2Data := z2;
      scope3Data := z3;
      calculations := Calculations(0.0, 0.0, 0.0, 0.0, Finite(0.0));
      new;
      ComputeOfZeroRecords(scope1Data, scope2Data, scope3Data, revenueValue);
    }

    /** The effect: overwrite the cache with the recomputation over the current inputs. */
    method Recalculate()
      requires IsRecordOf(Scope1, scope1Data) && IsRecordOf(Scope2, scope2Data) && IsRecordOf(Scope3, scope3Data)
      modifies this`calculations
      ensures Valid()
    {
      calculations := Compute(scope1Data, scope2Data, scope3Data, companyInfo.revenue, revenueValue);
    }

    /**
     * The onChange of a scope 1 field: store `parseFloat(text) || 0` (negative
     * numbers as entered) at that key, keep every other field, recompute. The
     * scope 1 total and the grand total move by exactly the change in that
     * key's emissions.
     */
    method SetScope1Activity(k: Key, parsed: Option<real>)
      requires Valid() && ScopeOf(k) == Scope1
      modifies this`scope1Data, this`calculations
      ensures Valid()
      ensures scope1Data == old(scope1Data)[k := ParseOrZero(parsed)]
      ensures calculations.scope1 == old(calculations.scope1) + (ParseOrZero(parsed) - old(scope1Data)[k]) * Factor(k)
      ensures calculations.total == old(calculations.total) + (ParseOrZero(parsed) - old(scope1Data)[k]) * Factor(k)
    {
      var v := ParseOrZero(parsed);
      SumAfterEdit(Scope1, scope1Data, KeyCount(Scope1), k, v);
      scope1Data := scope1Data[k := v];
      Recalculate();
    }

    /**
     * The onChange of the electricity field: the scope 2 record is replaced by
     * a fresh record holding only electricity, which is the old record with
     * that one entry changed; the rest as for scope 1.
     */
    method SetElectricity(parsed: Option<real>)
      requires Valid()
      modifies this`scope2Data, this`calculations
      ensures Valid()
      ensures scope2Data == old(scope2Data)[Electricity := ParseOrZero(parsed)]
      ensures calculations.scope2 == ParseOrZero(parsed) * Factor(Electricity)
      ensures calculations.total
           == old(calculations.total) + (ParseOrZero(parsed) - old(scope2Data)[Electricity]) * Factor(Electricity)
    {
      var v := ParseOrZero(parsed);
      ElectricityRecordReplaced(scope2Data, v);
      SumAfterEdit(Scope2, scope2Data, KeyCount(Scope2), Electricity, v);
      scope2Data := map[Electricity := v];
      Recalculate();
    }

    /** The onChange of a scope 3 field, as for scope 1. */
    method SetScope3Activity(k: Key, parsed: Option<real>)
      requires Valid() && ScopeOf(k) == Scope3
      modifies this`scope3Data, this`calculations
      ensures Valid()
      ensures scope3Data == old(scope3Data)[k := ParseOrZero(parsed)]
      ensures calculations.scope3 == old(calculations.scope3) + (ParseOrZero(parsed) - old(scope3Data)[k]) * Factor(k)
      ensures calculations.total == old(calculations.total) + (ParseOrZero(parsed) - old(scope3Data)[k]) * Factor(k)
    {
      var v := ParseOrZero(parsed);
      SumAfterEdit(Scope3, scope3Data, KeyCount(Scope3), k, v);
      scope3Data := scope3Data[k := v];
      Recalculate();
    }

    /** onChange of a company field other than the revenue: no recomputation runs, and none is needed. */
    method SetCompanyText(field: TextField, text: string)
      requires Valid()
      modifies this`companyInfo
      ensures Valid()
      ensures companyInfo == match field
        case Name => old(companyInfo).(name := text)
        case Cin => old(companyInfo).(cin := text)
        case Sector => old(companyInfo).(sector := text)
        case Employees => old(companyInfo).(employees := text)
      ensures calculations == old(calculations)
    {
      match field {
        case Name => companyInfo := companyInfo.(name := text);
        case Cin => companyInfo := companyInfo.(cin := text);
        case Sector => companyInfo := companyInfo.(sector := text);
        case Employees => companyInfo := companyInfo.(employees := text);
      }
    }

    /**
     * onChange of the revenue field: store the text as typed, together with
     * what parseFloat makes of it (NaN for the empty text), and recompute.
     * The scope totals stay.
     */
    method SetRevenue(text: string, parsed: Option<real>)
      requires Valid()
      requires text == "" ==> parsed == None
      modifies this`companyInfo, this`revenueValue, this`calculations
      ensures Valid()
      ensures companyInfo == old(companyInfo).(revenue := text) && revenueValue == parsed
      ensures calculations.scope1 == old(calculations.scope1) && calculations.scope2 == old(calculations.scope2)
      ensures calculations.scope3 == old(calculations.scope3) && calculations.total == old(calculations.total)
      ensures calculations.intensity == Intensity(calculations.total, text, parsed)
    {
      companyInfo := companyInfo.(revenue := text);
      revenueValue := parsed;
      Recalculate();
    }

    /**
     * generateReport: the report object and the name of the exported file.
     * The date text and the timestamp are what the host's clock supplies.
     */
    method GenerateReport(generatedDate: string, timestamp: nat) returns (report: Report, fileName: string)
      requires Valid()
      ensures report == ReportOf(companyInfo, scope1Data, scope2Data, scope3Data, calculations, generatedDate)
      ensures SumEmissions(report.scope1.breakdown) == report.scope1.total
      ensures SumEmissions(report.scope2.breakdown) == report.scope2.total
      ensures SumEmissions(report.scope3.breakdown) == report.scope3.total
      ensures report.total == report.scope1.total + report.scope2.total + report.scope3.total
      ensures fileName == FileName(companyInfo.name, timestamp)
      ensures TimestampOf(fileName) == Some(timestamp)
    {
      report := ReportOf(companyInfo, scope1Data, scope2Data, scope3Data, calculations, generatedDate);
      ReportConsistent(companyInfo, scope1Data, scope2Data, scope3Data, revenueValue, generatedDate);
      fileName := FileName(companyInfo.name, timestamp);
      FileNameTimestamp(companyInfo.name, timestamp);
    }
  }
}
