/**
 * The emission factor table: thirteen activity keys, each with a fixed factor
 * in kg CO2e per unit of activity, partitioned into the three GHG scopes.
 */
module EmissionFactors {

  /** The activity keys, in the order the factor table declares them. */
  datatype Key =
    | Diesel | Petrol | NaturalGas | Lpg | Coal
    | Electricity
    | AirTravel | RoadTravel | RailTravel | Hotels | Waste | Water | Paper

  datatype Scope = Scope1 | Scope2 | Scope3

  /** kg CO2e per unit of activity (litre, m3, kg, tonne, kWh, passenger-km, km, room-night, kL). */
  function Factor(k: Key): (f: real)
    ensures f > 0.0
  {
    match k
    case Diesel => 2.68
    case Petrol => 2.31
    case NaturalGas => 2.03
    case Lpg => 2.98
    case Coal => 2419.0
    case Electricity => 0.82
    case AirTravel => 0.255
    case RoadTravel => 0.17
    case RailTravel => 0.041
    case Hotels => 29.4
    case Waste => 500.0
    case Water => 0.344
    case Paper => 0.91
  }

  /** The scope whose activity record holds key `k`. */
  function ScopeOf(k: Key): Scope {
    match k
    case Diesel | Petrol | NaturalGas | Lpg | Coal => Scope1
    case Electricity => Scope2
    case AirTravel | RoadTravel | RailTravel | Hotels | Waste | Water | Paper => Scope3
  }

  /** The number of keys in a scope's activity record. */
  function KeyCount(s: Scope): (n: nat)
    ensures n > 0
  {
    match s
    case Scope1 => 5
    case Scope2 => 1
    case Scope3 => 7
  }

  /**
   * The `i`-th key of a scope's activity record, in declaration order: the
   * order in which the record's keys are enumerated by the totals and the
   * report.
   */
  function KeyAt(s: Scope, i: nat): (k: Key)
    requires i < KeyCount(s)
    ensures ScopeOf(k) == s
  {
    match s
    case Scope1 =>
      if i == 0 then Diesel else if i == 1 then Petrol else if i == 2 then NaturalGas
      else if i == 3 then Lpg else Coal
    case Scope2 => Electricity
    case Scope3 =>
      if i == 0 then AirTravel else if i == 1 then RoadTravel else if i == 2 then RailTravel
      else if i == 3 then Hotels else if i == 4 then Waste else if i == 5 then Water else Paper
  }

  /** The position of a key in its scope's record. */
  function IndexOf(k: Key): (i: nat)
    ensures i < KeyCount(ScopeOf(k)) && KeyAt(ScopeOf(k), i) == k
  {
    match k
    case Diesel => 0
    case Petrol => 1
    case NaturalGas => 2
    case Lpg => 3
    case Coal => 4
    case Electricity => 0
    case AirTravel => 0
    case RoadTravel => 1
    case RailTravel => 2
    case Hotels => 3
    case Waste => 4
    case Water => 5
    case Paper => 6
  }

  /**
   * Every position of a scope holds a different key: the position of the key
   * at position `i` is `i`. With IndexOf's contract, every key of the table
   * sits at exactly one position of exactly one scope.
   */
  lemma IndexOfKeyAt(s: Scope, i: nat)
    requires i < KeyCount(s)
    ensures IndexOf(KeyAt(s, i)) == i
  {
  }

  /** The property name the key has in the component's records; it is the `source` of a report entry. */
  function KeyName(k: Key): (name: string)
    ensures |name| > 0
  {
    match k
    case Diesel => "diesel"
    case Petrol => "petrol"
    case NaturalGas => "naturalGas"
    case Lpg => "lpg"
    case Coal => "coal"
    case Electricity => "electricity"
    case AirTravel => "airTravel"
    case RoadTravel => "roadTravel"
    case RailTravel => "railTravel"
    case Hotels => "hotels"
    case Waste => "waste"
    case Water => "water"
    case Paper => "paper"
  }

  /** Distinct keys have distinct property names, so a report entry's `source` identifies its key. */
  lemma KeyNameInjective(j: Key, k: Key)
    ensures KeyName(j) == KeyName(k) ==> j == k
  {
  }
}
