# BRSR carbon calculator — a Dafny model of its emissions core

The BRSR carbon calculator is a single React component. A user enters fuel, electricity and travel/waste/consumption quantities for a company. The component multiplies each quantity by a fixed emission factor (kg CO2e per unit) and sums the products into Scope 1, Scope 2 and Scope 3 totals. It also derives a grand total, an emission intensity (total per unit of revenue), a compliance checklist and share percentages, and exports a JSON report.

This project models that computation and the component state around it:

- `factors.dfy` (module `EmissionFactors`): the factor table. It has thirteen keys with their exact decimal factors, split into the three scopes. It also fixes the declaration order in which each record's keys are enumerated.
- `emissions.dfy` (module `Emissions`): the recomputation.
  - Activity records are maps over their scope's keys.
  - The scope 1 and scope 3 totals are left folds of `quantity * factor` over their keys; the scope 2 total is the single product for electricity. Each is proved equal to a reference sum and to the explicit formula.
  - The grand total is the sum of the three scope totals.
  - Intensity follows JavaScript's division: the result can be `Infinity`, `-Infinity` or `NaN` (datatype `Number`).
  - Further lemmas cover sign facts, the effect of editing one quantity, and the worked examples.
- `report.dfy` (module `Reporting`): the report object, its per-key breakdowns and their sums, and the export file name. The file name's timestamp is rendered in decimal and proved recoverable from the name.
- `dashboard.dfy` (module `Dashboard`):
  - kg-to-tonnes display;
  - `Math.round` share percentages, guarded on a zero total;
  - the five-item compliance checklist and what its items mean for the inputs.
- `state.dfy` (module `CalculatorState`): class `Calculator`.
  - Its fields are the component's state: the company record, the three activity records and the cached `calculations`.
  - Its methods are the `onChange` handlers and `generateReport`.
  - Its invariant `Valid()` says that the cache equals `Compute` over the current inputs, and every edit preserves it.
- `wrappers.dfy` (module `Wrappers`): `Option`.

Two behaviours of the code are kept as written, although a reader might expect otherwise:

- An activity entry that is negative is stored and used as entered. `parseFloat(..) || 0` replaces only an unparsable entry (NaN) by 0. Nothing clamps a negative quantity to 0.
- Intensity is 0 only when the revenue field is the empty string. Any other revenue text is divided by, so a revenue of "0" gives `Infinity` for a positive total, `-Infinity` for a negative one (negative quantities are kept) and `NaN` for a zero total, and an unparsable revenue gives `NaN`. With a revenue of "0" and a positive total, the checklist therefore marks the intensity item complete (`Dashboard.IntensityItem`).

## Model

| member | source | states |
|---|---|---|
| EmissionFactors.Factor | brsr-carbon-calculator.jsx:5-24 | each of the thirteen factors is the table's exact decimal and is positive |
| EmissionFactors.KeyAt | brsr-carbon-calculator.jsx:36-56 | each position of a scope's record, in declaration order, holds a key of that scope |
| EmissionFactors.IndexOf | brsr-carbon-calculator.jsx:36-56 | every key sits at a position of its own scope's record, within that record's size |
| EmissionFactors.IndexOfKeyAt | brsr-carbon-calculator.jsx:5-24 | no two positions of a scope hold the same key, so each key of the table is enumerated exactly once, in exactly one scope |
| EmissionFactors.KeyNameInjective | brsr-carbon-calculator.jsx:103-106 | distinct keys have distinct property names, so a breakdown entry's `source` identifies its key |
| Emissions.InitialRecord | brsr-carbon-calculator.jsx:36-56 | the initial record of a scope has exactly that scope's keys, all 0 |
| Emissions.ParseOrZero | brsr-carbon-calculator.jsx:361 | `parseFloat(..) \|\| 0`: an unparsable entry is stored as 0, any number (negative included) as parsed |
| Emissions.FoldIsSum | brsr-carbon-calculator.jsx:68-70 | the `reduce` left fold with accumulator `acc` equals `acc` plus the reference sum of quantity times factor |
| Emissions.Scope1Total | brsr-carbon-calculator.jsx:68-70 | the scope 1 fold equals the sum over exactly the five scope 1 keys |
| Emissions.Scope2Total | brsr-carbon-calculator.jsx:72 | the scope 2 product equals the sum over the single scope 2 key |
| Emissions.Scope3Total | brsr-carbon-calculator.jsx:74-76 | the scope 3 fold equals the sum over exactly the seven scope 3 keys |
| Emissions.ScopeTotal | brsr-carbon-calculator.jsx:68-76 | every scope total, however computed, equals the reference sum over that scope's keys |
| Emissions.Scope1Formula | brsr-carbon-calculator.jsx:68-70 | scope 1 total = diesel·2.68 + petrol·2.31 + naturalGas·2.03 + lpg·2.98 + coal·2419 |
| Emissions.Scope2Formula | brsr-carbon-calculator.jsx:72 | scope 2 total = electricity·0.82 |
| Emissions.Scope3Formula | brsr-carbon-calculator.jsx:74-76 | scope 3 total = airTravel·0.255 + roadTravel·0.17 + railTravel·0.041 + hotels·29.4 + waste·500 + water·0.344 + paper·0.91 |
| Emissions.SumNonNegative | brsr-carbon-calculator.jsx:68-76 | non-negative quantities give a non-negative total |
| Emissions.PositiveSumHasPositiveQuantity | brsr-carbon-calculator.jsx:68-76 | a positive total implies some key of it has a positive quantity, whatever the signs of the others |
| Emissions.PositiveQuantityMakesSumPositive | brsr-carbon-calculator.jsx:68-76 | with non-negative quantities, one positive quantity among the keys summed makes the total positive |
| Emissions.SumPositiveIff | brsr-carbon-calculator.jsx:68-76 | with non-negative quantities, a total is positive if and only if some quantity is positive |
| Emissions.SumOfZeroQuantities | brsr-carbon-calculator.jsx:68-76 | a record whose quantities are all 0 has a zero total |
| Emissions.SumIgnoresEarlierKeys | brsr-carbon-calculator.jsx:68-76 | a sum does not depend on the quantity of a key it does not visit, and editing that key keeps the record's key set |
| Emissions.SumAfterEdit | brsr-carbon-calculator.jsx:68-76 | changing one key's quantity from q to v keeps the key set and changes the sum by exactly (v − q)·factor |
| Emissions.Divide | brsr-carbon-calculator.jsx:79 | JavaScript division by the parsed revenue: finite if and only if the divisor is a non-zero number, and then quotient·divisor = total; ±Infinity exactly for a zero divisor and a positive or negative total, NaN otherwise |
| Emissions.Intensity | brsr-carbon-calculator.jsx:79 | 0 for an empty revenue field; otherwise a finite quotient with quotient·revenue = total for a non-zero revenue, NaN for an unparsable one, and ±Infinity or NaN for a revenue of 0 |
| Emissions.Compute | brsr-carbon-calculator.jsx:67-88 | each cached scope total is its reference sum, total = scope1 + scope2 + scope3, and intensity is that total over the revenue |
| Emissions.ElectricityRecordReplaced | brsr-carbon-calculator.jsx:423 | replacing the scope 2 record by a fresh one holding only electricity equals updating electricity in the old record |
| Emissions.ComputeOfZeroRecords | brsr-carbon-calculator.jsx:36-64 | all-zero records and an empty revenue field recompute to the initial all-zero calculations |
| Emissions.DieselExample | brsr-carbon-calculator.jsx:67-88 | 100 L of diesel (every other quantity 0) and a revenue of 10 give scope 1 = total = 268 and intensity 26.8 |
| Emissions.ElectricityExample | brsr-carbon-calculator.jsx:72 | 1000 kWh give a scope 2 total of 820 |
| Emissions.TravelExample | brsr-carbon-calculator.jsx:74-76 | 1000 passenger-km of air and 500 km of road travel give a scope 3 total of 340 |
| Reporting.Breakdown | brsr-carbon-calculator.jsx:103-107 | one entry per key, in key order, whose source is the key's name, whose activity is its quantity and whose emissions are quantity times factor |
| Reporting.ElectricityBreakdownIsBreakdown | brsr-carbon-calculator.jsx:111-115 | the literal one-entry scope 2 list is the breakdown of the scope 2 record |
| Reporting.BreakdownSum | brsr-carbon-calculator.jsx:101-124 | the emissions of a breakdown add up to the reference sum of its keys |
| Reporting.ReportOf | brsr-carbon-calculator.jsx:97-129 | the report carries the company record verbatim, 5, 1 and 7 breakdown entries, and the cached scope totals, total and intensity |
| Reporting.ReportBreakdowns | brsr-carbon-calculator.jsx:101-124 | each of the report's breakdowns is the breakdown of that scope's record over its keys |
| Reporting.ReportConsistent | brsr-carbon-calculator.jsx:97-129 | over a cache equal to the recomputation, each scope's entries sum to its reported total, the total is the sum of the scope totals and the intensity is that total over the revenue |
| Reporting.BreakdownListsEveryKey | brsr-carbon-calculator.jsx:103-107 | every key of a scope, including one with quantity 0, appears in its breakdown with its quantity and emissions |
| Reporting.DigitChar | brsr-carbon-calculator.jsx:135 | a digit value becomes the decimal digit character that denotes it |
| Reporting.DecimalDigits | brsr-carbon-calculator.jsx:135 | the timestamp's text is a non-empty string of decimal digits without a leading zero |
| Reporting.DecimalRoundTrip | brsr-carbon-calculator.jsx:135 | reading the timestamp's digits back gives the timestamp |
| Reporting.NameOrDefault | brsr-carbon-calculator.jsx:135 | the name shown in the file name is never empty, is the company name when that is non-empty, and "Company" for an empty name |
| Reporting.FileName | brsr-carbon-calculator.jsx:135 | the file name starts with "BRSR_Carbon_Report_", continues with the shown name, then "_", then exactly the decimal digits of the timestamp, and ends with ".json" |
| Reporting.TrailingDigitsAfterSeparator | brsr-carbon-calculator.jsx:135 | the trailing digits of text, a non-digit and a digit string are exactly that digit string |
| Reporting.FileNameTimestamp | brsr-carbon-calculator.jsx:135 | the timestamp can be read back from the file name, whatever the company name contains |
| Dashboard.ToTonnes | brsr-carbon-calculator.jsx:215 | the tonnes shown, times 1000, are the kilograms computed |
| Dashboard.RoundHalfUp | brsr-carbon-calculator.jsx:251 | `Math.round` gives the integer n with n − 0.5 ≤ x < n + 0.5 |
| Dashboard.SharePercent | brsr-carbon-calculator.jsx:251 | the share is 0 for a zero total, and otherwise within half a point of part/total·100 |
| Dashboard.ShareBounds | brsr-carbon-calculator.jsx:251-265 | a non-negative part of a positive total has a share between 0 and 100 |
| Dashboard.SharesSumNear100 | brsr-carbon-calculator.jsx:251-265 | for any non-zero total that is the sum of the scope totals, negative scopes included, the three rounded shares add up to between 99 and 101 |
| Dashboard.Checklist | brsr-carbon-calculator.jsx:283-289 | five items: company complete if and only if name and cin are non-empty, each scope item if and only if its total is > 0, intensity if and only if the intensity is > 0 (Infinity counts, NaN does not) |
| Dashboard.ScopeItemMeansActivity | brsr-carbon-calculator.jsx:285-287 | a scope item is complete only if some quantity of that scope is positive, and with no negative quantities exactly then |
| Dashboard.IntensityItem | brsr-carbon-calculator.jsx:288 | the intensity item is incomplete for an empty or unparsable revenue; for a revenue ≥ 0 (0 included) it is complete if and only if the total is positive; for a negative revenue if and only if the total is negative |
| CalculatorState.Calculator.constructor | brsr-carbon-calculator.jsx:28-64 | empty company fields, records holding exactly their scope's keys at 0, all-zero calculations, and the invariant holds |
| CalculatorState.Calculator.Recalculate | brsr-carbon-calculator.jsx:67-88 | the effect overwrites only the cache, which then equals the recomputation over the current inputs |
| CalculatorState.Calculator.SetScope1Activity | brsr-carbon-calculator.jsx:361-389 | stores the parsed value or 0 at one scope 1 key, changes no other field of any record or the company, keeps the invariant, and moves the scope 1 total and the grand total by the change in that key's emissions |
| CalculatorState.Calculator.SetElectricity | brsr-carbon-calculator.jsx:423 | the fresh scope 2 record is the old one with electricity replaced; the scope 2 total becomes electricity·0.82 and the grand total moves by the change, the invariant is kept |
| CalculatorState.Calculator.SetScope3Activity | brsr-carbon-calculator.jsx:457-499 | as for scope 1, for one scope 3 key and the scope 3 total |
| CalculatorState.Calculator.SetCompanyText | brsr-carbon-calculator.jsx:317-332 | replaces exactly one of name, cin, sector, employees; no recomputation runs and the invariant still holds |
| CalculatorState.Calculator.SetRevenue | brsr-carbon-calculator.jsx:337 | given a parse that is NaN for the empty text, replaces the revenue text and its parse, recomputes, keeps every scope total and the grand total, and sets the intensity from the new revenue |
| CalculatorState.Calculator.GenerateReport | brsr-carbon-calculator.jsx:97-136 | the report built from the current state is self-consistent (entries sum to each scope total, the scope totals sum to the total), and the file name yields back its timestamp |

## Left out

- Rendering: tab switching (`activeTab`, `TabButton`), the `InputField` and `EmissionCard` markup, styling, the "Not provided" placeholders and the hiding of a 0 percentage badge. These are presentation and compute nothing.
- `formatNumber` and `toLocaleDateString`: these are locale library calls. The report's date text is a parameter of `GenerateReport`.
- The download: `Blob`, `URL.createObjectURL`, the anchor click and `JSON.stringify`. These are host I/O. `Date.now()` is a parameter (`timestamp`), rendered as a template literal renders a whole number.
- IEEE-754 doubles: quantities, factors and totals are exact reals. Rounding in the folds and in the share ratio is not modelled. `Math.round` itself is modelled exactly, as floor(x + 0.5).
- `parseFloat`'s grammar is abstracted: each edit receives its result as `Option<real>` (None for NaN). For the revenue, `Calculator.revenueValue` holds what `parseFloat` yields for the current revenue text, supplied with each revenue edit.
- Parsed values are finite. `parseFloat("Infinity")` and a parsed negative zero (which would turn `x / -0` into `-Infinity`) are not modelled.
- Records are immutable maps that each edit replaces, as the spread `{ ...scope1Data, key: value }` does; object identity is not modelled.
- React's asynchronous state updates and effect scheduling: each edit and the recomputation it triggers are modelled as one synchronous method call.
