# Cessna 172S weight and balance, in Dafny

This project models `weight_and_balance.py`, the weight-and-balance calculator for two Cessna 172S aircraft (D-EXBS and D-EXAV), and proves properties of the model.

A `C172S_WB` calculator works in three steps:

- It is built for a known callsign. That fixes the empty mass, the empty arm and the empty moment derived from them, and the table of station arms.
- `load` and `fuel` fill a two-level loading table in place. The outer level maps a station to its items; the inner level maps an item name to its weight in kilograms.
- `total_weight`, `total_moment` and `CoG` aggregate the table in two scenarios: with fuel and without it. Each aggregate is rounded to two decimals. `CoG` divides the rounded moment by the rounded weight and rounds again.

`create_pdf` turns the calculator into a report. The model keeps the report's logical content and leaves the drawing out:

- the table rows, each at the height the page cursor gives it;
- the totals;
- the two pairs of lines placed on the envelope chart with `_map2range`.

Modules, one per file:

- `Rounding` (`rounding.dfy`): `round(x, 2)` over the reals, plus the `Option`, `Result` and error types.
- `Text` (`text.dfy`): ASCII `lower` and `capitalize`, character `replace`, and `_sanitize_station`.
- `Stations` (`stations.dfy`): the five stations, their keys, their arms and their report headings.
- `Manifest` (`manifest.dfy`): the loading table as insertion-ordered association lists, with Python's dictionary-assignment semantics.
- `Balance` (`balance.dfy`): the aggregates as functions of a frozen aircraft, and their properties.
- `WeightAndBalance` (`weight_and_balance.dfy`): the `C172S_WB` class. `Load` and `Fuel` update the loading in place and are proved to leave it equal to `Manifest.Put` of the old loading. `TotalWeight`, `TotalMoment` and `CoG` are loops and calls proved equal to the `Balance` function each implements. The constructor is stated by what it sets up.
- `Chart` (`chart.dfy`): `_map2range` and the calibration of the envelope chart.
- `Report` (`report.dfy`): `create_pdf`'s rows, cursor and chart lines. The loops are proved against a specification function `ReportOf`.

Modelling choices:

- Quantities are `real`.
- `round(x, 2)` is `Round2(x) = Floor(100x + 1/2) / 100`, which rounds a half upward.
- A station is a closed datatype with exactly the five keys of the arm table.
- The constructor's `ValueError` becomes an `Err` of `Result`. So does a total weight of zero in `CoG`, where the source does not raise (see `Balance.CoG` under "## Left out").
- The constructor's rejection of an unknown callsign is modelled by `Create`, which returns `Err(UnknownCallsign(callsign))`. The class constructor itself requires a known callsign.

## Model

| member | source | states |
|---|---|---|
| Rounding.Round2 | weight_and_balance.py:80 | The rounded value is within half a hundredth of x (a half going up) and is a whole number of hundredths |
| Rounding.Round2Monotone | weight_and_balance.py:80 | Rounding never reverses the order of two values |
| Rounding.Round2Exact | weight_and_balance.py:193-194 | A value that already has two decimals is unchanged by rounding |
| Rounding.Round2Is | weight_and_balance.py:94 | Round2(x) is n/100 whenever 100x lies in [n − 1/2, n + 1/2): the nearest hundredth, a half going up |
| Rounding.Round2Idempotent | weight_and_balance.py:194 | Rounding the arm again for every item gives the arm rounded once |
| Text.Capitalize | weight_and_balance.py:67 | Same length; the first character is upper-cased and every other character lower-cased |
| Text.CapitalizeCollides | weight_and_balance.py:67 | Two names get the same capitalised key if and only if they are equal ignoring letter case |
| Text.CapitalizeIdempotent | weight_and_balance.py:67 | Capitalising a capitalised name changes nothing |
| Text.LowerIdempotent | weight_and_balance.py:67 | Lower-casing a lower-cased string changes nothing |
| Text.LowerCapitalize | weight_and_balance.py:67 | Capitalising keeps the letters up to case: the capitalised name lower-cased is the name lower-cased |
| Text.ReplaceRemoves | weight_and_balance.py:106 | After replacing `from` by a different character, no `from` is left |
| Text.ReplaceAbsent | weight_and_balance.py:106 | A string that holds no `from` is left unchanged by the replacement |
| Text.SanitizeStation | weight_and_balance.py:104-106 | Same length; the first character is the key's first character, an underscore read as a space, upper-cased; every later character is the key's, an underscore read as a space, lower-cased; so no underscore is left and the letters are the key's up to case |
| Stations.Key | weight_and_balance.py:18-23 | Each station key is non-empty and does not start with an underscore |
| Stations.Arm | weight_and_balance.py:55-61 | Every arm lies between the front seats' 37 in and the rear baggage's 123 in (in cm); those two stations alone reach the bounds |
| Stations.Heading | weight_and_balance.py:189-191 | The label drawn for a station: its key through `_sanitize_station`; HeadingIs, HeadingLabels and HeadingInjective state what it is |
| Stations.HeadingIs | weight_and_balance.py:190 | A station's heading is the label that has the key's first character upper-cased and every later one lower-cased, underscores read as spaces |
| Stations.HeadingLabels | weight_and_balance.py:190 | The headings printed are "Front seats", "Back seats", "Front baggage", "Back baggage" and "Fuel" |
| Stations.HeadingInjective | weight_and_balance.py:190-191 | Different stations get different headings |
| Manifest.FindName | weight_and_balance.py:67 | Finds the first item with the name, or reports correctly that there is none |
| Manifest.FindStation | weight_and_balance.py:88 | Finds the loading entry of the station, or reports correctly that there is none |
| Manifest.SetItem | weight_and_balance.py:67 | After `items[name] = w` the dictionary holds Item(name, w), has grown by at most one entry, and every other item is where it was (SetItemLookup, SetItemOrder, SetItemTwice) |
| Manifest.Put | weight_and_balance.py:63-67 | `loading[s][name] = w` adds at most one station entry; its contents are stated by PutLookup, PutOrder and PutTwice |
| Manifest.ItemsAtAbsent | weight_and_balance.py:88 | `loading.get(s, {})` of a station never loaded is empty |
| Manifest.ItemsAtEntry | weight_and_balance.py:88 | In a table with one entry per station, `loading.get(s, {})` is that station's entry |
| Manifest.PutWellFormed | weight_and_balance.py:63-71 | Loading keeps one entry per station, non-empty entries and distinct item names |
| Manifest.SetItemOrder | weight_and_balance.py:67 | Assigning an existing name keeps the order of names; a new name is appended last |
| Manifest.PutOrder | weight_and_balance.py:63-67 | A station already loaded keeps its place and a new one goes last; the station's names follow SetItemOrder; other stations' items are unchanged |
| Manifest.SetItemLookup | weight_and_balance.py:67 | After `items[name] = w`, `name` holds w and every other name holds what it held, at the same position |
| Manifest.PutLookup | weight_and_balance.py:67 | After `loading[s][name] = w`, that slot holds w and every other (station, name) slot holds what it held before |
| Manifest.PutTwice | weight_and_balance.py:71 | A second assignment to the same slot replaces the first |
| Manifest.SetItemTwice | weight_and_balance.py:67 | A second assignment to the same name replaces the first |
| Balance.CalibrationFor | weight_and_balance.py:35-51 | A weighing record exists exactly for D-EXBS and D-EXAV; its mass is at least 749 kg and its arm is within the arm table's range |
| Balance.ItemsWeight | weight_and_balance.py:79 | Non-negative item weights sum to a non-negative weight |
| Balance.ItemsMoment | weight_and_balance.py:89 | `np.sum(values * arm)` over one station's items; ItemsMomentScales proves it equals the arm times ItemsWeight |
| Balance.ItemsMomentScales | weight_and_balance.py:89 | Multiplying each weight by the arm and summing gives the arm times the summed weight |
| Balance.LoadedWeight | weight_and_balance.py:76-79 | The loads' weight is non-negative when every load is |
| Balance.LoadedWeightByStation | weight_and_balance.py:76-79 | Summing in loading order gives the sum, station by station, of each included station's items, whatever the order |
| Balance.LoadedMomentByStation | weight_and_balance.py:85-89 | Walking the arm table gives each included station's moment once; a station never loaded counts zero |
| Balance.MomentOver | weight_and_balance.py:85-89 | The loop over the arm table up to a station; MomentOverStep gives one step of it and LoadedMomentByStation its value over the whole table |
| Balance.MomentOrderIndependent | weight_and_balance.py:76-89 | Taking the moment in loading order gives the same result as walking the arm table |
| Balance.TotalWeight | weight_and_balance.py:73-80 | `total_weight`: the empty mass plus the loads, rounded to two decimals; characterised by LoadedWeightByStation, FuelSplit, TotalWeightFuelMonotone and TotalWeightPositive |
| Balance.TotalMoment | weight_and_balance.py:82-90 | `total_moment`: the empty moment plus the loads' moment, rounded; characterised by LoadedMomentByStation, MomentOrderIndependent, FuelSplitMoment and LoadedMomentWithinArms |
| Balance.CoG | weight_and_balance.py:92-94 | `CoG`: the rounded moment over the rounded weight, rounded again, or DivisionByZero; CoGWithinArms proves it exists and lies within the arm range for non-negative loads |
| Balance.FuelSplit | weight_and_balance.py:77-78 | The weight with fuel is the weight without fuel plus the fuel station's weight |
| Balance.FuelSplitMoment | weight_and_balance.py:86-87 | The moment with fuel is the moment without fuel plus the fuel weight times the fuel arm |
| Balance.StationWeightNonNegative | weight_and_balance.py:79 | A station's weight is non-negative when every load is |
| Balance.TotalWeightFuelMonotone | weight_and_balance.py:73-80 | When the fuel station weighs at least zero, the total weight without fuel is at most the total with fuel |
| Balance.FuelZeroSameWeight | weight_and_balance.py:69-80 | The converse of NoFuelSameScenarios fails: after `fuel(0)` the fuel station is loaded and both totals are still equal |
| Balance.NoFuelSameScenarios | weight_and_balance.py:73-94 | When nothing is at the fuel station, both scenarios have the same weight, moment and CoG |
| Balance.TotalWeightPositive | weight_and_balance.py:92-94 | With non-negative loads the total weight exceeds 748 kg, so CoG never divides by zero |
| Balance.LoadedMomentWithinArms | weight_and_balance.py:82-90 | The loads' moment lies between the smallest and the largest arm times their weight |
| Balance.CoGWithinArms | weight_and_balance.py:92-94 | With non-negative loads the CoG exists and lies between the smallest and the largest station arm, despite the three roundings |
| Balance.EmptyMomentWithinArms | weight_and_balance.py:39-48 | The empty moment of either aircraft lies between the smallest and the largest arm times the empty mass, up to half a hundredth |
| Balance.MomentOverStep | weight_and_balance.py:85-89 | Walking one more station of the arm table adds that station's moment, when the scenario includes it |
| Balance.CoGBound | weight_and_balance.py:94 | For a weight of at least 749 kg and a moment between the extreme arms times it (up to half a hundredth), the rounded quotient of the rounded values lies between the extreme arms 93.98 and 312.42 |
| Balance.ItemsWeightUpdate | weight_and_balance.py:67 | Replacing one item changes the summed weight by the new weight less the old one |
| Balance.SetItemWeight | weight_and_balance.py:67 | Assigning a name changes a station's weight by the new weight less what the name held (zero if new) |
| Balance.ItemsAtPut | weight_and_balance.py:67 | After `loading[s][name] = w`, station s holds its previous items with `name` assigned |
| Balance.PutWeight | weight_and_balance.py:65-80 | One load changes the loads' weight by its weight less what the slot held, and only in the scenarios that include its station |
| Balance.OtherTermsUnchanged | weight_and_balance.py:76-79 | When only one station's items change, only that station's term of the weight changes |
| WeightAndBalance.ArmTable | weight_and_balance.py:55-61 | The arm table `self.arms`; ArmTableComplete proves it has every station, with the arm the calculation uses |
| WeightAndBalance.ArmTableComplete | weight_and_balance.py:55-61 | The arm table has an entry for every station, equal to the arm the calculation uses |
| WeightAndBalance.C172S_WB.constructor | weight_and_balance.py:35-63 | A known callsign gets its weighing record, an empty moment equal to the rounded product of mass and arm, the arm table and an empty loading |
| WeightAndBalance.Create | weight_and_balance.py:35-51 | Succeeds exactly for the two known callsigns, with a fresh, empty calculator; any other callsign gives UnknownCallsign |
| WeightAndBalance.C172S_WB.Load | weight_and_balance.py:65-67 | The new loading is the old one with the capitalised name assigned the weight at the station; the table stays well formed |
| WeightAndBalance.C172S_WB.Fuel | weight_and_balance.py:69-71 | The new loading is the old one with the "Fuel" entry of the fuel station set to litres × 0.71 kg |
| WeightAndBalance.C172S_WB.TotalWeight | weight_and_balance.py:73-80 | The loop over the loading, skipping fuel when asked, returns Balance.TotalWeight of the calculator's state |
| WeightAndBalance.C172S_WB.TotalMoment | weight_and_balance.py:82-90 | The loop over the arm table returns Balance.TotalMoment of the calculator's state |
| WeightAndBalance.C172S_WB.CoG | weight_and_balance.py:92-94 | Returns Balance.CoG of the calculator's state: the error exactly when the total weight is zero |
| WeightAndBalance.EmptyMoments | weight_and_balance.py:39-48 | The empty moments are 78568.52 (D-EXBS) and 79996.95 (D-EXAV) |
| WeightAndBalance.LoadNamesCaseInsensitive | weight_and_balance.py:67 | Loading a second name at a station overwrites the first exactly when the two names are equal ignoring letter case |
| WeightAndBalance.FuelReplaces | weight_and_balance.py:71 | A second `fuel` call replaces the first; the fuel station holds the second amount |
| WeightAndBalance.FuelWeights | weight_and_balance.py:69-80 | `fuel` leaves the weight without fuel unchanged and moves the weight with fuel by the new fuel mass less the old one |
| WeightAndBalance.ExampleFlight | weight_and_balance.py:300-313 | D-EXBS with an 80 kg pilot and 100 L of fuel weighs 924.16 kg with CoG 102.52 cm, and 853.16 kg with CoG 100.90 cm without fuel |
| WeightAndBalance.ExampleFigures | weight_and_balance.py:73-94 | The D-EXBS figures of ExampleFlight follow from the aggregate definitions |
| WeightAndBalance.ExampleFiguresDEXAV | weight_and_balance.py:73-94 | The same loads in D-EXAV: 900 kg, moment 96171.67, CoG 106.86 cm; without fuel 829 kg and CoG 105.57 cm |
| Chart.Map2Range | weight_and_balance.py:109-115 | The point (value, result) lies on the line through (minGraph, minPx) and (maxGraph, maxPx) |
| Chart.Map2RangeEndpoints | weight_and_balance.py:109-115 | minGraph maps to minPx and maxGraph maps to maxPx |
| Chart.Map2RangeMonotone | weight_and_balance.py:109-115 | The map is increasing exactly when (maxPx − minPx)/(maxGraph − minGraph) > 0 |
| Chart.Map2RangeSlope | weight_and_balance.py:109-115 | The map is affine, with that slope, through (minGraph, minPx) |
| Chart.Map2RangeRoundTrip | weight_and_balance.py:109-115 | Mapping back with the ranges exchanged returns the original value |
| Chart.CoGLineX | weight_and_balance.py:251 | The x of the CoG line: `_map2range` of the CoG in millimetres; CoGLineIncreasing and LinesCrossInsideChart state its calibration and range |
| Chart.WeightDrop | weight_and_balance.py:253 | How far below the chart top the weight line sits; WeightLineRises states its calibration and direction |
| Chart.LinesAt | weight_and_balance.py:250-271 | The vertical and horizontal line of one scenario; LinesCrossInsideChart proves they cross inside both segments |
| Chart.CoGLineIncreasing | weight_and_balance.py:251 | A further-aft CoG draws further right; 875 mm maps to x = 212 and 1225 mm to x = 384.25 |
| Chart.WeightLineRises | weight_and_balance.py:253-259 | A heavier aircraft draws its weight line higher; 650 kg sits 275 below the chart top and 1050 kg 49.75 below it |
| Chart.LinesCrossInsideChart | weight_and_balance.py:250-259 | For a CoG and weight within the chart's ranges, the vertical and horizontal lines cross inside both segments |
| Report.ItemRowFor | weight_and_balance.py:193-203 | One item's row: its name, rounded weight, rounded arm and rounded product (ItemRowsAt) |
| Report.ItemRows | weight_and_balance.py:192-203 | One row per item |
| Report.ItemRowsAt | weight_and_balance.py:192-203 | The j-th item's row shows its rounded weight, the rounded arm and their rounded product, j + 1 lines below the station heading |
| Report.StationBlock | weight_and_balance.py:189-203 | A station's heading then its item rows; StationBlockDescends proves each row a line below the previous one |
| Report.LoadHeight | weight_and_balance.py:188-204 | The loads never move the cursor upward |
| Report.LoadRows | weight_and_balance.py:188-204 | The rows of the loads, station by station in insertion order; LoadRowsLength, LoadRowsBlock and LoadRowsDescend state their number, content and placement |
| Report.LoadRowsLength | weight_and_balance.py:188-204 | The loads give one heading per station and one row per item |
| Report.LoadRowsBlock | weight_and_balance.py:188-204 | Each station's block, its heading then its items in insertion order, follows the blocks of the stations loaded before it, as far down as they are tall |
| Report.LoadRowsDescend | weight_and_balance.py:188-204 | The load rows go strictly downward and stay between the top and the bottom of the loads |
| Report.StationBlockDescends | weight_and_balance.py:191-204 | Within a block, row i sits exactly i lines (15 each) below the heading, so the rows go strictly down, all above the block's bottom gap |
| Report.HeadRows | weight_and_balance.py:169-187 | The column heads, the empty-aircraft row and the Load title, a line apart from y = 685; TableDescends states their order |
| Report.TotalRows | weight_and_balance.py:206-225 | The Totals title, the totals row and the CoG row, a line apart; TableDescends states their order |
| Report.ChartTop | weight_and_balance.py:250 | Where both chart lines start: 50 below the CoG row, never above y = 560, however few loads there are |
| Report.ReportOf | weight_and_balance.py:169-271 | The report's content, or the error of the first CoG that fails; ReportLayout and ReportExists state its layout and when it exists |
| Report.WriteItems | weight_and_balance.py:192-203 | The loop over one station's items writes exactly ItemRows, rounding the arm again for each item, and moves the cursor down a line per item |
| Report.TableDescends | weight_and_balance.py:169-225 | Head rows, load rows and totals together go strictly downward, have 6 rows plus one per station and item, and end with the CoG row 50 above the chart top |
| Report.WriteLoads | weight_and_balance.py:188-204 | The nested loop over stations and items writes exactly LoadRows and leaves the cursor LoadHeight lower |
| Report.CreatePdf | weight_and_balance.py:169-271 | The report the function lays out is ReportOf the calculator's state, failing exactly where CoG fails |
| Report.ReportLayout | weight_and_balance.py:169-252 | The table has 6 rows plus one per station and item and goes strictly downward; it ends with the with-fuel CoG; both pairs of chart lines start 50 below it |
| Report.ReportTotals | weight_and_balance.py:216-225 | The second-to-last row is the totals row: the total weight and moment with fuel, one line above the CoG row |
| Report.ReportExists | weight_and_balance.py:217-271 | With non-negative loads the report exists; each CoG line sits at its scenario's CoG; the line without fuel is never above the line with fuel |

## Left out

- Balance.CoG: at a total weight of zero (possible only with negative loads, e.g. D-EXAV after `load(-749, "front_seats", "x")`) the source divides a numpy float64 by zero, which gives an infinite or NaN CoG with a warning and no exception, and `create_pdf` goes on to print and draw it. Reals have no infinity; the model returns `Err(DivisionByZero)` in its place, and `Report.CreatePdf` then fails where the source draws.
- Balance.TotalWeightFuelMonotone: equal totals with and without fuel do not imply that no fuel is loaded. Only the "if" direction holds (`NoFuelSameScenarios`); `fuel(0)` is the counterexample to the converse (`FuelZeroSameWeight`), and a fuel mass under half a hundredth can also round away.

- Drawing is not modelled: the canvas, fonts, text widths and column offsets, underlines, colours, the background image and its position, and the legend (lines 97-101, 130-148, 228-238, 273-286).
- The header block above the table is not modelled: the title, "Cessna 172S", today's date, the callsign line and the weighing date (lines 129-154). The file name depends on today's date. The source's constructor stores the weighing date as `self.date` (lines 42 and 49); the model drops it.
- The command-line entry point is not modelled: reading `weight_and_balance.json`, the usage message and the exit (lines 289-316). `ExampleFlight` follows its create, load and fuel sequence for one fixed loading.
- Rounding.Round2: rounds a half upward over exact reals. Python's `round` rounds binary floating-point values half to even, so the two can differ on exact ties. D-EXAV's empty moment 749 × 106.805 = 79996.945 is an exact tie over the reals, and the model rounds it up to 79996.95. The double-precision product of 749 and 106.805 lies just above the tie, so `round` gives 79996.95 as well.
- Text.Capitalize: `str.capitalize` and `str.lower` are modelled for ASCII letters only, so the case-insensitive overwriting of `load` (`CapitalizeCollides`, `LoadNamesCaseInsensitive`) is proved for ASCII case alone. In Python `"JÜRGEN"` and `"jürgen"` both become `"Jürgen"` and the second load overwrites the first; in the model they stay two entries. The station keys and the names `ExampleFlight` loads ("pilot" and "Fuel") are ASCII.
- A station is one of the five keys of the arm table. `load` accepts any string in the source. A key outside the arm table would be ignored by `total_moment` but counted by `total_weight`, and would make `create_pdf` fail with a `KeyError` when it looks up the arm. The closed type rules that input out.
- Report.CreatePdf: a heading row carries its station, and the text written for it is `Stations.Heading(station)`, pinned down by `Stations.HeadingLabels`. Every row holds numbers rather than the formatted strings drawn: the empty row (`f"{plane.empty_mass_kg} kg"`, `f"{plane.empty_arm_cm} cm"`, `str(plane.empty_moment)`, lines 174-180), each item row (`f"{weight} kg"`, `f"{arm} cm"`, `str(round(weight * arm, 2))`, lines 196-203) and the totals (`f"Weight: ... kg"`, `f"Moment: ..."`, `f"CoG: ..."`, lines 217-225). Python's float-to-string conversion is not modelled.
- numpy's `np.sum` over an array is an ordinary sum over the sequence of weights, in insertion order.
- The empty moments in the source's comments (78572.54, 79997.00) are weighing-book values. The code computes the empty moment from mass and arm, and the model follows the code: 78568.52 and 79996.95 (`EmptyMoments`). `ExampleFiguresDEXAV` works from the computed value.
