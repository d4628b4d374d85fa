# Household resource accounting

A model of the simulation core of a Java household-utility simulator. The
house holds two meters, one for water and one for electricity; the electric one
may be backed by a battery. It also holds an ordered list of appliances, each
bound to one of the meters. Every simulated hour, each appliance's
`timePasses()` adds its consumption to its meter. Then each meter `report()`s
a cost and resets. There are four appliance kinds:

- CyclicFixed and CyclicVaries are on for the first `cycleLength` hours of a
  1..24 hour counter.
- RandomFixed and RandomVaries are on when a draw from `[0, probability)` is
  0.

A line-offset parser reads paragraphs of eight labelled lines from a
configuration file and adds one appliance per paragraph.

Modules, one per Java class of the core, plus shared pieces:

- `Meter`, `BatteryMeter`, `CyclicFixed`, `CyclicVaries`, `RandomFixed`,
  `RandomVaries`, `House`, `FileParser`: a class each, with the Java fields
  and methods. Each mutating method is proved against a value-level function,
  and the properties are lemmas about those functions. For `Meter`,
  `BatteryMeter`, `FileParser` and the four appliance kinds that function is
  in the class's own module (`ReportOf`, `Netting`, `Parse`, `Consumption`,
  `Total`, …). The methods of `House` are proved against `Hour`, `Run`,
  `ReportAll`, `Added` and `RemoveFirst` in module `Household`. The dispatch
  of `timePasses` through an `Appliance` handle is proved against
  `Appliance.Step`.
- `Battery`: the battery behind a BatteryMeter. Battery.java is not part of
  this model, so its two calls carry an explicitly **assumed** contract. Both
  calls saturate, and each returns the amount it moved.
- `ApplianceBase` and `Appliance`: what the four kinds share with their base
  class Appliance.java, which is not part of this model either. That is a
  name, a meter handle that may be null, the fatal "meter is set" check and
  the two random draws. `Appliance` is the handle the house stores, and it
  dispatches `timePasses` to the right kind.
- `HourCounter`: the 24-to-1 wrapping counter used by the cyclic appliances.
- `Household`: the house as a value (`HouseState`), one step (`StepOne`), one
  hour (`Hour`) and a run of hours (`Run`), with their lemmas.
- `Text`: the `String` operations and number parsing the parser uses.
- `Wrappers`: `Option`, `Result`, `Outcome`.

Randomness is injected. A `Draw(units, pick)` carries the hour's
`generateRandomUnits(min, max)` value and `nextInt(probability)` value for one
appliance. An hour takes one draw per listed appliance. `activate(hours)` takes
one sequence of draws per hour.

Every `System.exit(1)` in the core, and the `IllegalArgumentException` that
`nextInt` throws on a bound below 1, becomes an error value:

- An appliance stepped without a meter gives `MeterNotSet`.
- `nextInt` on a probability below 1 gives `BoundNotPositive`.
- A paragraph line that is missing or lacks its label gives `MissingLine` or
  `BadLine`.
- A number that does not parse gives `BadNumber`.
- An unknown subclass gives `UnknownKind`, and an unknown meter gives
  `UnknownMeter`.

The parser's switch on a paragraph's values is `FileParser.Decide`.
`FileParser` also holds a ghost field `decide`, which the constructor sets to
`Decide`. It lets the loop lemmas (`Run`, `RunFrom`, …) be stated over any
decider and any reader. The switch itself is proved equal to it (`IsSwitch`).

Plain `Meter.report()` returns `unitCost * reading` even for a negative
reading, so its cost is not clamped at zero. Only the printed row shows 0
(Meter.java:77-86).

## Model

| member | source | states |
|---|---|---|
| Meter.Meter.constructor | Meter.java:18-22 | a new meter has the given utility and unit cost and a reading of 0 |
| Meter.Meter.GetMeterReading | Meter.java:38-40 | returns the current reading and changes nothing |
| Meter.Meter.SetMeterReading | Meter.java:45-47 | the reading becomes exactly the value; the only thing the method may change is the reading |
| Meter.Meter.ConsumeUnits | Meter.java:64-66 | the reading grows by exactly `units`, of either sign; utility and unit cost are constants |
| Meter.Meter.Report | Meter.java:74-87 | cost and new state are `ReportOf` of the old state |
| Meter.ReportOf | Meter.java:77-86 | the reading resets to 0 and name and cost are kept; zero reading means zero cost; with a positive unit cost the cost is negative exactly when the reading is, i.e. it is not clamped |
| Meter.ConsumedAddsSum | Meter.java:64-66 | consuming u1..un adds their sum to the reading and changes nothing else |
| Meter.ReportAfterConsumes | Meter.java:64-86 | from a zero reading, report after consuming u1..un costs unitCost × Σui |
| Meter.SecondReportIsFree | Meter.java:77-86 | a second report with nothing in between costs 0 |
| Battery.StoreAmount | BatteryMeter.java:41 | assumed: storeUnits(r) stores min(capacity − level, abs r), at least 0 on a sound battery |
| Battery.TakeAmount | BatteryMeter.java:45 | assumed: takeUnits(r) supplies min(level, r), at least 0 on a sound battery |
| Battery.Battery.StoreUnits | BatteryMeter.java:41 | assumed contract of the call: moves and returns `StoreAmount`, and logs one Store request with the argument given |
| Battery.Battery.TakeUnits | BatteryMeter.java:45 | assumed contract of the call: moves and returns `TakeAmount`, and logs one Take request with the argument given |
| Battery.ApplyAllSound | BatteryMeter.java:40-46 | under the assumed contract, 0 ≤ level ≤ capacity after any sequence of calls, and the capacity never changes |
| Battery.StoreTwiceSaturates | BatteryMeter.java:41 | a concrete instance: a 500-unit battery absorbs a 300 surplus and then only 200 more |
| BatteryMeter.RequestFor | BatteryMeter.java:40-46 | exactly one battery call, with the reading itself as argument: storeUnits iff the reading is < 0, takeUnits otherwise, including at 0 |
| BatteryMeter.Settle | BatteryMeter.java:51-65 | whatever amounts the battery returned, the adjusted reading is reading − taken + stored; the mains draw is max(adjusted, 0); the cost is unitCost × mains |
| BatteryMeter.SurplusNotCredited | BatteryMeter.java:57-60 | a negative adjusted reading gives 0 mains and 0 cost |
| BatteryMeter.CostNeverNegative | BatteryMeter.java:57-65 | with unitCost ≥ 0 the cost is ≥ 0 on every path, for any amounts the battery returns |
| BatteryMeter.IdleReportIsFree | BatteryMeter.java:35-78 | a zero reading costs 0 and leaves a sound battery unchanged |
| BatteryMeter.NettingClosedForm | BatteryMeter.java:35-78 | under the assumed battery: mains = max(reading − level, 0); new level = level − reading clamped to [0, capacity]; the battery stays sound; for a reading ≥ 0, mains + taken = reading |
| BatteryMeter.Netting | BatteryMeter.java:35-78 | the whole arithmetic of report(): storeUnits(reading) for a negative reading, takeUnits(reading) otherwise, then `Settle` with the amount returned; its properties are `SurplusNotCredited`, `CostNeverNegative`, `IdleReportIsFree` and `NettingClosedForm` |
| BatteryMeter.BatteryMeter.constructor | BatteryMeter.java:19-22 | a fresh base meter with the given name and cost and reading 0, using the given battery |
| BatteryMeter.BatteryMeter.Report | BatteryMeter.java:35-78 | logs exactly one battery request, `RequestFor(reading)`; cost and new battery are `Netting` of the old reading and battery; the reading is 0 afterwards on every path |
| HourCounter.Tick | CyclicFixed.java:57-61 | 24 wraps to 1, any other value increments, and a counter in 0..24 lands in 1..24 |
| HourCounter.FreshTicks | CyclicFixed.java:35-61 | after n ≥ 1 ticks from 0 the counter is ((n−1) mod 24) + 1 |
| HourCounter.TicksInRange | CyclicFixed.java:57-61 | from any start in 0..24, the counter is in 1..24 after every tick |
| HourCounter.TicksAdd | CyclicFixed.java:57-61 | n ticks then m ticks equal n + m ticks |
| HourCounter.WrappedLikeFresh | CyclicFixed.java:57-61 | a counter at 24 ticks like a fresh one |
| HourCounter.FullDays | CyclicFixed.java:57-61 | after 24·d ticks (d ≥ 1) from fresh the counter stands at 24 |
| CyclicFixed.AcceptedCycle | CyclicFixed.java:31-33 | a cycle length in 1..24 is kept; any other value leaves the Java default 0 |
| CyclicFixed.CyclicFixed.constructor | CyclicFixed.java:27-36 | name and units stored, cycle length is `AcceptedCycle`, counter 0, no meter |
| CyclicFixed.CyclicFixed.TimePasses | CyclicFixed.java:48-66 | with no meter the call fails and the counter is unchanged; otherwise the counter ticks and the meter gains unitsFixed iff the new hour ≤ cycleLength |
| CyclicFixed.FirstDay | CyclicFixed.java:57-65 | k ≤ 24 calls from fresh add min(k, cycleLength) × unitsFixed, so exactly the first cycleLength calls consume |
| CyclicFixed.TotalSplit | CyclicFixed.java:57-65 | the consumption over consecutive runs of calls adds up |
| CyclicFixed.WrappedTotal | CyclicFixed.java:57-65 | from a counter at 24, calls consume as they would from fresh |
| CyclicFixed.DayTotal | CyclicFixed.java:57-65 | the first 24 calls from fresh consume cycleLength × unitsFixed |
| CyclicFixed.NextDay | CyclicFixed.java:57-65 | the 24-call block after d full days consumes like the first |
| CyclicFixed.EveryDay | CyclicFixed.java:57-65 | 24·days calls from fresh consume days × cycleLength × unitsFixed |
| CyclicFixed.RejectedCycleNeverConsumes | CyclicFixed.java:31-33 | with the cycle left at 0, no number of calls consumes anything |
| CyclicVaries.CyclicVaries.constructor | CyclicVaries.java:32-42 | cycle length is `AcceptedCycle`, bounds stored, counter 0, no meter, nothing drawn |
| CyclicVaries.CyclicVaries.TimePasses | CyclicVaries.java:55-73 | with no meter the call fails, with no draw and no tick; otherwise the amount is drawn (logged) on every call, the counter ticks, and the amount is added iff the new hour ≤ cycleLength |
| CyclicVaries.FirstDay | CyclicVaries.java:62-72 | k ≤ 24 calls from fresh add the sum of the first min(k, cycleLength) amounts drawn |
| CyclicVaries.TotalSplit | CyclicVaries.java:62-72 | the consumption over consecutive runs of calls adds up |
| CyclicVaries.WrappedTotal | CyclicVaries.java:64-68 | from a counter at 24, calls consume as they would from fresh |
| CyclicVaries.DayByDay | CyclicVaries.java:62-72 | within each 24-call block from fresh, only the first cycleLength draws count, and the later calls run as if fresh |
| RandomFixed.RandomFixed.constructor | RandomFixed.java:24-28 | name, units and probability stored unchecked, no meter |
| RandomFixed.RandomFixed.TimePasses | RandomFixed.java:38-52 | with no meter the call fails before the draw; a probability < 1 fails as nextInt would; otherwise the meter gains unitsFixed iff the pick is 0, and the appliance's own fields do not change |
| RandomFixed.TotalCountsHits | RandomFixed.java:47-51 | calls consume unitsFixed once for each pick that is 0 |
| RandomFixed.AlwaysOn | RandomFixed.java:47-50 | with probability 1 every draw is 0, so every call consumes |
| RandomVaries.RandomVaries.constructor | RandomVaries.java:27-33 | probability and bounds stored, no meter, nothing drawn |
| RandomVaries.RandomVaries.TimePasses | RandomVaries.java:43-58 | with no meter the call fails before either draw; otherwise the amount is drawn (logged in `amounts`) on every call; then a probability < 1 fails with no integer drawn and the reading unchanged, and otherwise the integer is drawn (logged in `picks`) and the amount is added iff it is 0 |
| RandomVaries.AlwaysOn | RandomVaries.java:52-57 | with probability 1 the calls add the sum of all amounts drawn |
| RandomVaries.NeverOn | RandomVaries.java:55-57 | picks that are never 0 add nothing, whatever the amounts |
| Appliance.Step | House.java:126 | one hour of any kind: it fails iff a random kind has a probability < 1, naming that appliance; the constants are kept; a cyclic counter ticks; a random value is unchanged and adds 0 when the pick is not 0 |
| Appliance.RejectedCycleAddsNothing | CyclicFixed.java:31-33 | a cyclic appliance whose cycle length was rejected adds nothing on any hour |
| Appliance.Appliance.SetMeter | House.java:79 | binding sets the meter handle and leaves the state the hour depends on unchanged |
| Appliance.Appliance.TimePasses | House.java:126 | without a meter it fails and nothing changes; with one, the state and the meter's reading change exactly as `Step` says, or not at all when `Step` fails |
| Household.StepOne | House.java:126 | one appliance's timePasses on the house value: its `Step` error, or its new state and its delta fed to the meter of its side; a success keeps the list, the bindings and the battery |
| Household.StepOneSpec | House.java:126 | one listed appliance's step fails iff it cannot step; otherwise only its own state and its own meter's reading change |
| Household.Advance | House.java:125-127 | the for loop of activate() over the first n listed appliances, each with its own draw, stopping at the first error; a success keeps the list, the bindings and the battery |
| Household.AdvanceUnmoved | House.java:125-127 | stepping the list keeps the list, the bindings, the meters' constants and each appliance's constants |
| Household.AdvanceLast | House.java:125-127 | the hour gets past one more appliance iff that appliance can step; otherwise the hour fails with its error |
| Household.AdvanceOkIff | House.java:125-127 | the loop of activate() fails exactly when some listed random appliance has a probability < 1 |
| Household.AdvanceFailsAtFirst | House.java:125-127 | the hour fails with the error of the first appliance in list order that cannot step |
| Household.AdvanceStepsEach | House.java:125-127 | with no appliance listed twice, each listed appliance ends the loop exactly one step on from where it began |
| Household.AdvanceAddsDeltas | House.java:125-127 | with no appliance listed twice, each meter gains the sum of the deltas of the appliances bound to it |
| Household.ElectricReport | House.java:185-192 | a plain electric meter bills as `Meter.report`; a battery-backed one is never negative for unitCost ≥ 0, keeps the battery sound, and is free when the battery covers the reading; the reading resets |
| Household.ReportAll | House.java:177-194 | getTotalCost is the water report plus the electric report, and both readings reset |
| Household.SecondReportIsFree | House.java:177-194 | a second getTotalCost with nothing in between costs 0 and changes nothing |
| Household.NegativeTotalNotClamped | House.java:190 | a concrete house whose water reading is −100 reports −0.2: the total is not floored |
| Household.Hour | House.java:123-130 | a successful activate() keeps the list and the bindings and leaves both readings at 0 |
| Household.Run | House.java:140-168 | a successful run keeps the list and the bindings |
| Household.RunUnmoved | House.java:140-168 | a run keeps every appliance known and the same appliance, and a sound battery stays sound |
| Household.IdleHouseIsFree | House.java:140-168 | a house with no appliances and zero readings costs 0 over any number of hours and ends as it began |
| Household.RunOkIff | House.java:140-168 | given at least one hour, the run fails exactly when some listed appliance cannot step |
| Household.Added | House.java:77-81 | adding appends the appliance at the end; the list grows by one; every listed appliance stays described |
| Household.RemoveFirstSpec | House.java:101-103 | removal drops the first occurrence and keeps the order of the rest, shortening the list by one; an absent appliance changes nothing |
| Household.ClockLabelsAt | House.java:142-154 | the k-th label printed by activate(hours) is the clock after k + 1 hours |
| Household.ClockAfter | House.java:142-151 | after k ≥ 1 hours the clock is hour ((k−1) mod 24) + 1 of day (k−1) div 24 + 1; its hour is the appliance counter's |
| House.ElectricMeter.Report | House.java:185-192 | the electric meter's report, dispatched to Meter or BatteryMeter, is `ElectricReport` of its old state |
| House.House.constructor | House.java:45-49 | default meters Water at 0.002 and Electricity at 0.013, both plain and fresh, and no appliances |
| House.House.WithMeters | House.java:63-67 | the given meters and no appliances |
| House.House.Add | House.java:77-93 | appends a, binds it to the meter of the side, and changes the house value exactly as `Added` |
| House.House.AddWaterAppliance | House.java:77-81 | appends a and binds it to the water meter; the house value becomes `Added(…, WaterSide)` |
| House.House.AddElectricAppliance | House.java:90-93 | appends a and binds it to the electric meter; the house value becomes `Added(…, ElectricSide)` |
| House.House.NumAppliances | House.java:110-112 | numAppliances(): the length of the list; `RemoveAppliance` states how removal changes it |
| House.House.RemoveAppliance | House.java:101-112 | the list becomes `RemoveFirst`; the count drops by one when a is listed, and nothing changes when it is not; meters and states are untouched |
| House.House.StepAll | House.java:125-127 | the loop over the list: fails with the error of `Advance`, or leaves the house in its successful state |
| House.House.StepAppliance | House.java:126 | timePasses on one listed appliance, exactly as `StepOne` |
| House.House.Activate | House.java:123-130 | activate(): the error or the cost and the new house are those of `Hour` on the old house |
| House.House.GetTotalCost | House.java:177-194 | cost and new house are `ReportAll` of the old house |
| House.House.NextLabel | House.java:146-154 | the clock steps to the next hour and its label is appended: the k-th clock and the first k labels become the k+1-th and the first k+1 |
| House.House.Tally | House.java:156 | one more hour of the run: its error ends the run, or its cost is added to the total of the hours before |
| House.House.ActivateFor | House.java:140-168 | activate(hours): the error, total and final house are those of `Run` over the hours' draws (hours ≤ 0 run nothing and cost 0); the labels printed are the first clocks, one per hour started |
| Text.Contains | FileParser.java:167 | `String.contains`: the pattern is a prefix here or occurs further on; `ContainsIff` ties it to an occurrence |
| Text.ContainsIff | FileParser.java:167 | `contains` holds exactly when the pattern occurs somewhere |
| Text.LastIndexOf | FileParser.java:168 | `String.lastIndexOf`: −1 or an index where the pattern occurs; `LastIndexOfIsLast` shows it is the last one |
| Text.LastIndexOfIsLast | FileParser.java:168 | lastIndexOf gives the last occurrence, and −1 exactly when there is none |
| Text.Suffix | FileParser.java:168 | the value taken is strictly shorter than the line |
| Text.SuffixAt | FileParser.java:168 | with its last ": " at k, a line's value is the text from k + 2 on |
| Text.SuffixOfLabelled | FileParser.java:168 | `label: value` gives back value whenever the value holds no ": " |
| Text.SuffixWithoutSeparator | FileParser.java:168 | a line with no ": " loses its first character (lastIndexOf gives −1, and −1 + 2 is 1) |
| Text.RemoveAll | FileParser.java:202 | `replaceAll(pat, "")` for a literal pattern: every occurrence met from the left is dropped, so the text never grows |
| Text.RemoveAllAbsent | FileParser.java:202 | replaceAll on text without the pattern changes nothing |
| Text.RemoveAllTrailing | FileParser.java:202 | "n/24" loses its "/24" |
| Text.RemoveAllLeading | FileParser.java:208 | "1 in n" loses its "1 in " |
| Text.ParseInt | FileParser.java:202 | an accepted integer lies in the 32-bit range |
| Text.ParseIntShow | FileParser.java:202 | parseInt reads every 32-bit number back from its decimal rendering |
| Text.ParseIntRefuses | FileParser.java:202 | text holding a non-digit anywhere past its first character is refused |
| Text.ParseFloat | FileParser.java:202 | `Float.parseFloat` on trimmed, signed decimal notation; `ParseFloatShowInt`, `ParseFloatFraction` and `ParseFloatNegative` give its values |
| Text.ParseFloatShowInt | FileParser.java:202 | parseFloat reads a rendered whole number back |
| Text.ParseFloatFraction | FileParser.java:202 | parseFloat reads "w.ds" as w plus the fraction ds denotes |
| Text.ParseFloatNegative | FileParser.java:202 | a minus sign negates the decimal after it |
| FileParser.Lines | FileParser.java:122-136 | line 0 is the empty sentinel and line n is the file's n-th line |
| FileParser.FormatLabelled | FileParser.java:36-45 | the paragraph format has an unused entry 0 and eight non-empty labels |
| FileParser.CheckLine | FileParser.java:164-176 | line pos − 1 + i is accepted iff it exists and contains label i + 1; otherwise the error names that line (and its text) |
| FileParser.Fields | FileParser.java:162-178 | an accepted paragraph gives one value per checked line |
| FileParser.FieldsOk | FileParser.java:162-178 | the paragraph is accepted iff every line is, and then its values are the lines' values in order |
| FileParser.FieldsFirstError | FileParser.java:162-176 | a rejected paragraph fails at its first bad line: every earlier line holds its label, and the error names that line's index and text |
| FileParser.FieldsNext | FileParser.java:164-177 | one more line: it aborts with MissingLine or BadLine, or appends its suffix |
| FileParser.FieldsErrSticks | FileParser.java:170-175 | after a failing line the later lines are not checked |
| FileParser.FieldsLocal | FileParser.java:162-165 | a paragraph depends only on its own lines pos − 1 .. pos + 6 |
| FileParser.Initial | FileParser.java:202-211 | the new appliance keeps the paragraph's name |
| FileParser.Float | FileParser.java:202 | fails with BadNumber exactly when parseFloat refuses the text |
| FileParser.Integer | FileParser.java:202 | fails with BadNumber exactly when parseInt refuses the text |
| FileParser.Cycle | FileParser.java:202-205 | `parseInt(cycle.replaceAll("/24", ""))`: BadNumber when the rest does not parse (see `ParseIntShowNat`) |
| FileParser.Probability | FileParser.java:208-211 | `parseInt(probability.replaceAll("1 in ", ""))`: BadNumber when the rest does not parse (see `RandomFixedParagraph`) |
| FileParser.Build | FileParser.java:200-215 | the appliance keeps the paragraph's name; the only errors are a bad number or an unknown subclass, the latter naming the appliance |
| FileParser.BuildKinds | FileParser.java:200-215 | an unknown-subclass error happens iff the subclass is none of the four, and each subclass builds its own kind |
| FileParser.MeterSide | FileParser.java:226-236 | only "water" and "electric" are accepted, to their own sides; anything else is UnknownMeter naming the appliance |
| FileParser.Decide | FileParser.java:95-103 | a paragraph's values decide an appliance with the paragraph's name; the errors are number, subclass or meter errors only |
| FileParser.ReadFields | FileParser.java:88-103 | one pass of the loop: the lines' error, or the switch applied to the values |
| FileParser.Read | FileParser.java:88-103 | one paragraph at its subclass line: parseList's error, or the switch applied to the values |
| FileParser.Reading | FileParser.java:87-111 | the reader the loop uses is `Read` at each subclass line |
| FileParser.Nth | FileParser.java:110 | the subclass lines never move backwards |
| FileParser.NthLine | FileParser.java:31-110 | the k-th paragraph's subclass line is pos + 9k, i.e. 2 + 9k from the start |
| FileParser.Run | FileParser.java:87-111 | the while loop of start() over any reader: paragraphs from pos on, 9 lines apart, until the end of the file or the first error |
| FileParser.RunStep | FileParser.java:87-111 | a paragraph either stops the loop with its error or adds its appliance in front of those from 9 lines on |
| FileParser.RunAt | FileParser.java:87-111 | the i-th appliance comes from subclass line pos + 9i, which is a line of the file |
| FileParser.RunEnd | FileParser.java:87-111 | the loop stops 9 lines past the last appliance's paragraph |
| FileParser.RunStops | FileParser.java:87-93 | an error that stops the loop is that paragraph's error |
| FileParser.RunFrom | FileParser.java:87-111 | after k appliances the loop either reads the next one, stops there with the run's error, or has passed the end of the file without error |
| FileParser.ParseErrorLine | FileParser.java:171-175 | every line error names a line of the file by its 1-based number and gives its text, or names the first line past the end |
| FileParser.Parse | FileParser.java:77-111 | start() on the lines of a file: `Run` with `Read` as the reader; its properties are `ParseFrom`, `ParseErrorLine`, `ParseConcat` and `ParseFile` |
| FileParser.Paragraph | FileParser.java:36-45 | a laid-out paragraph takes 9 lines |
| FileParser.ParagraphFields | FileParser.java:162-178 | a laid-out paragraph gives its values back, whatever lines surround it |
| FileParser.ParseConcat | FileParser.java:87-111 | a file of laid-out paragraphs whose values all decide parses to their appliances in order, without error |
| FileParser.ParseFile | FileParser.java:77-111 | the same, for the whole file read with the real format and switch from line 2 on |
| FileParser.CyclicFixedParagraph | FileParser.java:202 | "n/24" and a whole number of units on a water or electric line give that CyclicFixed on that side |
| FileParser.RandomFixedParagraph | FileParser.java:208 | "1 in n" gives probability n |
| FileParser.ParseIntShowNat | FileParser.java:202 | the digits of "n/24" are read back as n |
| FileParser.ParseFrom | FileParser.java:87-111 | `RunFrom` stated for the lines and the reader of a file |
| FileParser.AddAll | FileParser.java:95-103 | the house after start() lists the new appliances behind the old ones, with the meters untouched |
| FileParser.AddAllStates | FileParser.java:95-103 | each new appliance gets the state its constructor gives and the side its paragraph names |
| FileParser.FileParser.constructor | FileParser.java:55-58 | the house and file given, first subclass line 2, the Java format and switch |
| FileParser.FileParser.ParseLine | FileParser.java:164-176 | one step of parseList's loop is `CheckLine` |
| FileParser.FileParser.StoreLine | FileParser.java:164-177 | an accepted line's value is stored as property d + 2, and nothing else in the array changes; a failing line changes nothing |
| FileParser.FileParser.ParseList | FileParser.java:153-180 | fails iff `Fields` fails, with its error; on success properties[1..8] are the paragraph's values |
| FileParser.FileParser.Construct | FileParser.java:202-211 | a fresh appliance of the blueprint's kind, with no meter, in its constructor's state |
| FileParser.FileParser.AddUnknownAppliance | FileParser.java:226-236 | water or electric adds exactly one appliance on that side; any other meter fails and leaves the house unchanged |
| FileParser.FileParser.InstantiateApplianceFromFile | FileParser.java:197-216 | fails iff the switch fails, with the house unchanged; otherwise adds one fresh appliance as the switch decided |
| FileParser.FileParser.ReadParagraph | FileParser.java:88-108 | one pass of start()'s loop: `Read`'s error with the house unchanged, or one more appliance as `Read` decided |
| FileParser.FileParser.NextParagraph | FileParser.java:87-110 | the next paragraph of the run either adds the run's next appliance, with the position 9 lines on, or ends the run with its error |
| FileParser.FileParser.MoveOn | FileParser.java:110 | the subclass position moves 9 lines on and nothing else changes |
| FileParser.FileParser.Start | FileParser.java:77-112 | start(): fails iff the parse of the file has an error, with that error; the house gains the parsed appliances in file order, each fresh |

## Left out

- Console output is left out, because it produces no values: the table rows of
  `report()` and `getTotalCost()`, and the day and time lines of
  `activate(hours)`. The day/time labels are kept as the `labels` output of
  `ActivateFor`. The separator lines, which differ between a BatteryMeter and a
  plain one, are dropped.
- `Thread.sleep(50)` and the empty `InterruptedException` handler in
  `activate(hours)` are left out as timing only.
- House.main is an entry point and is not modelled. It uses the Water (0.002)
  and Electricity (0.013, battery 500) meters and a default of 168 hours.
- convertFileToList's file reading is left out. Its result is given as the
  sequence of lines; `FileParser.Lines` puts the empty line 0 in front.
- Battery.java is not part of this model. `storeUnits`/`takeUnits` carry an
  assumed saturating contract (module `Battery`). The properties in `Settle`,
  `SurplusNotCredited` and `CostNeverNegative` hold for any amounts the battery
  returns.
- Appliance.java is not part of this model. Its `setMeter`,
  `checkMeterSet`, `tellMeterToConsumeUnits` and `getName` are modelled by
  what the four kinds do with them: a nullable meter field, a `MeterNotSet`
  failure before anything changes, and `ConsumeUnits` on the bound meter.
- `java.util.Random` and `generateRandomUnits` are left out. The draws are
  parameters, so no distribution and no bound on the drawn amount (within
  [minUnits, maxUnits]) is stated.
- Float and double rounding are not modelled: readings and costs are `real`,
  and the `float` casts of the Java fields (Meter.java:10) are left out.
- `Text.ParseFloat` models `Float.parseFloat` restricted to trimmed, signed
  decimal notation. Exponents, `f`/`d` suffixes, hex, `NaN` and `Infinity`
  are not modelled. Text outside that notation reads as `BadNumber` here.
- `Text.ParseInt` models `Integer.parseInt` in base 10 with an optional sign
  and the 32-bit range. Non-ASCII digits are not modelled.
- `Text.RemoveAll` models `replaceAll(pat, "")` only for the two literal
  patterns used, which contain no regular-expression metacharacters.
- A failing appliance ends the program in Java through `System.exit(1)`.
  Here it ends the hour, and the run, with its error.
- A probability below 1 makes `nextInt` throw in Java, which ends the program.
  Here it is an error result (`BoundNotPositive`), not a precondition, so
  files with such a probability are covered.
- `House.House.WithMeters`: the water meter is always a plain Meter.
  House(Meter, Meter) also accepts a BatteryMeter for water, whose report()
  would then move a battery; the model does not express that house.
- `House.House.WithMeters` requires the water meter and the electric meter to
  be different objects, because the aliasing of one meter for both sides is
  not modelled.
- `Household.AdvanceStepsEach` and `Household.AdvanceAddsDeltas` require
  that no appliance is listed twice. The model itself follows the Java list
  for repeated appliances, stepping one object twice an hour, but these two
  lemmas do not cover that case.
- `House.House.Valid` requires every listed appliance to be bound to the
  meter of its own side. In Java, calling `setMeter` on an appliance after it
  was added is legal, and activate() then feeds whatever meter it holds; that
  aliasing of appliances with other meters is not modelled.
- `RandomVaries.RandomVaries.TimePasses` logs the two draws in two separate
  ghost sequences. A failing call shows that the amount was drawn before
  nextInt, but for a call that makes both draws the order is not recorded.
- The exceptions of a missing configuration file and of `args` parsing are
  left out with House.main and the file reading.
