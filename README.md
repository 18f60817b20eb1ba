# Sungrow battery scheduling on Nord Pool prices — a Dafny model

The repository is a set of AppDaemon apps for Home Assistant. They drive a
Sungrow hybrid inverter from the hourly Nord Pool spot prices (area SE3):

- **Night charging** (`smart_night_charging.py`). It picks three, four or
  five of the cheapest hours 0-6 of tomorrow, but only when tomorrow's day
  prices are at least 40 above the night. It sets the charge power and
  registers start and stop triggers for every run of consecutive hours.
- **Cheap night charging** (`smart_cheap_night_charging.py`). It always
  takes the five cheapest night hours, when the battery is below 90% and
  those hours average below 10.
- **Night charging sensors** (`smart_night_charging_sensors.py`). The same
  ranking, published on mock sensors only.
- **Day discharging** (`smart_day_discharging.py`). Today it picks up to
  seven hours of 6-22 that cost at least 40 more than the last charge. A
  midday gate comes first. The start callback reads the chosen hours back
  out of the published state text.
- **Extra night discharging** (`extra_night_discharging.py`). At 21, 22 and
  23 o'clock it discharges for the rest of the hour. This needs the price to
  be 50 above the mean of the two cheapest of tomorrow's hours 0-5, and the
  battery to hold more than 1%.
- **Discharge monitor** (`battery_discharge_monitor.py`). From 14 to 23
  o'clock it is meant to stop a discharge when the price is less than 40
  above the night reference (see Findings).
- **Charging safeguard** (`battery_charging_app.py`). A 03:00 charge when the
  battery is below 5%, polling every 60 s.
- **SOC manager** (`dynamic_soc_manager.py`). It sets the state-of-charge
  limits from today's price spread, with the full range on Sundays.
- **Price-spread sensors** (the three `nordpool_mean_*.py` scripts).

The model works on values:

- Price lists are `seq<Option<real>>`, where `None` is a missing price.
- A sensor state is a `Reading`: absent, a number, or a word.
- One `Entry(hour, price)` stands for each `(i, price)` pair the scripts
  build with `enumerate`.
- Python's stable `sorted(..., key=...)` is an insertion sort that is proved
  stable (`Ranking.Rank`). `[:k]` is `Ranking.Best`.
- Each update is a function from its inputs to an outcome datatype. The
  published sensor states, the inverter writes (`Actuator.TimedWrite`, each
  with its `run_in` delay) and the `run_at` triggers (`Actuator.Trigger`)
  are functions of that outcome.
- The loops of the scripts are methods proved equal to those functions:
  - splitting the hours into runs;
  - formatting the ranges;
  - the guarded and unguarded schedulers;
  - the qualifying-hour filter;
  - the charging poll.
- The state a script keeps between callbacks is a class field:
  - `selected_hours` of the two night-charging scripts;
  - `monitoring` and `charging_started_by_app` of the charging safeguard.
- Some Python paths raise an uncaught exception before they publish or
  write anything the model tracks. They lie outside a `Runnable` predicate,
  and each update requires it. These paths are a `None` that `sorted` or
  `sum` meets, a division by zero, and `float(None)` where the `TypeError`
  is not caught.
- The other exception paths are modelled as outcomes, together with what
  was published or written before the raise:
  - the exceptions each script catches;
  - the `ValueError` of `float(x or 0)` on the reference sensors of day
    discharging (`DayDischarging.ReferenceRaised`);
  - the `int()` of `start_discharging` on a state that is not a range list;
  - the `float()` of the charging safeguard's battery reads, which leaves a
    started charge on.

Clocks and dates are parameters. One is the weekday of the SOC manager.
Another is the current hour of a start callback. A third is seconds-since-
midnight for the end of the hour. Triggers carry the day they are for,
relative to the callback that registers them. Host reads are parameters of
type `Reading`. How a float is formatted (`:.2f`) is a parameter `meanText`:
the published text is built from it, and the round-trip lemmas hold for any
rendering without a comma.

## Model

| member | source | states |
|---|---|---|
| Prices.KnownEntries | smart_night_charging.py:33 | `enumerate` with `None` filtered out: each entry is a present price of the slice at its own hour |
| Prices.KnownEntriesComplete | smart_night_charging.py:33 | every present price of the slice yields its entry |
| Prices.KnownEntriesIncreasing | smart_night_charging.py:33 | `enumerate` produces hours in increasing order |
| Prices.KnownEntriesAllPresent | smart_day_discharging.py:50-58 | with no missing price, `enumerate` yields one entry per price, at its own hour |
| Prices.WindowLength | smart_day_discharging.py:50-58 | a slice with no missing price yields as many entries as it spans |
| Prices.WindowFull | smart_day_discharging.py:50-58 | a slice with no missing price yields one entry per hour, in order, each with its own price |
| Prices.Take | smart_night_charging.py:36-38 | Python's `s[:k]`: min(k, len) elements, the first ones of `s` |
| Prices.SumPricesPermutation | smart_night_charging.py:64-66 | the sum of the prices does not depend on the order of the entries |
| Prices.MeanAtLeast | smart_day_discharging.py:149 | prices all at least x have a mean of at least x |
| Prices.MeanAtMost | nordpool_mean_low_vs_high_price_today.py:32-33 | prices all at most x have a mean of at most x |
| Ranking.Rank | smart_night_charging.py:33 | the sort is a permutation of its input: the same multiset of entries |
| Ranking.RankRanked | smart_night_charging.py:33 | the sort is stable: keys never decrease, and entries with equal keys keep their hour order |
| Ranking.RankEnumerated | smart_night_charging.py:33 | entries built by `enumerate` come out ranked, in the cheapest, dearest and hour orders |
| Ranking.RankMembers | smart_night_charging.py:33 | an entry is in the sorted list iff it is in the input |
| Ranking.RankDistinctHours | smart_day_discharging.py:132 | sorting enumerated entries never yields two entries of one hour |
| Ranking.Best | smart_night_charging.py:36-38 | `sorted(...)[:k]` keeps min(k, n) entries |
| Ranking.BestMembers | smart_night_charging.py:36-38 | every kept entry is an input entry |
| Ranking.BestBeatsRest | smart_day_discharging.py:132-135 | every kept entry precedes every left-out entry: a better price, or the same price and an earlier hour |
| Ranking.BestDistinctHours | smart_night_charging.py:36-38 | the kept entries have distinct hours |
| Ranking.WindowBest | nordpool_mean_low_vs_high_price_today.py:28-29 | sorting a slice with no missing price and cutting at k keeps min(k, width) hours of the slice with their own prices, and each precedes every hour left out |
| Ranking.CheapestMeanGrows | smart_night_charging.py:41-43 | among entries ranked cheapest first, the mean of the k+1 cheapest is at least the mean of the k cheapest |
| Ranking.SortByHourIncreasing | smart_night_charging.py:116 | entries with distinct hours sort by hour into a strictly increasing list |
| Ranking.SortedHours | smart_night_charging.py:116 | `sorted` of the hours keeps one hour per entry |
| Ranking.SortedHoursSpec | smart_night_charging.py:116 | with distinct hours, the sorted hour list strictly increases and holds exactly the entries' hours |
| HourRuns.Runs | smart_day_discharging.py:181-198 | the runs are non-empty, no more than the hours, and the last run ends at the last hour |
| HourRuns.RunsPartition | smart_day_discharging.py:181-198 | the runs concatenate back to the hour list, each run is consecutive, and no run continues the one before it |
| HourRuns.RunsSeparated | smart_day_discharging.py:181-198 | for increasing hours, at least one hour is missing between two runs |
| HourRuns.RunEndNotListed | smart_day_discharging.py:219 | for increasing hours, the hour after a run is not selected, so a stop never cuts into a selected hour |
| HourRuns.RunsIdempotent | smart_day_discharging.py:181-198 | grouping the hours of the runs again gives the same runs |
| HourRuns.RunsStep | smart_day_discharging.py:186-193 | one loop iteration keeps `ranges + [current_range]` equal to the runs of the hours read so far |
| HourRuns.GroupSequentialHours | smart_day_discharging.py:181-198 | the loop returns exactly `Runs(hours)`, which concatenates back to `hours` |
| RangeText.Pad2 | smart_day_discharging.py:177 | `f"{n:02}"` is at least two digits |
| RangeText.Pad2Value | smart_day_discharging.py:177 | the digits of `f"{n:02}"` read back as `n` |
| RangeText.ParsePadded | smart_day_discharging.py:234 | `int()` reads a padded hour back, also after the leading blank of `", "` |
| RangeText.FormattersDiffer | smart_night_charging.py:179-183 | the night format equals the day format of smart_day_discharging.py:177 iff the run has more than one hour; a lone hour is `HH:00` there |
| RangeText.SplitJoin | smart_day_discharging.py:234 | `split(',')` of a joined list of comma-free pieces gives one field per piece, with the separator's text around it |
| RangeText.DayTextRoundTrip | smart_day_discharging.py:168-179 | splitting the range text, followed by any comma-free tail, at ',' and then at ':' gives the first hour of every run |
| RangeText.NightTextRoundTrip | smart_night_charging.py:158-185 | the same read-back for the text of `format_selected_hours` |
| RangeText.DayStateRoundTrip | smart_day_discharging.py:231-234 | the parse in `start_discharging` of the published state `"<ranges> \| Mean: <mean>"` gives exactly the first hour of every run |
| RangeText.NightStateRoundTrip | smart_night_charging.py:129-131 | the night charging state parses the same way, to the first hour of every run |
| RangeText.CheapStateRoundTrip | smart_cheap_night_charging.py:70-79 | the cheap charging state parses back to every selected hour, in order |
| RangeText.HourTexts | smart_cheap_night_charging.py:70 | one `HH:00` text per hour |
| RangeText.WordDoesNotParse | smart_day_discharging.py:234 | a comma-free text that starts with a letter gives no hour list: `int()` rejects its first field |
| RangeText.SplitIntoRanges | smart_day_discharging.py:168-179 | the loop builds exactly the day range text of the runs of the hours |
| RangeText.FormatRange | smart_night_charging.py:179-183 | one iteration writes `HH:00` for a lone hour and `HH:00-HH:00` for a longer run |
| RangeText.FormatSelectedHours | smart_night_charging.py:158-185 | the two loops build exactly the night range text, "No valid charging hours" for no hours |
| Actuator.IssuedBy | smart_day_discharging.py:260-268 | a write of a chain has been issued t seconds in iff its `run_in` delay is at most t |
| Actuator.StateAtPair | smart_day_discharging.py:260-268 | a `run_in`-delayed write takes effect only at its delay: before the first write nothing has changed, between the two only the first write has taken effect, and from the second on the whole chain |
| Actuator.PerformPair | smart_night_charging.py:294-310 | a chain of one EMS write and one command write leaves the device in that mode with that command, in either order |
| ChargeSchedule.Ranges | smart_night_charging.py:216-232 | `sequential_ranges` holds only runs longer than one hour |
| ChargeSchedule.RangesMembers | smart_night_charging.py:216-232 | every entry of `sequential_ranges` is a run of the list |
| ChargeSchedule.LoneMembers | smart_night_charging.py:216-232 | every hour of `non_sequential_hours` is a one-hour run of the list |
| ChargeSchedule.RunsClassified | smart_night_charging.py:216-232 | each run goes to exactly one of the two lists |
| ChargeSchedule.FileRun | smart_night_charging.py:222-225 | a finished run goes to `sequential_ranges` when longer than one hour, and its hour to `non_sequential_hours` otherwise |
| ChargeSchedule.SplitRuns | smart_night_charging.py:212-232 | the splitting loop yields exactly the longer runs and the lone hours of `Runs(hours)` |
| ChargeSchedule.RangeTriggers | smart_cheap_night_charging.py:156-169 | two triggers per longer run |
| ChargeSchedule.LoneTriggers | smart_cheap_night_charging.py:172-179 | two triggers per lone hour |
| ChargeSchedule.GuardRangesNoDrop | smart_night_charging.py:238-257 | for separated runs whose bounds were not yet scheduled, the guarded loop registers every start and every stop, and records exactly their hours |
| ChargeSchedule.GuardLoneNoDrop | smart_night_charging.py:259-271 | lone hours two or more apart, none scheduled yet, are all registered together with their stops |
| ChargeSchedule.LoneOutsideRanges | smart_night_charging.py:234-271 | no lone hour is a start or stop hour of a longer run |
| ChargeSchedule.GuardKeepsRuns | smart_night_charging.py:234-271 | for separated runs, the guarded scheduler registers the same triggers as the unguarded one |
| ChargeSchedule.GuardNeverDrops | smart_night_charging.py:234-271 | the `scheduled_hours` set never suppresses a trigger for ascending hours |
| ChargeSchedule.RunBoundsListed | smart_night_charging.py:239-257 | each run of ascending hours starts at a selected hour and stops at one that is not selected |
| ChargeSchedule.PlannedChargingSpec | smart_cheap_night_charging.py:125-179 | two triggers per run, all for tomorrow; every run start is registered; each start falls on a selected hour and each stop on an unselected one |
| NightCharging.Mocks | smart_night_charging.py:33-60 | sensor `chosen_k_hours`, for k = 3, 4, 5, lists min(k, known) known night hours in price order (ties by hour); every known night hour left out costs at least as much as each listed one; its state is the mean of the listed prices |
| NightCharging.CheapestBeatsRest | smart_night_charging.py:33-38 | the k cheapest are night hours with their own prices, each cheaper than every night hour left out, or as cheap and earlier |
| NightCharging.CheapestInPriceOrder | smart_night_charging.py:47-59 | the hour lists of those sensors are in price order, ties by hour |
| NightCharging.MeansOrdered | smart_night_charging.py:41-43 | mean_3 <= mean_4 <= mean_5 |
| NightCharging.SortedCheapest | smart_night_charging.py:99-116 | the chosen hours, sorted: ascending, min(k, known night prices) of them, exactly the hours of the k cheapest |
| NightCharging.DayTopProperties | smart_night_charging.py:63-65 | with seven day prices or more, the top seven are seven day hours with their own prices, each at least as dear as every day hour left out |
| NightCharging.RuleSize | smart_night_charging.py:99-107 | five hours iff mean_5 - mean_3 <= 10; four iff not that and mean_4 - mean_3 <= 5; three otherwise |
| NightCharging.Decide | smart_night_charging.py:24-156 | nothing with fewer than 7 prices; "unknown" with 7 to 13; otherwise the difference is the top-seven day mean minus mean_3, and the update stops at the gate iff it is below 40 |
| NightCharging.Selection | smart_night_charging.py:97-119 | past the gate the update validates or charges, carrying the difference |
| NightCharging.NeverRejected | smart_night_charging.py:110-113 | the validation never rejects: some night hour is always chosen and every chosen hour is in 0..6 |
| NightCharging.ChargeProperties | smart_night_charging.py:97-119 | charged hours follow a difference of at least 40; they are the rule's prefix of the cheapest, sorted ascending, with its mean |
| NightCharging.ChargeHoursAtNight | smart_night_charging.py:116-150 | at least one hour is charged and all lie in 0..6, so no trigger reaches hour 24 |
| NightCharging.ChargePower | smart_night_charging.py:187-203 | the power is 6200, 4700 or 3800 W for the three, four or five hours the rule picks, when that many night prices exist |
| NightCharging.ShortListOutputs | smart_night_charging.py:24-27 | fewer than seven prices: no sensor, inverter write or trigger |
| NightCharging.NoDayOutputs | smart_night_charging.py:152-155 | fewer than seven day prices: both sensors "unknown", nothing written or scheduled |
| NightCharging.DayGateOutputs | smart_night_charging.py:63-76 | the comparison sensor holds the difference, and the gate stops the update iff it is below 40 |
| NightCharging.TooLowOutputs | smart_night_charging.py:76-89 | below 40: "Price difference too low", command Stop, no trigger |
| NightCharging.ScheduleSequentialCharging | smart_night_charging.py:207-271 | the scheduler registers exactly the guarded triggers of the hours |
| NightCharging.ScheduleRanges | smart_night_charging.py:235-257 | the loop over `sequential_ranges` with its `scheduled_hours` checks |
| NightCharging.ScheduleLone | smart_night_charging.py:259-271 | the loop over `non_sequential_hours`, continuing from the first loop's set |
| NightCharging.TriggersMatchCallbacks | smart_night_charging.py:238-283 | every trigger is for tomorrow; each start falls on a selected hour, so `start_charging` passes its check; each stop falls on an unselected hour; every run gets a start |
| NightCharging.ChargeChains | smart_night_charging.py:275-310 | the charge chain is in time order and leaves Forced mode with Forced charge; the stop only sets the command to Stop |
| NightCharging.SmartNightCharging.constructor | smart_night_charging.py:5-18 | the app starts with no selected hours |
| NightCharging.SmartNightCharging.UpdateChargingHours | smart_night_charging.py:20-156 | the update's outcome, writes and triggers are those of `Decide`; `selected_hours` is replaced exactly when hours are charged |
| NightCharging.SmartNightCharging.StartCharging | smart_night_charging.py:275-283 | the charge chain when the current hour is selected, nothing otherwise |
| CheapNightCharging.BatteryLevel | smart_cheap_night_charging.py:47-52 | a number reads as itself; text that `float` rejects reads as 100 |
| CheapNightCharging.UnreadableBatteryBlocks | smart_cheap_night_charging.py:50-55 | an unreadable battery state never lets charging through |
| CheapNightCharging.Decide | smart_cheap_night_charging.py:23-107 | "unknown" iff fewer than 7 prices; "Battery above 90%" iff the level is at least 90; "Price too high" iff below 90 and mean_5 >= 10; charging otherwise |
| CheapNightCharging.ChargeProperties | smart_cheap_night_charging.py:54-67 | the charged hours are the five cheapest known night hours (fewer if fewer are known), ascending, after both gates; their mean is below 10 |
| CheapNightCharging.ChargeHoursAtNight | smart_cheap_night_charging.py:59-64 | at least one hour is charged and all lie in 0..6 |
| CheapNightCharging.CheapMaxChargingPower | smart_cheap_night_charging.py:110-115 | 3800 W iff the count is five, and the 4000 W fallback iff it is not |
| CheapNightCharging.UpdateWritesPower | smart_cheap_night_charging.py:93-107 | a charge always writes 3800 W, since the count passed is the literal 5; no other outcome writes to the inverter, not even a stop |
| CheapNightCharging.SelectedStateLists | smart_cheap_night_charging.py:70-79 | the published hour list reads back as exactly the charged hours |
| CheapNightCharging.TriggersMatchCallbacks | smart_cheap_night_charging.py:156-189 | each start trigger falls on a charged hour, each stop on an uncharged one, and every run gets a start |
| CheapNightCharging.ScheduleSequentialCharging | smart_cheap_night_charging.py:125-179 | the unguarded scheduler registers exactly the planned triggers |
| CheapNightCharging.ScheduleRanges | smart_cheap_night_charging.py:156-169 | the loop over `sequential_ranges` registers a start and a stop per run |
| CheapNightCharging.ScheduleLone | smart_cheap_night_charging.py:172-179 | the loop over `non_sequential_hours` registers a start and a stop per hour |
| CheapNightCharging.SmartCheapNightCharging.constructor | smart_cheap_night_charging.py:5-17 | the app starts with no selected hours |
| CheapNightCharging.SmartCheapNightCharging.UpdateChargingHours | smart_cheap_night_charging.py:19-108 | the outcome, writes and triggers are those of `Decide`; `selected_hours` is replaced exactly when hours are charged |
| CheapNightCharging.SmartCheapNightCharging.StartCharging | smart_cheap_night_charging.py:181-189 | the charge chain when the current hour is selected, nothing otherwise |
| NightSensors.Decide | smart_night_charging_sensors.py:27-144 | "unknown" iff fewer than 7 prices; "Price difference too low" iff the difference is below 40; the difference is carried otherwise |
| NightSensors.SelectedProperties | smart_night_charging_sensors.py:101-114 | the published hours are the rule's prefix of the cheapest, sorted, with its mean, after a difference of at least 40 |
| NightSensors.ShortDayMean | smart_night_charging_sensors.py:66-70 | with at most seven day prices, the day total is still divided by seven |
| NightSensors.NoDayPrices | smart_night_charging_sensors.py:66-71 | with only the seven night prices, the difference is minus mean_3 |
| NightSensors.MockOutputs | smart_night_charging_sensors.py:30-76 | fewer than seven prices: both outputs "unknown" and no mock sensor; otherwise each mock k (3, 4, 5) lists min(k, known) known night hours in price order, none dearer than a night hour left out, with the mean of their prices; the comparison holds the difference |
| NightSensors.MockHoursInPriceOrder | smart_night_charging_sensors.py:49-63 | the mock hour lists are in price order with their own prices, not in hour order |
| NightSensors.SelectedStateRoundTrip | smart_night_charging_sensors.py:117-131 | the published state reads back as the first hour of every run |
| DayDischarging.FirstMinIndex | smart_day_discharging.py:42 | `min` returns a lowest price, and no earlier entry has it |
| DayDischarging.ThirdDearestBounds | smart_day_discharging.py:58-65 | the third dearest is an entry of the list, not one of the two dearest; those cost at least as much, and all others at most as much |
| DayDischarging.CheapestMidday | smart_day_discharging.py:42-46 | the cheapest midday hour lies in 10..16 |
| DayDischarging.CheapestMiddayFirst | smart_day_discharging.py:41-46 | it is the first minimum of hours 10-16: no midday hour is cheaper, and every earlier one is dearer |
| DayDischarging.GateNeverUnreadable | smart_day_discharging.py:50-81 | with a full day, the morning has at least 4 prices and the evening at least 6, so none of the gate's error returns can happen |
| DayDischarging.Reference | smart_day_discharging.py:116-121 | the mean of the last charge when it is a non-zero number; otherwise `mock_chosen_3_hours`, or 0 |
| DayDischarging.Qualifiers | smart_day_discharging.py:126-129 | each selected entry is a present price at its own hour, at least 40 above the reference |
| DayDischarging.QualifiersComplete | smart_day_discharging.py:126-129 | every present price at least 40 above the reference is selected |
| DayDischarging.QualifiersIncreasing | smart_day_discharging.py:126-129 | the selected entries come in hour order |
| DayDischarging.SelectQualifying | smart_day_discharging.py:126-129 | the loop builds exactly the qualifiers |
| DayDischarging.Decide | smart_day_discharging.py:27-30 | "unknown" and nothing else iff the list does not hold 24 prices |
| DayDischarging.DynamicGate | smart_day_discharging.py:41-108 | on a full day the midday window is never empty and both windows around its cheapest hour hold three prices or more; the update ends in "Dynamic discharging" iff both third-dearest prices are more than 40 above the cheapest midday price, and then the prices sensor stays "unknown" and nothing is scheduled; otherwise the hours are chosen against the reference, or its read raises |
| DayDischarging.ReferenceRaisedWhen | smart_day_discharging.py:116-121 | past the gate, the update raises iff `float(x or 0)` rejects the mean sensor, or rejects `sensor.mock_chosen_3_hours` when the mean reads 0; both outputs then keep the "unknown" written first, and nothing is scheduled |
| DayDischarging.DecideNeverGateError | smart_day_discharging.py:42-81 | a readable full day never ends in a gate error |
| DayDischarging.KeptProperties | smart_day_discharging.py:132-135 | at most seven qualifiers are kept, no two of one hour, each dearer than every qualifier left out (or as dear and earlier); fewer than seven means none was left out |
| DayDischarging.QualifyingEntry | smart_day_discharging.py:128 | a qualifying hour's entry is among the qualifiers |
| DayDischarging.KeptHours | smart_day_discharging.py:139-142 | the reported hours increase, each qualifies, a qualifying hour left out is cheaper than every reported one, and below seven every qualifying hour is reported |
| DayDischarging.KeptMean | smart_day_discharging.py:149 | the mean of the kept prices is at least the reference plus 40 |
| DayDischarging.SelectedHoursProperties | smart_day_discharging.py:112-160 | a selection holds 1 to 7 increasing hours, each qualifying, the cheapest left out, all of them when fewer than seven; the mean is at least the reference plus 40 |
| DayDischarging.DischargeTriggers | smart_day_discharging.py:209-221 | two triggers per run |
| DayDischarging.DischargeTriggersAt | smart_day_discharging.py:209-221 | run i starts at its first hour and stops at `(last + 1) % 24` |
| DayDischarging.ScheduleDischarging | smart_day_discharging.py:200-221 | the loop registers exactly those triggers for the runs of the hours |
| DayDischarging.TriggersNoWrap | smart_day_discharging.py:219 | for runs ending by 22 the `% 24` never wraps |
| DayDischarging.SeparatedTriggers | smart_day_discharging.py:209-221 | for separated runs the triggers come in strictly increasing hour order |
| DayDischarging.SeparatedPlan | smart_day_discharging.py:209-221 | separated runs of the hours start at selected hours and stop at unselected ones, in increasing order |
| DayDischarging.DischargePlan | smart_day_discharging.py:200-221 | for increasing hours up to 22, each run starts at a selected hour and stops at the next, unselected hour, in strictly increasing order |
| DayDischarging.UpdateDischargingHours | smart_day_discharging.py:20-165 | the outcome is that of `Decide`, and the triggers are those of `schedule_discharging` for a selection and none otherwise |
| DayDischarging.SelectDischargingHours | smart_day_discharging.py:112-165 | select, keep the seven dearest, report and schedule, for a given reference |
| DayDischarging.DischargeChains | smart_day_discharging.py:260-286 | both chains are in time order and set command Stop at once, the EMS mode following after 2 s; start leaves Self-consumption with Stop, stop leaves Forced mode with Stop |
| DayDischarging.StartGuardAcceptsRunStarts | smart_day_discharging.py:226-257 | the published state parses, and the start guard passes exactly at the first hour of a run |
| DayDischarging.SelectedStateText | smart_day_discharging.py:152 | the state of a selection is the range text followed by the mean |
| DayDischarging.StartGuardParsed | smart_day_discharging.py:231-253 | on a state that parses, the start chain runs iff the hour is among the parsed hours |
| DayDischarging.OtherStatesRaise | smart_day_discharging.py:231-234 | every other state the update publishes ("unknown", "Dynamic discharging", "No suitable hours found") makes `int()` raise in `start_discharging`, so a start trigger on it writes nothing |
| DayDischarging.StartTriggersFire | smart_day_discharging.py:214-253 | every start trigger of a selection fires the start chain |
| ExtraNightDischarging.NightReferenceCheapestPair | extra_night_discharging.py:33-36 | the reference is the mean of two different hours of 0-5, and no two different hours average less |
| ExtraNightDischarging.CheapestPairBelow | extra_night_discharging.py:35-36 | in a list ranked cheapest first, the first two sum to no more than any two different entries |
| ExtraNightDischarging.Check | extra_night_discharging.py:20-60 | unparsable price or level first, too few prices next; discharge iff the level is above 1% and the difference reaches 50; a low battery is the reason given before a small difference |
| ExtraNightDischarging.EndOfHour | extra_night_discharging.py:113-116 | the stop time is a top of the hour, after now and within an hour |
| ExtraNightDischarging.EndOfHourFirst | extra_night_discharging.py:113-116 | it is the first top of the hour after now |
| ExtraNightDischarging.CheckActions | extra_night_discharging.py:45-48 | only a started discharge writes or schedules anything; its stop is at the next top of the hour |
| ExtraNightDischarging.DischargeChains | extra_night_discharging.py:62-103 | both chains are in time order; the start touches nothing for 8 s, sets Self-consumption, and sets command Stop at 10 s; the stop sets Forced mode at once and command Stop at 2 s |
| DischargeMonitor.ReferenceFallback | battery_discharge_monitor.py:35-39 | the fallback is taken only for a missing, "unavailable" or "unknown" state; other text is kept and then fails to parse |
| DischargeMonitor.Check | battery_discharge_monitor.py:25-55 | an unparsable price ends the check, then an unparsable reference; the stop path is taken iff the difference is below 40 |
| DischargeMonitor.MonitorNeverStops | battery_discharge_monitor.py:55-58 | as written no check writes to the inverter, and a difference below 40 ends in an exception |
| DischargeMonitor.MonitorStops | battery_discharge_monitor.py:55-67 | repaired, the inverter is written iff the difference is below 40, with no exception; the command is Stop at once and the EMS mode turns Forced at 10 s |
| ChargingApp.ChargingChains | battery_charging_app.py:40-59 | the start leaves Forced mode with Forced charge; the stop then leaves Forced mode with Stop |
| ChargingApp.FirstEnd | battery_charging_app.py:61-77 | the polls end at the first reading that is not a level below 5% (a level at 5% or above, or a text `float()` rejects), every earlier reading being below 5%; they never end iff every reading is below 5% |
| ChargingApp.FirstEndAt | battery_charging_app.py:61-77 | that reading is found where every earlier reading is below 5% |
| ChargingApp.PollsLeaveCharging | battery_charging_app.py:36-77 | after the 03:00 start and its polls the EMS mode stays Forced; the command is Stop iff a poll reads 5% or above before any read fails, and Forced charge stays on iff no poll has ended or a read failed |
| ChargingApp.BatteryChargingApp.constructor | battery_charging_app.py:8-17 | both flags start false |
| ChargingApp.BatteryChargingApp.CheckBatteryLevel | battery_charging_app.py:19-38 | it raises iff `float()` rejects the battery state; below 5% it starts charging, sets both flags and arms a poll in 60 s; otherwise nothing changes |
| ChargingApp.BatteryChargingApp.MonitorBatteryLevel | battery_charging_app.py:61-77 | a failed read raises and changes nothing, so no further poll; at or above 5% it stops the charge and ends monitoring if the app started it; below 5% it re-arms the poll; the started flag is never cleared, and monitoring only follows a charge the app started |
| ChargingApp.BatteryChargingApp.Poll | battery_charging_app.py:61-77 | the polls run up to the first reading that is not below 5%; a level at 5% or above writes the only Stop and ends monitoring, a failed read raises with monitoring still on |
| SocManager.AdjustSoc | dynamic_soc_manager.py:17-61 | nothing iff the price does not parse; otherwise limits with 1 <= min < max <= 100 |
| SocManager.SocRule | dynamic_soc_manager.py:31-61 | Sunday gives 1-100; other days give 5-98 iff the difference is at most 75, and 1-99 iff it is above 75 |
| SocManager.SocWidensWithDifference | dynamic_soc_manager.py:44-61 | on one weekday a larger difference never narrows the range |
| NordpoolMeans.BottomThree | nordpool_mean_low_vs_high_price_today.py:28 | three entries when hours 0-5 are all present |
| NordpoolMeans.TopSeven | nordpool_mean_low_vs_high_price_today.py:29 | min(7, n) entries when all prices are present |
| NordpoolMeans.LowVsHigh | nordpool_mean_low_vs_high_price_today.py:20-64 | "unknown" with the raw list iff fewer than 6 prices; otherwise three and min(7, n) prices, and the difference is the top mean minus the bottom mean |
| NordpoolMeans.BottomThreeCheapest | nordpool_mean_low_vs_high_price_today.py:28 | the bottom three are hours 0-5 with their own prices, each at most every hour of 0-5 left out |
| NordpoolMeans.TopSevenDearest | nordpool_mean_low_vs_high_price_today.py:29 | the top seven are hours of the day with their own prices, each at least every hour left out |
| NordpoolMeans.LowVsHighLists | nordpool_mean_low_vs_high_price_today.py:28-36 | the published lists are the prices of the two selections; the means are their sums over 3 and over their length |
| NordpoolMeans.BottomMeanBelowRest | nordpool_mean_low_vs_high_price_today.py:28-32 | the bottom mean is at most every price of 0-5 left out |
| NordpoolMeans.TopMeanAboveRest | nordpool_mean_low_vs_high_price_today.py:29-33 | the top mean is at least every price of the day left out |
| NordpoolMeans.LowVsHighCanBeNegative | nordpool_mean_low_vs_high_price_today.py:29-36 | with seven prices the top seven include the cheap hour, so six at p and one at q < p give (q - p) / 7 < 0 |
| NordpoolMeans.TopSevenOfAll | nordpool_mean_low_vs_high_price_today.py:29 | with seven prices, the top seven sum to the whole day |
| NordpoolMeans.TodayTopFive | nordpool_mean_high_today_vs_low_tomorrow.py:26-32 | five entries when hours 14-23 are present |
| NordpoolMeans.TomorrowBottomFive | nordpool_mean_high_today_vs_low_tomorrow.py:29-35 | five entries when hours 0-5 are present |
| NordpoolMeans.HighTodayVsLowTomorrow | nordpool_mean_high_today_vs_low_tomorrow.py:18-53 | "unknown" with both raw lists iff fewer than 24 prices today or 6 tomorrow; otherwise five and five prices, and the difference is the today mean minus the tomorrow mean |
| NordpoolMeans.ResetAndCalculation | nordpool_mean_high_today_vs_low_tomorrow.py:42-63 | the reset publishes "unknown" with null means and empty lists; a calculation is a number iff there is enough data; the two "unknown" cases differ in their error text |
| NordpoolMeans.HighLowPublished | nordpool_mean_high_today_vs_low_tomorrow.py:31-47 | the published lists are the prices of the two selections, each mean their sum over 5 |
| NordpoolMeans.TodayTopFiveDearest | nordpool_mean_high_today_vs_low_tomorrow.py:26-32 | the five of today are hours 14-23 with their own prices, each at least every hour left out |
| NordpoolMeans.TomorrowBottomFiveCheapest | nordpool_mean_high_today_vs_low_tomorrow.py:29-35 | the five of tomorrow are hours 0-5 with their own prices, each at most every hour left out |
| NordpoolMeans.TomorrowRanked | nordpool_mean_high_today_vs_low_tomorrow.py:35 | hours 0-5 ranked cheapest first: six distinct hours, and the bottom five are the first five |
| NordpoolMeans.TomorrowLeavesOutDearest | nordpool_mean_high_today_vs_low_tomorrow.py:35 | one hour of 0-5 is left out, and it is at least as dear as every hour of 0-5 |
| NordpoolMeans.TomorrowLeavesOutOne | nordpool_mean_high_today_vs_low_tomorrow.py:35 | only one hour is left out: every other hour of 0-5 is among the five |

Definitions without a row. These functions only compute, with no contract
of their own. The rows named state what they mean:

- `DayDischarging.MiddayGate` (smart_day_discharging.py:41-108): by
  `DynamicGate` and `GateNeverUnreadable`.
- `DayDischarging.SelectedHoursState` and `DayDischarging.PricesState`
  (smart_day_discharging.py:23-24, 107, 152-165): by `DynamicGate`,
  `ReferenceRaisedWhen` and `SelectedStateText`.
- `DayDischarging.ScheduledFor` (smart_day_discharging.py:200-221): by
  `UpdateDischargingHours`.
- `DayDischarging.StartDischarging` (smart_day_discharging.py:226-257): by
  `StartGuardParsed`, `StartTriggersFire` and `OtherStatesRaise`.
- `DayDischarging.StartDischargingWrites` and
  `DayDischarging.StopDischargingWrites` (smart_day_discharging.py:260-286):
  by `DayDischarging.DischargeChains`.
- `NightCharging.MaxChargingPower` (smart_night_charging.py:187-203): by
  `ChargePower`.
- `NightCharging.SelectedHoursState`, `NightCharging.PricesState`,
  `NightCharging.UpdateWrites` and `NightCharging.UpdateTriggers`
  (smart_night_charging.py:63-156): by `ShortListOutputs`, `NoDayOutputs`,
  `DayGateOutputs`, `TooLowOutputs`, `ChargeChains`, `TriggersMatchCallbacks`
  and `SmartNightCharging.UpdateChargingHours`.
- `CheapNightCharging.SelectedHoursState`, `CheapNightCharging.PricesState`,
  `CheapNightCharging.UpdateWrites` and `CheapNightCharging.UpdateTriggers`
  (smart_cheap_night_charging.py:70-107): by `SelectedStateLists`,
  `UpdateWritesPower`, `TriggersMatchCallbacks` and
  `SmartCheapNightCharging.UpdateChargingHours`.
- `NightSensors.SelectedHoursState` and `NightSensors.PricesState`
  (smart_night_charging_sensors.py:117-143): by `MockOutputs` and
  `SelectedStateRoundTrip`.
- `ChargeSchedule.GuardedCharging`, `ChargeSchedule.GuardRanges` and
  `ChargeSchedule.GuardLone` (smart_night_charging.py:234-271): by
  `GuardNeverDrops`, `GuardKeepsRuns`, `GuardRangesNoDrop` and
  `GuardLoneNoDrop`.
- `ChargeSchedule.PlannedCharging` (smart_cheap_night_charging.py:125-179):
  by `PlannedChargingSpec`.
- `RangeText.DayRangeText` (smart_day_discharging.py:168-179): by
  `SplitIntoRanges` and `DayTextRoundTrip`.
- `RangeText.NightRangeText` (smart_night_charging.py:158-185): by
  `FormatSelectedHours` and `NightTextRoundTrip`.
- `RangeText.ParseStartHours` (smart_day_discharging.py:234): by
  `DayStateRoundTrip`, `NightStateRoundTrip`, `CheapStateRoundTrip` and
  `WordDoesNotParse`.
- `ExtraNightDischarging.NightReference` (extra_night_discharging.py:33-36):
  by `NightReferenceCheapestPair`.
- `ExtraNightDischarging.StartDischargingWrites` and
  `ExtraNightDischarging.StopDischargingWrites`
  (extra_night_discharging.py:62-103): by
  `ExtraNightDischarging.DischargeChains`.
- `DischargeMonitor.ReferenceReading` (battery_discharge_monitor.py:35-39):
  by `ReferenceFallback`.
- `DischargeMonitor.MonitorEffectAsWritten` and
  `DischargeMonitor.MonitorEffect` (battery_discharge_monitor.py:55-67): by
  `MonitorNeverStops` and `MonitorStops`.
- `Actuator.Perform` and `Actuator.StateAt`: by `PerformPair`, `StateAtPair`
  and the chain rows of each script (`ChargeChains`, `ChargingChains`,
  `DischargeChains`, `MonitorStops`).

## Left out

- Host plumbing: `initialize`, `run_daily`, `listen_state`, the logbook and
  log calls, and the entity names. This is not computation. The model starts
  from the callbacks the scheduler would run.
- Dates, time zones and daylight saving. Triggers carry the day and hour only.
  Each clock read is a parameter: the weekday, the current hour, and the
  seconds since midnight.
- Floating point. Prices are exact reals, with no NaN or infinity. Any
  rendering for `:.2f` is a parameter. So are the mojibake unit suffix
  `" Ã–re/kWh"` of nordpool_mean_low_vs_high_price_tomorrow.py:46 and the
  two-decimal texts of the attributes of that script's lists.
- Uncaught exceptions: some crash paths are excluded by each script's
  `Runnable` predicate and are not modelled as outcomes. These are a `None`
  in a slice that `sorted`, `min` or `sum` reads, a division by an empty
  `len`, and `float(None)` where only `ValueError` is caught. Three raising
  paths are outcomes instead, with the writes made before the raise:
  - the `ValueError` of `float(x or 0)` at smart_day_discharging.py:116-120
    (`DayDischarging.ReferenceRaised`);
  - the `int()` of smart_day_discharging.py:234 (`StartDischarging` gives no
    writes);
  - the `float()` of battery_charging_app.py:38 (the `raised` result of the
    charging safeguard's methods).
- Sensor attributes. The model keeps those that carry computed values: the
  hour lists, the means and the error texts. It drops the dictionaries that
  only restate these, for example `price_difference` beside "Price difference
  too low".
- nordpool_calculations.py only logs, so it is not part of this model.
- NightCharging.SmartNightCharging.constructor: the script never sets
  `selected_hours` in `initialize`. A `start_charging` before the first
  charge would raise `AttributeError`. The model starts from an empty list:
  no charge, and no write.
- CheapNightCharging.SmartCheapNightCharging.constructor: the same holds for
  smart_cheap_night_charging.py.
- NightSensors.Decide: smart_night_charging_sensors.py:92 calls
  `self.stop_charging`, which that class lacks. The callback raises after the
  "Price difference too low" state is written. The model publishes that state
  and writes nothing to the inverter.
- ChargingApp.BatteryChargingApp.Poll: the 60 s between polls and the real
  time of each one are not modelled, only their order. The script writes
  `monitoring` but never reads it, and a failed read leaves it on.
- DayDischarging.Decide: its own contract states only the no-data case. The
  other outcomes are stated by `DynamicGate` (the "Dynamic discharging"
  gate), `ReferenceRaisedWhen` (the failed reference read),
  `SelectedHoursProperties` (a selection), `DecideNeverGateError` and
  `UpdateDischargingHours`.
- NightCharging.DayTopProperties: `sorted(prices[7:], reverse=True)` sorts
  bare prices. The model sorts `(hour, price)` entries by price. The seven
  prices it keeps, and so their sum, are the same.
- NordpoolMeans.HighTodayVsLowTomorrow: the raw `today_prices` and
  `tomorrow_prices` attributes of the "unknown" state are carried as price
  lists. That script has no prices that `sorted` meets as `None`.

## Findings

| source | as written | input that shows it | evidently intended | confidence | as-written member | corrected member |
|---|---|---|---|---|---|---|
| battery_discharge_monitor.py:57-58 | the stop path reads `self.output_selected_hours`, which the class never sets, so it raises `AttributeError` before the state is written or the inverter is touched. `stop_discharging` would be called without its `kwargs` argument as well. | current price 50, `mock_selected_charging_hours_prices` 20: the difference 30 is below 40 | publish "Price difference too low" and run `stop_discharging`: command Stop now, EMS Forced after 10 s | not executed | DischargeMonitor.MonitorNeverStops | DischargeMonitor.MonitorStops |
