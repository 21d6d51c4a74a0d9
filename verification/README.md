# consmodel battery and tariff core, in Dafny

A Dafny model of the battery-storage simulator of `consmodel`. It also
covers the tariff-block classifier, the time-grid helpers and the storage
presets.

- **Battery** (`storage.dfy`). The battery is an immutable record. Every
  Python setter that validates a value becomes a function that returns the
  next record or the error the setter would raise. Charge and discharge
  either store the requested energy or clamp at full or empty. A clamp
  raises a warning in Python; here it sets a `clamped` flag.
- **Two battery classes**. Class `BS` of `consmodel/bs_sim.py` and its older
  copy, class `Battery` of `consmodel/bs_model.py`, are one model. An
  `Engine` parameter captures the three places where they differ:
  - the division by a zero step when the charge clamps;
  - whether a capacity of zero is accepted;
  - whether the constructor validates the discharge rating.
- **Control strategies** (`control.dfy`). The three strategies of `model`
  are production saving, installed power and five-tariff manoeuvring. Each
  is a step function from the battery and one load sample to the next
  battery and the `battery_plus` / `battery_minus` columns. A run folds the
  step over the samples. Before its loop, installed-power control searches
  for its limit, rounds it to a tenth and hard-resets the battery.
  `simulate` is a hard reset followed by `model`.
- **Limit search** (`peak_limit.dfy`). `is_p_limit_posible` is a trial over
  the load series that threads the battery state from trial to trial.
  `get_min_p_lim` is the bracket and scipy's `bisect` over such trials. The
  bisection takes the trial as a function of battery and limit, as `bisect`
  takes its function.
- **Tariff blocks** (`tariffs.dfy`). The classifier maps a stamp to one of
  the five blocks of the Slovenian network tariff and builds the 5 x n
  block mask.
- **Time grid** (`time_grid.dfy`). Covers frequency parsing, snapping a
  range to the grid, the default yearly range, and model identity.
- **Calendar** (`calendar.dfy`). Timestamps are whole minutes since
  0001-01-01 00:00 in the proleptic Gregorian calendar, which is how Python
  counts dates. Day, hour, minute, weekday and calendar date are computed
  from that count.
- **Presets** (`storage_types.dfy`). The preset table of
  `consmodel/utils/st_types.py`, reproduced as written.
- **Scenarios** (`scenarios.dfy`). The two battery tests of
  `tests/test_bs_sim.py`, proved as exact traces. The installed-power test
  includes the search, which settles on 2.984375 kW, rounded to 3.0 kW.

Energies are reals. The tests' quantities are multiples of 0.25, so their
arithmetic is exact.

Where the code and its documentation disagree, the model follows the code:

- `soft_reset` restores `max_e_kwh * soc`. The soc is the current one, not
  the one the battery was built with. Every charge and discharge overwrites
  it, so a soft reset after one keeps the energy where it is.
- There is no block power optimiser and no peak-shifting strategy in the
  code; only the three control types above exist.

## Model

| member | source | states |
|---|---|---|
| StorageTypes.StandardTypes | consmodel/utils/st_types.py:105-109 | the standard types are the eight table keys, in declaration order |
| StorageTypes.Lookup | consmodel/utils/st_types.py:72-79 | a storage type is found exactly when its key is one of the standard types (KeyError otherwise); the preset carries its key as name, equal positive charge and discharge ratings, and a float capacity unless it is "20kWh_5kW" |
| StorageTypes.PresetsWellFormed | consmodel/utils/st_types.py:22-71 | every entry is stored under its own name, has equal positive ratings and a positive capacity, and only "20kWh_5kW" writes its capacity as an integer |
| StorageTypes.KeysDistinct | consmodel/utils/st_types.py:22-71 | no key is declared twice |
| StorageTypes.DefaultPreset | consmodel/utils/st_types.py:22-79 | the default storage type is tesla_powerwall: 5 kW both ways, 13.5 kWh |
| StorageTypes.TenKilowattHourFiveKilowattPreset | consmodel/utils/st_types.py:47-52 | "10kWh_5kW" is 5 kW both ways with 10 kWh |
| StorageTypes.TwentyKilowattHourFiveKilowattPreset | consmodel/utils/st_types.py:53-58 | "20kWh_5kW" has 5 kW ratings and the integer capacity 20 |
| StorageTypes.TwentyKilowattHourTenKilowattPreset | consmodel/utils/st_types.py:59-64 | "20kWh_10kW" has 10 kW ratings and a 2.0 kWh capacity, as written |
| TimeGrid.FreqMinutes | consmodel/base_model.py:142-152 | parsing succeeds exactly for "10min", "15min", "30min", "60min" and fails with the frequency error otherwise; the result is a grid step whose name is the input |
| TimeGrid.FreqRoundTrip | consmodel/base_model.py:142-152 | parsing the name of a grid step gives the step back |
| TimeGrid.MinuteRemainder | consmodel/base_model.py:166-170 | testing the minute of the hour against the step is the same as testing the stamp itself |
| TimeGrid.RoundStart | consmodel/base_model.py:166-168 | the start moves forward to the first grid point at or after it, by less than one step |
| TimeGrid.RoundEnd | consmodel/base_model.py:169-170 | the end moves back to the last grid point at or before it, by less than one step |
| TimeGrid.RoundingIdempotent | consmodel/base_model.py:166-170 | grid points are left alone, so rounding twice equals rounding once |
| TimeGrid.HandleTimeFormat | consmodel/base_model.py:154-171 | a missing start or end without a year fails; otherwise it succeeds exactly when the effective frequency parses; the result carries that frequency and snaps the given or default range onto its grid |
| TimeGrid.DefaultRangeCoversYear | consmodel/base_model.py:162-163 | the default range runs from 00:15 on 1 January to midnight closing the year, one year less a quarter hour |
| TimeGrid.YearStartDate | consmodel/base_model.py:162-163 | the first day of a year decodes to 1 January of that year |
| TimeGrid.EqualityAgreesWithHash | consmodel/base_model.py:38-42 | two models are equal exactly when their hash keys agree; equality is symmetric and ignores location, time zone and frequency |
| Calendar.DateOfDayRoundTrip | consmodel/utils/tariffsys_utils.py:53-64 | the date the classifier reads from a stamp's day numbers back to that same day, so decoding loses nothing |
| Storage.SetSoc | consmodel/bs_sim.py:138-144 | the soc is accepted exactly within [0, 1], else the soc error; nothing else changes |
| Storage.SetMaxCharge | consmodel/bs_sim.py:146-152 | the charge rating is accepted exactly when it is not negative; nothing else changes |
| Storage.SetMaxDischarge | consmodel/bs_sim.py:154-161 | the discharge rating is accepted exactly when it is not negative; nothing else changes |
| Storage.SetMaxE | consmodel/bs_sim.py:163-169 | class BS accepts exactly positive capacities; class Battery (consmodel/bs_model.py, lines 145-151) also accepts zero; anything else is the capacity error |
| Storage.SetCurrentP | consmodel/bs_sim.py:171-179 | the power is accepted exactly within [-discharge rating, charge rating] |
| Storage.SetCurrentE | consmodel/bs_sim.py:181-188 | the energy is accepted exactly within [0, capacity] |
| Storage.SetFullEnergy | consmodel/bs_sim.py:181-188 | storing the capacity itself as the energy succeeds exactly for a float, non-negative capacity and changes only the energy; an integer capacity is the type error |
| Storage.UpdateSoc | consmodel/bs_sim.py:223 | the soc becomes the stored fraction; a zero capacity divides by zero |
| Storage.Charge | consmodel/bs_sim.py:208-223 | if the energy fits, it is stored exactly and the power recorded, with success exactly when power, energy and capacity pass the setters. Otherwise the battery is filled, the clamp power recorded and the warning flagged. Every success keeps the ratings and leaves the soc equal to the stored fraction. A zero step in the clamp stores power 0 in class BS and fails with a division by zero in class Battery (consmodel/bs_model.py, lines 195-204) |
| Storage.Discharge | consmodel/bs_sim.py:236-247 | if the energy is there, it is taken exactly. Otherwise the battery is emptied and the warning flagged; a zero step then divides by zero in both classes. Success conditions are the same as for Charge |
| Storage.DischargeUndoesCharge | consmodel/bs_sim.py:208-247 | discharging what an unclamped charge stored restores the energy and the soc |
| Storage.DischargeAboveChargeRatingFails | consmodel/bs_sim.py:236-238 | a discharge above the charge rating fails even within the discharge rating, because the power is recorded positive |
| Storage.SoftReset | consmodel/bs_sim.py:445-450 | zero power and energy capacity times current soc; fails exactly when a setter refuses these |
| Storage.SoftResetAfterChargeKeepsEnergy | consmodel/bs_sim.py:445-450 | after a charge, a soft reset only zeroes the power |
| Storage.SoftResetAfterDischargeKeepsEnergy | consmodel/bs_sim.py:445-450 | after a discharge, a soft reset only zeroes the power |
| Storage.HardReset | consmodel/bs_sim.py:452-458 | zero power, full energy, soc 1; succeeds exactly when the ratings are not negative and the capacity is a float; an integer capacity is the type error of the energy setter |
| Storage.HardResetForgetsDynamicState | consmodel/bs_sim.py:452-458 | two batteries with the same ratings reset to the same battery |
| Storage.HardResetIdempotent | consmodel/bs_sim.py:452-458 | a second hard reset changes nothing |
| Storage.HardResetConfigures | consmodel/bs_sim.py:452-458 | a hard reset of valid ratings gives a consistent battery the strategies can run on |
| Storage.ApplyPreset | consmodel/bs_sim.py:486-492 | a preset applies exactly when its key is known and its capacity is a float (TypeError for "20kWh_5kW"); the battery then has the preset's name and ratings and is hard-reset |
| Storage.ChangeBattery | consmodel/bs_sim.py:460-492 | without a storage type: succeeds exactly when the capacity and the ratings pass their setters (the discharge rating defaults to the charge rating); the battery then carries the new ratings and is hard-reset. With a storage type: it applies the preset |
| Storage.ChangeBatteryByType | consmodel/bs_sim.py:494-508 | succeeds exactly for the known keys other than "20kWh_5kW"; the result has the preset's name, equal ratings, and is full with soc 1 |
| Storage.NewBattery | consmodel/bs_sim.py:44-81 | fails for an unknown frequency or storage type, or (class BS) a negative discharge rating. On success it carries the preset's or the given ratings, with discharge defaulting to charge. The energy is capacity times soc, the power 0. The capacity is an integer exactly for the "20kWh_5kW" preset. Class Battery (consmodel/bs_model.py, lines 56-72) does not validate the discharge rating |
| Storage.NewBatteryConfigures | consmodel/bs_sim.py:44-81 | every battery built with a soc in [0, 1] and valid ratings (which presets always have) is consistent and ready to run |
| Tariffs.BlockAt | consmodel/utils/tariffsys_utils.py:52-66 | the block of a stamp, read 15 minutes earlier, lies in 1..5 and equals the hour's band (1 peak, 2 shoulder, 3 night), plus one in the low season, plus one on a work-off day |
| Tariffs.TablesFollowBands | consmodel/utils/tariffsys_utils.py:28-39 | every entry of the four tables is its hour's band plus the season and day offsets |
| Tariffs.HighSeasonWorkOffIsLowSeasonWorking | consmodel/utils/tariffsys_utils.py:31-36 | the high-season work-off table equals the low-season working table |
| Tariffs.BlockOneIsHighSeasonWorkingPeak | consmodel/utils/tariffsys_utils.py:52-66 | block 1 occurs exactly in peak hours of high-season working days |
| Tariffs.BlockFiveIsLowSeasonWorkOffNight | consmodel/utils/tariffsys_utils.py:52-66 | block 5 occurs exactly in night hours of low-season work-off days |
| Tariffs.BlocksOf | consmodel/utils/tariffsys_utils.py:52-66 | the loop reads, for every stamp in order, its block in 1..5 |
| Tariffs.FillMask | consmodel/utils/tariffsys_utils.py:49-69 | starting from zeros, the loop leaves row j marking exactly the positions whose block is j+1 |
| Tariffs.TariffMask | consmodel/utils/tariffsys_utils.py:25-71 | an empty date array fails. Otherwise the mask has 5 rows of n columns; entry (j, i) is 1 exactly when stamp i is in block j+1, so every column sums to 1 |
| Control.SavingStep | consmodel/bs_sim.py:276-310 | consumption only discharges and production only charges; an empty battery under consumption is left alone; ratings never change |
| Control.SavingStepKeeps | consmodel/bs_sim.py:276-310 | on a configured battery the step never raises or clamps, keeps the battery configured, moves exactly the reported energy, and never makes the grid load change sign or grow |
| Control.PeakStep | consmodel/bs_sim.py:315-344 | above the limit it only discharges, at or below it only charges; an empty battery above the limit and a full one below it are left alone |
| Control.PeakStepKeeps | consmodel/bs_sim.py:315-344 | on a configured battery the step never raises or clamps, keeps it configured, moves exactly the reported energy, and leaves the grid load between the load and the limit |
| Control.TariffStep | consmodel/bs_sim.py:346-381 | the columns are the hour's discharge and charge amounts, computed from the battery before the step |
| Control.TariffStepKeeps | consmodel/bs_sim.py:346-381 | on a configured battery the step never raises or clamps, keeps it configured, moves exactly the reported energy, and only charges, discharges or idles as its hour prescribes |
| Control.ScheduleFollowsBands | consmodel/bs_sim.py:348-376 | the schedule discharges exactly in the tariff's peak hours, charges exactly in the night hours and at 14-16 (over 8 hours at night), and idles exactly at 6, 20 and 21 |
| Control.HourShiftOnGrid | consmodel/bs_sim.py:347 | on the 15-minute grid, one minute back and fifteen minutes back fall in the same hour |
| Control.ScheduleDischargesInBlockOne | consmodel/bs_sim.py:355-359 | on a high-season working day the schedule discharges exactly in the quarter hours of tariff block 1 |
| Control.StepOf | consmodel/bs_sim.py:276-381 | the step of each control law keeps the battery's ratings |
| Control.Run | consmodel/bs_sim.py:271-310 | one row per sample, in order, with its time and load; the last row's energy is the final battery's |
| Control.RunFollowsSteps | consmodel/bs_sim.py:271-310 | given the battery before every sample and each step's row, the run yields exactly those rows and the last battery |
| Control.RunKeeps | consmodel/bs_sim.py:276-381 | on a configured battery every run succeeds, stays configured, and every row keeps the energy bounds, conservation, the column signs and its strategy's bound |
| Control.TraceKeepsAt | consmodel/bs_sim.py:276-381 | the bounds a run keeps hold at every row index, from the energy the previous row left |
| Control.RoundTenths | consmodel/bs_sim.py:312 | `round(x, 1)` gives a multiple of a tenth within a twentieth of x, the even one on a tie |
| Control.RoundTenthsNearest | consmodel/bs_sim.py:312 | no multiple of a tenth lies nearer to x than its rounding |
| Control.Setup | consmodel/bs_sim.py:311-314 | production saving and five-tariff start from the battery as it is. Installed power succeeds exactly when the search and the hard reset succeed; it then keeps the rounded search result as its limit and starts from the hard reset of the original battery, whatever the trials left. An empty series fails with the sign error |
| Control.SetupSucceeds | consmodel/bs_sim.py:311-314 | on a configured battery with a float capacity and a discharge rating not above its charge rating, and a non-empty series, the preparation succeeds; installed power starts full, and its limit lies within a twentieth of a final interval that is infeasible at its lower end and feasible at its upper end |
| Control.Model | consmodel/bs_sim.py:249-386 | no series fails. Otherwise it succeeds exactly when the preparation (the limit search and hard reset, for installed power) and the run of the prepared law from the prepared battery succeed. The rows and final battery are that run's; the frame records the law; p_after is the load minus both columns, and var_bat is the energy after each row |
| Control.Simulate | consmodel/bs_sim.py:388-396 | a hard reset, then the model; fails without a series, with negative ratings, with an integer capacity (the type error), and for installed power on an empty series |
| Control.SimulateKeeps | consmodel/bs_sim.py:388-396 | with non-negative ratings, the discharge rating not above the charge rating, a positive float capacity, and a non-empty series for installed power, a simulation succeeds, starts full, keeps every row within the law of its strategy and leaves a configured battery |
| PeakLimit.ProbeStep | consmodel/bs_sim.py:402-430 | a sample stops the trial exactly when its excess over the limit exceeds the rating or the stored energy; otherwise the excess is shaved exactly. On a configured battery whose discharge rating does not exceed its charge rating it never raises, keeps the battery configured, and at or below the limit recharges by the headroom up to the rating and the capacity |
| PeakLimit.TrialFollowsProbes | consmodel/bs_sim.py:398-431 | a trial whose every sample continues is feasible and ends on the battery the last sample left |
| PeakLimit.IsLimitPossible | consmodel/bs_sim.py:398-431 | a trial keeps the ratings; it answers feasible exactly when no sample gets stuck along the states it threads; on a configured battery whose discharge rating does not exceed its charge rating it never raises and leaves the battery configured |
| PeakLimit.FeasibleAtPeak | consmodel/bs_sim.py:398-431 | a limit at or above every load is feasible from any configured state |
| PeakLimit.FeasibleMonotone | consmodel/bs_sim.py:398-431 | a feasible limit stays feasible for every higher limit from every state with at least as much energy, and that trial ends with at least as much energy |
| PeakLimit.InfeasibleBeyondRating | consmodel/bs_sim.py:404-409 | a load exceeding the limit by more than the discharge rating makes the trial infeasible; when no earlier load exceeds the limit, the trial ends with at least the energy it started with |
| PeakLimit.MaxOf | consmodel/bs_sim.py:437 | the peak load bounds every load and is one of them |
| PeakLimit.Bracket | consmodel/bs_sim.py:437-442 | the bracket runs from the peak load less the discharge rating less 1 up to the peak load |
| PeakLimit.BracketChangesSign | consmodel/bs_sim.py:437-442 | on a non-empty series the lower end is infeasible and the upper end, tried from the battery the first trial left, feasible |
| PeakLimit.Bisect | consmodel/bs_sim.py:439-442 | bisection stays inside its interval, halves its width every round and returns one end of the final interval; with a trial function that keeps ratings and configured batteries it never raises |
| PeakLimit.Rounds | consmodel/bs_sim.py:439-442 | the number of rounds `bisect` runs with `xtol=0.05`: the first halving of the width below the tolerance, after at least one round |
| PeakLimit.BisectKeepsVerdicts | consmodel/bs_sim.py:439-442 | when the lower end was tried with one verdict and the upper end with the other, the final interval's ends keep those verdicts, each tried from a configured battery with the same ratings |
| PeakLimit.BisectBrackets | consmodel/bs_sim.py:439-442 | the same bracketing of the change of verdict, with the batteries left implicit |
| PeakLimit.GetMinLimit | consmodel/bs_sim.py:433-443 | the search returns one end of its final interval, which lies inside the bracket and is narrower than the tolerance; an empty series fails with the sign error |
| PeakLimit.GetMinLimitSucceeds | consmodel/bs_sim.py:433-443 | on a configured battery whose discharge rating does not exceed its charge rating, and a non-empty series, the search succeeds; its final interval is infeasible at its lower end and feasible at its upper end, with width (discharge rating + 1) halved per round |
| PeakLimit.SearchBisects | consmodel/bs_sim.py:433-443 | under the same conditions the end trials answer infeasible and feasible, so the search is the bisection of the bracket from the battery the second trial left |
| Scenarios.TestBatteryConstruction | tests/test_bs_sim.py:26-31 | the test's constructor call gives the full 10 kWh / 5 kW battery |
| Scenarios.TestStartIsNewYearMorning | tests/test_bs_sim.py:32-35 | the first stamp is Wednesday 2020-01-01 06:00 |
| Scenarios.BaseTrial | tests/test_bs_sim.py:32-37 | from 7.25 kWh the limit 3.0 kW holds over the test loads and the trial ends with 8.5 kWh |
| Scenarios.TestTrial | tests/test_bs_sim.py:32-37 | on the test loads every limit from 0 up to 3 kW is infeasible and every limit from 3 kW is feasible, from every state with at least 7.25 kWh, and every such trial leaves at least 7.25 kWh |
| Scenarios.ThresholdBisect | tests/test_bs_sim.py:32-37 | bisecting with such a trial is plain bisection against the threshold 3 kW |
| Scenarios.TestSearch | tests/test_bs_sim.py:32-37 | the search on the test loads returns 2.984375 kW, the lower end of its final interval [2.984375, 3.03125] |
| Scenarios.TestLimit | tests/test_bs_sim.py:32-37 | installed power on the test series keeps the limit 3.0 kW and starts from the full test battery |
| Scenarios.PeakTrace | tests/test_bs_sim.py:25-41 | installed power keeps the limit 3.0 kW and gives exactly the test's p_after and var_bat columns |
| Scenarios.SavingTrace | tests/test_bs_sim.py:43-56 | production saving gives exactly the test's p_after and var_bat columns |

## Left out

- PeakLimit.Rounds: scipy's `bisect` also stops when the step falls below `rtol * |x|` (rtol = 4 machine epsilons); that relative term is dropped, and the reals are exact where the source rounds to doubles.
- Python's dynamic types are modelled only for the capacity: the "20kWh_5kW" preset stores the integer 20, which the capacity setter refuses and which the energy setter refuses wherever the capacity itself is stored as the energy (hard reset and the charge clamp). Every other value the modelled paths store is a float.
- TimeGrid.HandleTimeFormat, Storage.ChangeBattery and Storage.Charge: on an error they return the error alone, and the caller keeps its input. The Python methods keep the attribute writes made before raising: `handle_time_format` has already set the frequency (consmodel/base_model.py, lines 155-165), `change_battery` the capacity (consmodel/bs_sim.py, lines 480-485), and `charge` the power (consmodel/bs_sim.py, lines 209-210).
- Public holidays (`holidays.SI`) are a predicate parameter of the tariff classifier, since the holiday calendar is an external library.
- Time zones, the location, the weather download (`get_weather_data`) and the time-zone lookup are I/O and are left out.
- Pandas frames are sequences of samples and rows. `model` writes its columns into the caller's frame; that aliasing is not modelled.
- An unknown control type is not a value of `Control.Strategy`. The source fills no column for it and fails when it assigns the empty `var_bat` list to a non-empty frame.
- Stamps before the year 1 decode by the same arithmetic; Python cannot represent them.
- Storage.NewBattery: class `Battery` of `consmodel/bs_model.py` passes seven arguments to a base constructor that takes eight, so it cannot be constructed as written. The model builds it as if the frequency were passed.
- Storage.NewBattery: a missing discharge rating in class `Battery` defaults to the charge rating. The source stores `None`, which fails at the first comparison.
- PeakLimit.Bracket: the peak of an empty series is taken as 0.0 where pandas gives NaN. Both ends of the bracket are then feasible and the search fails with the sign-change error, as in the source.
- The PV, heat-pump and consumption simulators (`pv_sim.py`, `hp_sim.py`, `cons_sim.py`) are not part of this model.
- Warnings are not emitted. A clamped charge or discharge sets the `clamped` flag of its result instead.
