/** The control strategies of the battery: `model` and `simulate` of
    `consmodel/bs_sim.py` (and their copies in `consmodel/bs_model.py`).

    A strategy is a step function from the battery and one sample of the
    load (kW, positive for consumption) to the next battery and the two
    result columns: `battery_plus`, the power discharged, and
    `battery_minus`, the power charged with its sign flipped. A run folds
    the step over the samples in order. Every step lasts 15 minutes.
 */
module Control {
  import opened Results
  import opened Calendar
  import opened Storage
  import Tariffs
  import PeakLimit

  /** The three values of `control_type`. */
  datatype Strategy = ProductionSaving | InstalledPower | FiveTariff

  /** The rule a run's loop applies to every sample; peak shaving carries the
      power limit (`curr_limit`) it keeps the load under. */
  datatype Law = Saving | Peak(limit: real) | Tariff

  /** One sample of the input frame: its timestamp (the end of its quarter
      hour) and the load. */
  datatype Sample = Sample(time: Stamp, load: real)

  /** One row of the results frame: `p`, `battery_plus`, `battery_minus` and
      `var_bat` (the energy after the step). */
  datatype Row = Row(time: Stamp, load: real, plus: real, minus: real, energy: real)

  /** The `p_after` column: the load the grid sees once the battery acts. */
  function After(row: Row): real {
    row.load - row.plus - row.minus
  }

  /** The outcome of one step; `clamped` stands for a warning raised by the
      charge or discharge it made. */
  datatype Step = Step(bat: Battery, plus: real, minus: real, clamped: bool)

  function Max(a: real, b: real): real {
    if a >= b then a else b
  }

  /** The step moved exactly the energy its columns report. */
  predicate Conserves(b: Battery, st: Step) {
    st.bat.currentE == b.currentE - Dt * (st.plus + st.minus)
  }

  // ---------------------------------------------------------------------
  // production_saving

  /** Consumption is covered from the battery as far as its energy and
      rating allow; production is stored as far as capacity and rating
      allow. */
  function SavingStep(eng: Engine, b: Battery, p: real): (r: Result<Step>)
    ensures r.Ok? ==> SameRatings(b, r.value.bat)
    ensures r.Ok? && p > 0.0 ==> r.value.minus == 0.0
    ensures r.Ok? && p <= 0.0 ==> r.value.plus == 0.0
    ensures r.Ok? && p > 0.0 && b.currentE <= 0.0 ==> r.value.bat == b && r.value.plus == 0.0
  {
    if p > 0.0 then
      if b.currentE > 0.0 then
        var d := if b.currentE - Dt * p > 0.0 then Min(p, b.maxDischarge)
                 else Min(b.maxDischarge, 4.0 * b.currentE);
        var a :- Discharge(eng, b, d, Dt);
        Ok(Step(a.bat, d, 0.0, a.clamped))
      else
        Ok(Step(b, 0.0, 0.0, false))
    else
      var c := if b.currentE - Dt * p < b.maxE then Min(-p, b.maxCharge)
               else Min(4.0 * (b.maxE - b.currentE), b.maxCharge);
      var a :- Charge(eng, b, c, Dt);
      Ok(Step(a.bat, 0.0, -c, a.clamped))
  }

  /** After production saving the grid sees a load of the same sign as
      before, never larger: the battery never turns consumption into
      production or the reverse. */
  predicate WithinSaving(load: real, after: real) {
    if load > 0.0 then 0.0 <= after <= load else load <= after <= 0.0
  }

  lemma SavingStepKeeps(eng: Engine, b: Battery, p: real)
    requires Configured(b) && b.maxDischarge <= b.maxCharge
    ensures SavingStep(eng, b, p).Ok?
    ensures var st := SavingStep(eng, b, p).value;
      && !st.clamped && Configured(st.bat) && Conserves(b, st)
      && st.plus >= 0.0 && st.minus <= 0.0
      && WithinSaving(p, p - st.plus - st.minus)
  {
    if p > 0.0 && b.currentE > 0.0 {
      var d := if b.currentE - Dt * p > 0.0 then Min(p, b.maxDischarge)
               else Min(b.maxDischarge, 4.0 * b.currentE);
      assert b.currentE - d * Dt >= 0.0;
    } else if p <= 0.0 {
      var c := if b.currentE - Dt * p < b.maxE then Min(-p, b.maxCharge)
               else Min(4.0 * (b.maxE - b.currentE), b.maxCharge);
      assert b.currentE + c * Dt <= b.maxE;
    }
  }

  // ---------------------------------------------------------------------
  // installed_power

  /** Above the limit the battery discharges the excess as far as its energy
      and rating allow; at or below it, it charges with the headroom as far
      as capacity and rating allow. */
  function PeakStep(eng: Engine, b: Battery, p: real, limit: real): (r: Result<Step>)
    ensures r.Ok? ==> SameRatings(b, r.value.bat)
    ensures r.Ok? && p > limit ==> r.value.minus == 0.0
    ensures r.Ok? && p <= limit ==> r.value.plus == 0.0
    ensures r.Ok? && p > limit && b.currentE <= 0.0 ==> r.value.bat == b && r.value.plus == 0.0
    ensures r.Ok? && p <= limit && b.currentE >= b.maxE ==> r.value.bat == b && r.value.minus == 0.0
  {
    if p > limit then
      if b.currentE > 0.0 then
        var d0 := Min(p - limit, b.maxDischarge);
        var d := if b.currentE < d0 * Dt then b.currentE * 4.0 else d0;
        var a :- Discharge(eng, b, d, Dt);
        Ok(Step(a.bat, d, 0.0, a.clamped))
      else
        Ok(Step(b, 0.0, 0.0, false))
    else
      if b.currentE < b.maxE then
        var c0 := Min(limit - p, b.maxCharge);
        var c := if b.currentE + c0 * Dt > b.maxE then (b.maxE - b.currentE) * 4.0 else c0;
        var a :- Charge(eng, b, c, Dt);
        Ok(Step(a.bat, 0.0, -c, a.clamped))
      else
        Ok(Step(b, 0.0, 0.0, false))
  }

  /** The grid load lies between the load and the limit. */
  predicate WithinLimit(load: real, after: real, limit: real) {
    Min(load, limit) <= after <= Max(load, limit)
  }

  lemma PeakStepKeeps(eng: Engine, b: Battery, p: real, limit: real)
    requires Configured(b) && b.maxDischarge <= b.maxCharge
    ensures PeakStep(eng, b, p, limit).Ok?
    ensures var st := PeakStep(eng, b, p, limit).value;
      && !st.clamped && Configured(st.bat) && Conserves(b, st)
      && st.plus >= 0.0 && st.minus <= 0.0
      && WithinLimit(p, p - st.plus - st.minus, limit)
  {
    if p > limit && b.currentE > 0.0 {
      var d0 := Min(p - limit, b.maxDischarge);
      var d := if b.currentE < d0 * Dt then b.currentE * 4.0 else d0;
      assert b.currentE - d * Dt >= 0.0;
    } else if p <= limit && b.currentE < b.maxE {
      var c0 := Min(limit - p, b.maxCharge);
      var c := if b.currentE + c0 * Dt > b.maxE then (b.maxE - b.currentE) * 4.0 else c0;
      assert b.currentE + c * Dt <= b.maxE;
    }
  }

  // ---------------------------------------------------------------------
  // 5Tariff_manoeuvering

  /** What the five-tariff schedule does in an hour: charge or discharge at
      the capacity spread over the given number of hours, or nothing. */
  datatype Action = Charging(hours: Hours) | Discharging(hours: Hours) | Idle

  /** A number of hours a bucket's energy is spread over. */
  type Hours = x: real | x > 0.0 witness 1.0

  function ActionAt(h: int): Action {
    if h <= 5 || h >= 22 then Charging(8.0)
    else if 7 <= h <= 13 then Discharging(7.0)
    else if h == 14 || h == 15 then Charging(2.0)
    else if 16 <= h <= 19 then Discharging(4.0)
    else Idle
  }

  /** The hour a sample belongs to: that of one minute before its stamp. */
  function ScheduleHour(t: Stamp): (h: int)
    ensures 0 <= h < 24
  {
    HourOf(t - 1)
  }

  /** The power of an hour's action: the capacity share of its bucket,
      limited so that the step neither overfills nor overdrains and stays
      within the rating. */
  function ChargeAmount(b: Battery, a: Action): real {
    if a.Charging? then Min3(b.maxE / a.hours, (b.maxE - b.currentE) * 4.0, b.maxCharge) else 0.0
  }

  function DischargeAmount(b: Battery, a: Action): real {
    if a.Discharging? then Min3(b.maxE / a.hours, b.currentE * 4.0, b.maxDischarge) else 0.0
  }

  /** Every step charges, then discharges; one of the two amounts is zero. */
  function TariffStep(eng: Engine, b: Battery, t: Stamp): (r: Result<Step>)
    ensures r.Ok? ==> SameRatings(b, r.value.bat)
    ensures r.Ok? ==> r.value.plus == DischargeAmount(b, ActionAt(ScheduleHour(t)))
    ensures r.Ok? ==> r.value.minus == -ChargeAmount(b, ActionAt(ScheduleHour(t)))
  {
    var act := ActionAt(ScheduleHour(t));
    var c := ChargeAmount(b, act);
    var d := DischargeAmount(b, act);
    var a1 :- Charge(eng, b, c, Dt);
    var a2 :- Discharge(eng, a1.bat, d, Dt);
    Ok(Step(a2.bat, d, -c, a1.clamped || a2.clamped))
  }

  /** The columns a five-tariff row may fill in its hour. */
  predicate WithinSchedule(time: Stamp, plus: real, minus: real) {
    match ActionAt(ScheduleHour(time))
    case Charging(_) => plus == 0.0 && minus <= 0.0
    case Discharging(_) => minus == 0.0 && plus >= 0.0
    case Idle => plus == 0.0 && minus == 0.0
  }

  lemma TariffStepKeeps(eng: Engine, b: Battery, t: Stamp)
    requires Configured(b) && b.maxDischarge <= b.maxCharge
    ensures TariffStep(eng, b, t).Ok?
    ensures var st := TariffStep(eng, b, t).value;
      && !st.clamped && Configured(st.bat) && Conserves(b, st)
      && st.plus >= 0.0 && st.minus <= 0.0
      && WithinSchedule(t, st.plus, st.minus)
  {
    var act := ActionAt(ScheduleHour(t));
    var c := ChargeAmount(b, act);
    var d := DischargeAmount(b, act);
    assert 0.0 <= c && b.currentE + c * Dt <= b.maxE;
    var a1 := Charge(eng, b, c, Dt);
    assert a1.Ok? && !a1.value.clamped && a1.value.bat.currentE == b.currentE + c * Dt;
    assert 0.0 <= d <= b.maxCharge && a1.value.bat.currentE - d * Dt >= 0.0;
  }

  /** The schedule discharges in exactly the peak hours of the tariff,
      charges in the night hours and at 14-16, and idles at 6, 20 and 21.
      Each bucket's divisor is its number of hours. */
  lemma ScheduleFollowsBands(h: int)
    requires 0 <= h < 24
    ensures ActionAt(h).Discharging? <==> Tariffs.IsPeakHour(h)
    ensures ActionAt(h).Charging? <==> Tariffs.IsNightHour(h) || h == 14 || h == 15
    ensures ActionAt(h) == Idle <==> h == 6 || h == 20 || h == 21
    ensures Tariffs.IsNightHour(h) ==> ActionAt(h) == Charging(8.0)
  {
  }

  /** On a quarter-hour grid, one minute back and fifteen minutes back fall in
      the same hour, so the schedule and the tariff blocks read the same hour. */
  lemma HourShiftOnGrid(t: Stamp)
    requires t % 15 == 0
    ensures HourOf(t - 1) == HourOf(t - 15)
  {
    var d, u := t / 1440, t % 1440;
    assert t == 1440 * d + u;
    var k := t / 15;
    assert t == 15 * k;
    DivisionOfMultiple(u, 15, k - 96 * d, 0);
    var w := u / 15;
    if u == 0 {
      DivisionOfMultiple(t - 1, 1440, d - 1, 1439);
      DivisionOfMultiple(t - 15, 1440, d - 1, 1425);
    } else {
      DivisionOfMultiple(t - 1, 1440, d, u - 1);
      DivisionOfMultiple(t - 15, 1440, d, u - 15);
      var a, c := w / 4, w % 4;
      assert u == 60 * a + 15 * c;
      if c == 0 {
        DivisionOfMultiple(u - 1, 60, a - 1, 59);
        DivisionOfMultiple(u - 15, 60, a - 1, 45);
      } else {
        DivisionOfMultiple(u - 1, 60, a, 15 * c - 1);
        DivisionOfMultiple(u - 15, 60, a, 15 * c - 15);
      }
    }
  }

  /** On a high-season working day the five-tariff schedule discharges in
      exactly the quarter hours the tariff puts in block 1. */
  lemma ScheduleDischargesInBlockOne(t: Stamp, holiday: Date -> bool)
    requires t % 15 == 0
    requires Tariffs.IsHighSeason(DateOf(t - 15).month) && !Tariffs.IsWorkOff(t - 15, holiday)
    ensures ActionAt(ScheduleHour(t)).Discharging? <==> Tariffs.BlockAt(t, holiday) == 1
  {
    HourShiftOnGrid(t);
    ScheduleFollowsBands(HourOf(t - 15));
  }

  // ---------------------------------------------------------------------
  // The run

  function StepOf(eng: Engine, s: Law, b: Battery, x: Sample): (r: Result<Step>)
    ensures r.Ok? ==> SameRatings(b, r.value.bat)
  {
    match s
    case Saving => SavingStep(eng, b, x.load)
    case Peak(limit) => PeakStep(eng, b, x.load, limit)
    case Tariff => TariffStep(eng, b, x.time)
  }

  /** The rows of a run and the battery it leaves behind. */
  datatype Trace = Trace(rows: seq<Row>, bat: Battery)

  /** The loop over the frame's rows, in order, each step starting from the
      battery the previous one left. */
  function Run(eng: Engine, s: Law, b: Battery, xs: seq<Sample>): (r: Result<Trace>)
    ensures r.Ok? ==> |r.value.rows| == |xs| && SameRatings(b, r.value.bat)
    ensures r.Ok? ==> forall i :: 0 <= i < |xs| ==>
      r.value.rows[i].time == xs[i].time && r.value.rows[i].load == xs[i].load
    ensures r.Ok? && |xs| == 0 ==> r.value.bat == b
    ensures r.Ok? && |xs| > 0 ==> r.value.rows[|xs| - 1].energy == r.value.bat.currentE
    decreases |xs|
  {
    if |xs| == 0 then Ok(Trace([], b))
    else
      var st :- StepOf(eng, s, b, xs[0]);
      var rest :- Run(eng, s, st.bat, xs[1..]);
      Ok(Trace([Row(xs[0].time, xs[0].load, st.plus, st.minus, st.bat.currentE)] + rest.rows, rest.bat))
  }

  /** One step from `b` on sample `x` leaves `next` and produces `row`. */
  predicate StepLeads(eng: Engine, s: Law, b: Battery, x: Sample, next: Battery, row: Row) {
    var r := StepOf(eng, s, b, x);
    && r.Ok? && r.value.bat == next
    && row == Row(x.time, x.load, r.value.plus, r.value.minus, next.currentE)
  }

  /** A run is the fold of its step: given the battery before every sample
      and the row every step produces, the run yields exactly those rows and
      the last battery. */
  lemma {:induction false} RunFollowsSteps(eng: Engine, s: Law, bats: seq<Battery>, xs: seq<Sample>, rows: seq<Row>)
    requires |bats| == |xs| + 1 && |rows| == |xs|
    requires forall i :: 0 <= i < |xs| ==> StepLeads(eng, s, bats[i], xs[i], bats[i + 1], rows[i])
    ensures Run(eng, s, bats[0], xs) == Ok(Trace(rows, bats[|xs|]))
    decreases |xs|
  {
    if |xs| > 0 {
      assert StepLeads(eng, s, bats[0], xs[0], bats[1], rows[0]);
      forall i | 0 <= i < |xs| - 1
        ensures StepLeads(eng, s, bats[1..][i], xs[1..][i], bats[1..][i + 1], rows[1..][i])
      {
        assert StepLeads(eng, s, bats[i + 1], xs[i + 1], bats[i + 2], rows[i + 1]);
      }
      RunFollowsSteps(eng, s, bats[1..], xs[1..], rows[1..]);
      assert rows == [rows[0]] + rows[1..];
    }
  }

  /** What a strategy promises of one row, given the energy before it. */
  predicate RowKeeps(s: Law, maxE: real, before: real, row: Row) {
    && 0.0 <= row.energy <= maxE
    && row.energy == before - Dt * (row.plus + row.minus)
    && row.plus >= 0.0 && row.minus <= 0.0
    && match s
       case Saving => WithinSaving(row.load, After(row))
       case Peak(limit) => WithinLimit(row.load, After(row), limit)
       case Tariff => WithinSchedule(row.time, row.plus, row.minus)
  }

  lemma StepKeeps(eng: Engine, s: Law, b: Battery, x: Sample)
    requires Configured(b) && b.maxDischarge <= b.maxCharge
    ensures StepOf(eng, s, b, x).Ok?
    ensures var st := StepOf(eng, s, b, x).value;
      && !st.clamped && Configured(st.bat)
      && RowKeeps(s, b.maxE, b.currentE, Row(x.time, x.load, st.plus, st.minus, st.bat.currentE))
  {
    match s
    case Saving => SavingStepKeeps(eng, b, x.load);
    case Peak(limit) => PeakStepKeeps(eng, b, x.load, limit);
    case Tariff => TariffStepKeeps(eng, b, x.time);
  }

  /** Every row of a run keeps its strategy's promise, each starting from
      the energy the row before it left (`before` for the first). */
  predicate TraceKeeps(s: Law, maxE: real, before: real, rows: seq<Row>)
    decreases |rows|
  {
    |rows| > 0 ==>
      RowKeeps(s, maxE, before, rows[0]) && TraceKeeps(s, maxE, rows[0].energy, rows[1..])
  }

  /** On a configured battery whose discharge rating does not exceed its
      charge rating, a run never raises and never clamps: every row keeps the
      energy within the capacity, accounts for the energy moved, and obeys
      its strategy's bound. */
  lemma {:induction false} RunKeeps(eng: Engine, s: Law, b: Battery, xs: seq<Sample>)
    requires Configured(b) && b.maxDischarge <= b.maxCharge
    ensures Run(eng, s, b, xs).Ok?
    ensures var t := Run(eng, s, b, xs).value;
      Configured(t.bat) && TraceKeeps(s, b.maxE, b.currentE, t.rows)
    decreases |xs|
  {
    if |xs| > 0 {
      StepKeeps(eng, s, b, xs[0]);
      var st := StepOf(eng, s, b, xs[0]).value;
      RunKeeps(eng, s, st.bat, xs[1..]);
      var rest := Run(eng, s, st.bat, xs[1..]).value;
      var t := Run(eng, s, b, xs).value;
      assert t.rows == [Row(xs[0].time, xs[0].load, st.plus, st.minus, st.bat.currentE)] + rest.rows;
      assert t.rows[1..] == rest.rows;
    }
  }

  /** The invariant of a whole trace, read at one row. */
  lemma {:induction false} TraceKeepsAt(s: Law, maxE: real, before: real, rows: seq<Row>, i: int)
    requires TraceKeeps(s, maxE, before, rows) && 0 <= i < |rows|
    ensures RowKeeps(s, maxE, if i == 0 then before else rows[i - 1].energy, rows[i])
    decreases i
  {
    if i > 0 {
      TraceKeepsAt(s, maxE, rows[0].energy, rows[1..], i - 1);
      assert rows[1..][i - 1] == rows[i];
      if i > 1 {
        assert rows[1..][i - 2] == rows[i - 1];
      }
    }
  }

  // ---------------------------------------------------------------------
  // model and simulate

  /** The load column of a frame. */
  function Loads(xs: seq<Sample>): (ls: seq<real>)
    ensures |ls| == |xs| && forall i :: 0 <= i < |xs| ==> ls[i] == xs[i].load
  {
    seq(|xs|, i requires 0 <= i < |xs| => xs[i].load)
  }

  /** A multiple of a tenth. */
  predicate IsTenth(r: real) {
    (r * 10.0).Floor as real == r * 10.0
  }

  /** Python's `round(x, 1)`: the nearest multiple of a tenth, ties to the
      even number of tenths. */
  function RoundTenths(x: real): (r: real)
    ensures IsTenth(r)
    ensures x - 0.05 <= r <= x + 0.05
    ensures x - r == 0.05 || r - x == 0.05 ==> (r * 10.0).Floor % 2 == 0
  {
    var y := x * 10.0;
    var f := y.Floor;
    var k := if y - f as real < 0.5 then f
             else if y - f as real > 0.5 then f + 1
             else if f % 2 == 0 then f else f + 1;
    assert (k as real / 10.0) * 10.0 == k as real;
    k as real / 10.0
  }

  /** No multiple of a tenth lies nearer to `x` than its rounding. */
  lemma RoundTenthsNearest(x: real, k: int)
    ensures var d := x * 10.0 - RoundTenths(x) * 10.0;
      var e := x * 10.0 - k as real;
      (if d < 0.0 then -d else d) <= (if e < 0.0 then -e else e)
  {
    var r := RoundTenths(x);
    var j := (r * 10.0).Floor;
    assert j as real == r * 10.0;
    assert x * 10.0 - 0.5 <= j as real <= x * 10.0 + 0.5;
    if k < j {
      assert k as real <= j as real - 1.0;
    } else if k > j {
      assert k as real >= j as real + 1.0;
    }
  }

  /** What `model` runs: the control law, with installed-power control's limit
      found by the search, and the battery the loop starts from. */
  datatype Plan = Plan(law: Law, start: Battery)

  /** The preparation `model` makes before its loop. Installed-power control
      searches for the smallest feasible limit on the frame's loads, rounds
      it to a tenth, and hard-resets the battery the search's trials left; the
      other strategies start from the battery as it is. */
  function Setup(eng: Engine, s: Strategy, b: Battery, xs: seq<Sample>): (r: Result<Plan>)
    ensures s.ProductionSaving? ==> r == Ok(Plan(Saving, b))
    ensures s.FiveTariff? ==> r == Ok(Plan(Tariff, b))
    ensures s.InstalledPower? ==>
      (r.Ok? <==> PeakLimit.GetMinLimit(eng, b, Loads(xs)).Ok? && HardReset(b).Ok?)
    ensures s.InstalledPower? && r.Ok? ==>
      && r.value.law == Peak(RoundTenths(PeakLimit.GetMinLimit(eng, b, Loads(xs)).value.root))
      && r.value.start == HardReset(b).value
    ensures s.InstalledPower? && |xs| == 0 ==> r == Err(NoSignChange)
  {
    match s
    case ProductionSaving => Ok(Plan(Saving, b))
    case FiveTariff => Ok(Plan(Tariff, b))
    case InstalledPower =>
      var iv :- PeakLimit.GetMinLimit(eng, b, Loads(xs));
      HardResetForgetsDynamicState(b, iv.bat);
      var start :- HardReset(iv.bat);
      Ok(Plan(Peak(RoundTenths(iv.root)), start))
  }

  /** On a configured battery with float ratings the preparation succeeds
      for a non-empty frame, and starts from the hard reset battery for
      installed-power control. That control's limit lies within a twentieth
      of the search's final interval, which is infeasible at its lower end
      and feasible at its upper end. */
  lemma SetupSucceeds(eng: Engine, s: Strategy, b: Battery, xs: seq<Sample>)
    requires Configured(b) && b.maxDischarge <= b.maxCharge && b.floatCapacity && |xs| > 0
    ensures Setup(eng, s, b, xs).Ok?
    ensures s.InstalledPower? ==>
      var p := Setup(eng, s, b, xs).value;
      var iv := PeakLimit.GetMinLimit(eng, b, Loads(xs)).value;
      && p.start == HardReset(b).value && Configured(p.start)
      && p.law.Peak? && iv.lo - 0.05 <= p.law.limit <= iv.hi + 0.05
      && PeakLimit.VerdictAt(eng, b, Loads(xs), iv.lo, PeakLimit.Infeasible)
      && PeakLimit.VerdictAt(eng, b, Loads(xs), iv.hi, PeakLimit.Feasible)
  {
    if s.InstalledPower? {
      PeakLimit.GetMinLimitSucceeds(eng, b, Loads(xs));
      HardResetConfigures(b);
    }
  }

  /** The results frame: the rows, the `p_after` and `var_bat` columns, the
      law the loop applied, and the battery left behind. */
  datatype Frame = Frame(rows: seq<Row>, after: seq<real>, varBat: seq<real>, law: Law, bat: Battery)

  /** `model`: fails without a series, otherwise prepares the strategy, runs
      its loop from the prepared battery and adds the `p_after` and `var_bat`
      columns. */
  function Model(eng: Engine, s: Strategy, b: Battery, series: Option<seq<Sample>>): (r: Result<Frame>)
    ensures series.None? ==> r == Err(MissingSeries)
    ensures series.Some? ==>
      (r.Ok? <==> && Setup(eng, s, b, series.value).Ok?
                  && var p := Setup(eng, s, b, series.value).value;
                     Run(eng, p.law, p.start, series.value).Ok?)
    ensures r.Ok? ==>
      && var p := Setup(eng, s, b, series.value).value;
      && r.value.law == p.law
      && Run(eng, p.law, p.start, series.value) == Ok(Trace(r.value.rows, r.value.bat))
    ensures r.Ok? ==>
      && series.Some?
      && |r.value.rows| == |r.value.after| == |r.value.varBat| == |series.value|
      && SameRatings(b, r.value.bat)
    ensures r.Ok? ==> forall i :: 0 <= i < |series.value| ==>
      && r.value.rows[i].load == series.value[i].load
      && r.value.after[i] == series.value[i].load - r.value.rows[i].plus - r.value.rows[i].minus
      && r.value.varBat[i] == r.value.rows[i].energy
  {
    if series.None? then Err(MissingSeries)
    else
      var p :- Setup(eng, s, b, series.value);
      var t :- Run(eng, p.law, p.start, series.value);
      Ok(Frame(t.rows,
               seq(|t.rows|, i requires 0 <= i < |t.rows| => After(t.rows[i])),
               seq(|t.rows|, i requires 0 <= i < |t.rows| => t.rows[i].energy),
               p.law,
               t.bat))
  }

  /** `simulate`: a hard reset, then `model`. The reset refuses a battery
      whose capacity is an integer. */
  function Simulate(eng: Engine, s: Strategy, b: Battery, series: Option<seq<Sample>>): (r: Result<Frame>)
    ensures r.Ok? ==> b.maxCharge >= 0.0 && b.maxDischarge >= 0.0 && b.maxE >= 0.0 && b.floatCapacity
    ensures b.maxCharge >= 0.0 && b.maxDischarge >= 0.0 && !b.floatCapacity ==> r == Err(NotAFloat)
    ensures series.None? ==> r.Err?
    ensures s.InstalledPower? && series == Some([]) ==> r.Err?
  {
    var full :- HardReset(b);
    Model(eng, s, full, series)
  }

  /** A simulation of a battery with valid float ratings succeeds (on a
      non-empty frame for installed-power control, whose search needs a
      load), starts full, keeps every row within the law of its strategy,
      and leaves a configured battery behind. */
  lemma SimulateKeeps(eng: Engine, s: Strategy, b: Battery, xs: seq<Sample>)
    requires b.maxCharge >= 0.0 && b.maxDischarge >= 0.0 && b.maxE > 0.0 && b.floatCapacity
    requires b.maxDischarge <= b.maxCharge
    requires s.InstalledPower? ==> |xs| > 0
    ensures Simulate(eng, s, b, Some(xs)).Ok?
    ensures var f := Simulate(eng, s, b, Some(xs)).value;
      && Configured(f.bat) && TraceKeeps(f.law, b.maxE, b.maxE, f.rows)
      && (s.ProductionSaving? ==> f.law == Saving)
      && (s.FiveTariff? ==> f.law == Tariff)
      && (s.InstalledPower? ==> f.law.Peak?)
  {
    HardResetConfigures(b);
    var full := HardReset(b).value;
    HardResetIdempotent(b);
    if s.InstalledPower? {
      SetupSucceeds(eng, s, full, xs);
    }
    var p := Setup(eng, s, full, xs).value;
    RunKeeps(eng, p.law, p.start, xs);
  }
}
