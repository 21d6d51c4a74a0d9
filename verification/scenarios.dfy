/** The battery scenarios of `tests/test_bs_sim.py`, as exact traces.

    A "10kWh_5kW" battery runs over seventeen quarter hours from
    2020-01-01 06:00; energies are multiples of 0.25 kWh, so the real
    arithmetic of the model is exact.
 */
module Scenarios {
  import opened Results
  import opened Calendar
  import opened Storage
  import opened Control

  /** The test battery: the "10kWh_5kW" preset at full charge. */
  const TestBattery: Battery := Battery(1, "10kWh_5kW", 5.0, 5.0, 10.0, 1.0, 0.0, 10.0, true)

  /** The test loads, in kW. */
  const TestLoads: seq<real> := [0.0, -3.0, -2.0, 8.0, 7.0, 6.0, 7.0, 8.0, 3.0, 5.0, 4.0, -2.0, 0.0, 2.0, 0.0, 0.0, 0.0]

  /** 2020-01-01 06:00 in minutes. */
  const TestStart: Stamp := 737424 * 1440 + 360

  function TestSeries(): (xs: seq<Sample>)
    ensures |xs| == 17
  {
    seq(17, i requires 0 <= i < 17 => Sample(TestStart + 15 * i, TestLoads[i]))
  }

  /** The constructor call of the tests yields the test battery. */
  lemma TestBatteryConstruction()
    ensures NewBattery(Sim, 1, "BS_default", "15min", Some("10kWh_5kW"), 1.0, Some(1.0), 1.0, 1.0)
            == Ok(TestBattery)
  {
    StorageTypes.TenKilowattHourFiveKilowattPreset();
  }

  /** The first stamp decodes to 2020-01-01 06:00, a Wednesday. */
  lemma TestStartIsNewYearMorning()
    ensures DateOf(TestStart) == Date(2020, 1, 1)
    ensures HourOf(TestStart) == 6 && MinuteOf(TestStart) == 0 && WeekdayOf(TestStart) == 2
  {
    DivisionOfMultiple(TestStart, MinutesPerDay, 737424, 360);
    DivisionOfMultiple(2019, 4, 504, 3);
    DivisionOfMultiple(2019, 100, 20, 19);
    DivisionOfMultiple(2019, 400, 5, 19);
    assert DaysBeforeYear(2020) == 737424;
    TimeGrid.YearStartDate(2020);
  }

  /** The test battery with `e` kWh stored after applying `p` kW. */
  function At(e: real, p: real): Battery {
    TestBattery.(soc := e / 10.0, currentP := p, currentE := e)
  }

  /** The battery before every step: the test battery, then the state each
      step leaves. */
  function States(energy: seq<real>, power: seq<real>): (bats: seq<Battery>)
    requires |energy| == |power|
    ensures |bats| == |energy| + 1
  {
    [TestBattery] + seq(|energy|, i requires 0 <= i < |energy| => At(energy[i], power[i]))
  }

  /** The rows of a run over the test series. */
  function Rows(plus: seq<real>, minus: seq<real>, energy: seq<real>): (rows: seq<Row>)
    requires |plus| == |minus| == |energy| == 17
    ensures |rows| == 17
  {
    seq(17, i requires 0 <= i < 17 => Row(TestStart + 15 * i, TestLoads[i], plus[i], minus[i], energy[i]))
  }

  // ---------------------------------------------------------------------
  // The search for installed_power's limit

  /** A state a trial of the search starts from: the test battery's ratings
      and at least 7.25 kWh stored. */
  predicate Ready(b: Battery) {
    Configured(b) && SameRatings(b, TestBattery) && b.currentE >= 7.25
  }

  /** The trial at 3.0 kW from 7.25 kWh: the energy and power after every
      sample. */
  const BaseEnergy: seq<real> :=
    [8.0, 9.25, 10.0, 8.75, 7.75, 7.0, 6.0, 4.75, 4.75, 4.25, 4.0, 5.25, 6.0, 6.25, 7.0, 7.75, 8.5]
  const BasePower: seq<real> :=
    [3.0, 5.0, 3.0, 5.0, 4.0, 3.0, 4.0, 5.0, 0.0, 2.0, 1.0, 5.0, 3.0, 1.0, 3.0, 3.0, 3.0]

  function BaseStates(): (bats: seq<Battery>)
    ensures |bats| == 18
  {
    [At(7.25, 0.0)] + seq(17, i requires 0 <= i < 17 => At(BaseEnergy[i], BasePower[i]))
  }

  /** Sample `i` of the trial at 3.0 kW continues to the next state. */
  predicate BaseProbe(i: int)
    requires 0 <= i < 17
  {
    PeakLimit.ProbeStep(Sim, BaseStates()[i], TestLoads[i], 3.0) == Ok(PeakLimit.Continue(BaseStates()[i + 1]))
  }

  lemma BaseProbesFrom0(i: int)
    requires 0 <= i < 4
    ensures BaseProbe(i)
  {
    assert i == 0 || i == 1 || i == 2 || i == 3;
  }

  lemma BaseProbesFrom4(i: int)
    requires 4 <= i < 8
    ensures BaseProbe(i)
  {
    assert i == 4 || i == 5 || i == 6 || i == 7;
  }

  lemma BaseProbesFrom8(i: int)
    requires 8 <= i < 12
    ensures BaseProbe(i)
  {
    assert i == 8 || i == 9 || i == 10 || i == 11;
  }

  lemma BaseProbesFrom12(i: int)
    requires 12 <= i < 17
    ensures BaseProbe(i)
  {
    assert i == 12 || i == 13 || i == 14 || i == 15 || i == 16;
  }

  /** From 7.25 kWh the limit 3.0 kW holds over the test series, and the
      trial ends holding 8.5 kWh. */
  lemma BaseTrial()
    ensures PeakLimit.IsLimitPossible(Sim, At(7.25, 0.0), TestLoads, 3.0)
         == Ok(PeakLimit.Trial(PeakLimit.Feasible, At(8.5, 3.0)))
  {
    var bats := BaseStates();
    forall i | 0 <= i < 17
      ensures PeakLimit.ProbeStep(Sim, bats[i], TestLoads[i], 3.0) == Ok(PeakLimit.Continue(bats[i + 1]))
    {
      if i < 4 { BaseProbesFrom0(i); }
      else if i < 8 { BaseProbesFrom4(i); }
      else if i < 12 { BaseProbesFrom8(i); }
      else { BaseProbesFrom12(i); }
    }
    PeakLimit.TrialFollowsProbes(Sim, bats, TestLoads, 3.0);
  }

  /** On the test series the limits below 3 kW are infeasible (the 8 kW
      sample exceeds the rating) and those from 3 kW on are feasible, from
      every ready state; every such trial leaves a ready state. */
  lemma TestTrial(b: Battery, x: real)
    requires Ready(b) && 0.0 <= x
    ensures var t := PeakLimit.IsLimitPossible(Sim, b, TestLoads, x);
      && t.Ok? && Ready(t.value.bat)
      && t.value.verdict == if x < 3.0 then PeakLimit.Infeasible else PeakLimit.Feasible
  {
    if x < 3.0 {
      assert TestLoads[3] - x > b.maxDischarge;
      assert forall j :: 0 <= j < 3 ==> TestLoads[j] <= x;
      PeakLimit.InfeasibleBeyondRating(Sim, b, TestLoads, x, 3);
    } else {
      BaseTrial();
      PeakLimit.FeasibleMonotone(Sim, At(7.25, 0.0), b, TestLoads, 3.0, x);
    }
  }

  /** Bisection against a threshold at 3 kW, below which the verdict is
      that of the lower end: the interval the rounds leave and the last
      midpoint. */
  function ThresholdSearch(lo: real, hi: real, rounds: nat): (real, real, real)
    requires rounds >= 1
    decreases rounds
  {
    var mid := (lo + hi) / 2.0;
    var (lo', hi') := if mid < 3.0 then (mid, hi) else (lo, mid);
    if rounds == 1 then (lo', hi', mid) else ThresholdSearch(lo', hi', rounds - 1)
  }

  /** A trial function that, from every ready state, answers infeasible
      below 3 kW and feasible from 3 kW on, and leaves a ready state. */
  ghost predicate ThresholdTrial(f: PeakLimit.TrialAt) {
    forall c: Battery, x: real | Ready(c) && 0.0 <= x ::
      && f(c, x).Ok? && Ready(f(c, x).value.bat)
      && f(c, x).value.verdict == if x < 3.0 then PeakLimit.Infeasible else PeakLimit.Feasible
  }

  lemma TestLoadsThreshold()
    ensures ThresholdTrial(PeakLimit.TrialOn(Sim, TestLoads))
  {
    forall c: Battery, x: real | Ready(c) && 0.0 <= x
      ensures var t := PeakLimit.TrialOn(Sim, TestLoads)(c, x);
        && t.Ok? && Ready(t.value.bat)
        && t.value.verdict == if x < 3.0 then PeakLimit.Infeasible else PeakLimit.Feasible
    {
      TestTrial(c, x);
    }
  }

  /** Bisecting with a threshold trial is the threshold search, and its
      trials leave a ready state. */
  lemma {:induction false} ThresholdBisect(f: PeakLimit.TrialAt, b: Battery, lo: real, hi: real, rounds: nat)
    requires ThresholdTrial(f) && Ready(b) && 0.0 <= lo <= hi && rounds >= 1
    ensures var r := PeakLimit.Bisect(f, b, lo, hi, PeakLimit.Infeasible, rounds);
      && r.Ok? && Ready(r.value.bat)
      && (r.value.lo, r.value.hi, r.value.root) == ThresholdSearch(lo, hi, rounds)
    decreases rounds
  {
    var mid := (lo + hi) / 2.0;
    var t := f(b, mid).value;
    if rounds > 1 {
      if mid < 3.0 {
        ThresholdBisect(f, t.bat, mid, hi, rounds - 1);
      } else {
        ThresholdBisect(f, t.bat, lo, mid, rounds - 1);
      }
    }
  }

  /** The largest test load is 8 kW. */
  lemma TestPeak()
    ensures PeakLimit.MaxOf(TestLoads) == 8.0
  {
    var m := PeakLimit.MaxOf(TestLoads);
    assert 8.0 <= m by {
      assert TestLoads[3] == 8.0;
    }
    TestLoadsAtMostEight();
  }

  lemma TestLoadsAtMostEight()
    ensures forall j :: 0 <= j < |TestLoads| ==> TestLoads[j] <= 8.0
  {
  }

  /** `get_min_p_lim` on the test series brackets 2 to 8 kW, runs seven
      rounds and returns 2.984375 kW, the last midpoint it tried. */
  lemma TestSearch()
    ensures var r := PeakLimit.GetMinLimit(Sim, TestBattery, TestLoads);
      && r.Ok? && r.value.root == 2.984375
      && r.value.lo == 2.984375 && r.value.hi == 3.03125
  {
    TestPeak();
    assert PeakLimit.Bracket(TestBattery, TestLoads) == (2.0, 8.0);
    TestTrial(TestBattery, 2.0);
    var ta := PeakLimit.IsLimitPossible(Sim, TestBattery, TestLoads, 2.0).value;
    TestTrial(ta.bat, 8.0);
    var tb := PeakLimit.IsLimitPossible(Sim, ta.bat, TestLoads, 8.0).value;
    assert PeakLimit.Rounds(6.0) == 7;
    TestLoadsThreshold();
    ThresholdBisect(PeakLimit.TrialOn(Sim, TestLoads), tb.bat, 2.0, 8.0, 7);
    assert ThresholdSearch(2.0, 8.0, 7) == (2.984375, 3.03125, 2.984375);
  }

  /** installed_power on the test series keeps the limit 3.0 kW, and its loop
      starts from the full test battery. */
  lemma TestLimit()
    ensures Setup(Sim, InstalledPower, TestBattery, TestSeries()) == Ok(Plan(Peak(3.0), TestBattery))
  {
    TestSeriesLoads();
    TestSearch();
    RoundedTestLimit();
    TestBatteryIsFull();
  }

  lemma TestSeriesLoads()
    ensures Loads(TestSeries()) == TestLoads
  {
  }

  lemma RoundedTestLimit()
    ensures RoundTenths(2.984375) == 3.0
  {
  }

  /** A hard reset leaves the full test battery as it is. */
  lemma TestBatteryIsFull()
    ensures HardReset(TestBattery) == Ok(TestBattery)
  {
  }

  // ---------------------------------------------------------------------
  // From steps to frames: the traces below give each step of a run; these
  // lemmas assemble the steps into the run and the run into the frame.

  /** Step `i` of a run with law `s` goes from the battery before row `i` to
      the one after it and produces row `i`. */
  predicate Leads(s: Law, energy: seq<real>, power: seq<real>, plus: seq<real>, minus: seq<real>, i: int)
    requires |energy| == |power| == |plus| == |minus| == 17 && 0 <= i < 17
  {
    StepLeads(Sim, s, States(energy, power)[i], TestSeries()[i],
              States(energy, power)[i + 1], Rows(plus, minus, energy)[i])
  }

  /** When every step of the test run is known, so is the run. */
  lemma RunOfSteps(s: Law, energy: seq<real>, power: seq<real>, plus: seq<real>, minus: seq<real>)
    requires |energy| == |power| == |plus| == |minus| == 17
    requires forall i :: 0 <= i < 17 ==> Leads(s, energy, power, plus, minus, i)
    ensures Run(Sim, s, TestBattery, TestSeries()) == Ok(Trace(Rows(plus, minus, energy), At(energy[16], power[16])))
  {
    var bats := States(energy, power);
    var rows := Rows(plus, minus, energy);
    forall i | 0 <= i < 17
      ensures StepLeads(Sim, s, bats[i], TestSeries()[i], bats[i + 1], rows[i])
    {
      assert Leads(s, energy, power, plus, minus, i);
    }
    RunFollowsSteps(Sim, s, bats, TestSeries(), rows);
    assert bats[0] == TestBattery && bats[17] == At(energy[16], power[16]);
  }

  /** The simulation of the test battery is the run of the law its
      preparation chose from the battery as it is: the hard reset of a full
      battery changes nothing. */
  lemma SimulateOfRun(s: Strategy, law: Law, t: Trace)
    requires Setup(Sim, s, TestBattery, TestSeries()) == Ok(Plan(law, TestBattery))
    requires Run(Sim, law, TestBattery, TestSeries()) == Ok(t)
    ensures Simulate(Sim, s, TestBattery, Some(TestSeries())).Ok?
    ensures var f := Simulate(Sim, s, TestBattery, Some(TestSeries())).value;
      && f.rows == t.rows && f.bat == t.bat && f.law == law
      && |f.after| == |f.varBat| == 17
      && forall i :: 0 <= i < 17 ==>
           f.after[i] == TestLoads[i] - f.rows[i].plus - f.rows[i].minus && f.varBat[i] == f.rows[i].energy
  {
    TestBatteryIsFull();
    FrameOfRun(Sim, s, law, TestBattery, TestSeries(), t);
  }

  /** The frame of a simulation from a full battery, given its run. */
  lemma FrameOfRun(eng: Engine, s: Strategy, law: Law, b: Battery, xs: seq<Sample>, t: Trace)
    requires HardReset(b) == Ok(b) && Setup(eng, s, b, xs) == Ok(Plan(law, b)) && Run(eng, law, b, xs) == Ok(t)
    ensures Simulate(eng, s, b, Some(xs)).Ok?
    ensures var f := Simulate(eng, s, b, Some(xs)).value;
      && f.rows == t.rows && f.bat == t.bat && f.law == law
      && |f.after| == |f.varBat| == |xs|
      && forall i :: 0 <= i < |xs| ==>
           f.after[i] == xs[i].load - f.rows[i].plus - f.rows[i].minus && f.varBat[i] == f.rows[i].energy
  {
  }

  /** The columns of a frame whose rows are known. */
  lemma FrameColumns(f: Frame, plus: seq<real>, minus: seq<real>, energy: seq<real>, after: seq<real>)
    requires |plus| == |minus| == |energy| == |after| == 17
    requires f.rows == Rows(plus, minus, energy) && |f.after| == |f.varBat| == 17
    requires forall i :: 0 <= i < 17 ==>
      f.after[i] == TestLoads[i] - f.rows[i].plus - f.rows[i].minus && f.varBat[i] == f.rows[i].energy
    requires forall i :: 0 <= i < 17 ==> after[i] == TestLoads[i] - plus[i] - minus[i]
    ensures f.after == after && f.varBat == energy
  {
    forall i | 0 <= i < 17
      ensures f.after[i] == after[i] && f.varBat[i] == energy[i]
    {
      assert f.rows[i] == Row(TestStart + 15 * i, TestLoads[i], plus[i], minus[i], energy[i]);
    }
  }

  /** When the run over the test series is known, so is the simulation's frame. */
  lemma TraceOfSteps(s: Strategy, law: Law, energy: seq<real>, power: seq<real>, plus: seq<real>,
                     minus: seq<real>, after: seq<real>)
    requires |energy| == |power| == |plus| == |minus| == |after| == 17
    requires Setup(Sim, s, TestBattery, TestSeries()) == Ok(Plan(law, TestBattery))
    requires Run(Sim, law, TestBattery, TestSeries()) == Ok(Trace(Rows(plus, minus, energy), At(energy[16], power[16])))
    requires forall i :: 0 <= i < 17 ==> after[i] == TestLoads[i] - plus[i] - minus[i]
    ensures Simulate(Sim, s, TestBattery, Some(TestSeries())).Ok?
    ensures var f := Simulate(Sim, s, TestBattery, Some(TestSeries())).value;
      && f.rows == Rows(plus, minus, energy) && f.after == after && f.varBat == energy
      && f.bat == At(energy[16], power[16]) && f.law == law
  {
    SimulateOfRun(s, law, Trace(Rows(plus, minus, energy), At(energy[16], power[16])));
    FrameColumns(Simulate(Sim, s, TestBattery, Some(TestSeries())).value, plus, minus, energy, after);
  }

  // ---------------------------------------------------------------------
  // installed_power: the run with the limit the search found

  const PeakEnergy: seq<real> :=
    [10.0, 10.0, 10.0, 8.75, 7.75, 7.0, 6.0, 4.75, 4.75, 4.25, 4.0, 5.25, 6.0, 6.25, 7.0, 7.75, 8.5]
  const PeakPower: seq<real> :=
    [0.0, 0.0, 0.0, 5.0, 4.0, 3.0, 4.0, 5.0, 0.0, 2.0, 1.0, 5.0, 3.0, 1.0, 3.0, 3.0, 3.0]
  const PeakPlus: seq<real> :=
    [0.0, 0.0, 0.0, 5.0, 4.0, 3.0, 4.0, 5.0, 0.0, 2.0, 1.0, 0.0, 0.0, 0.0, 0.0, 0.0, 0.0]
  const PeakMinus: seq<real> :=
    [0.0, 0.0, 0.0, 0.0, 0.0, 0.0, 0.0, 0.0, 0.0, 0.0, 0.0, -5.0, -3.0, -1.0, -3.0, -3.0, -3.0]
  const PeakAfter: seq<real> :=
    [0.0, -3.0, -2.0, 3.0, 3.0, 3.0, 3.0, 3.0, 3.0, 3.0, 3.0, 3.0, 3.0, 3.0, 3.0, 3.0, 3.0]

  lemma PeakStepsFrom0(i: int)
    requires 0 <= i < 4
    ensures Leads(Peak(3.0), PeakEnergy, PeakPower, PeakPlus, PeakMinus, i)
  {
    assert i == 0 || i == 1 || i == 2 || i == 3;
  }

  lemma PeakStepsFrom4(i: int)
    requires 4 <= i < 8
    ensures Leads(Peak(3.0), PeakEnergy, PeakPower, PeakPlus, PeakMinus, i)
  {
    assert i == 4 || i == 5 || i == 6 || i == 7;
  }

  lemma PeakStepsFrom8(i: int)
    requires 8 <= i < 12
    ensures Leads(Peak(3.0), PeakEnergy, PeakPower, PeakPlus, PeakMinus, i)
  {
    assert i == 8 || i == 9 || i == 10 || i == 11;
  }

  lemma PeakStepsFrom12(i: int)
    requires 12 <= i < 17
    ensures Leads(Peak(3.0), PeakEnergy, PeakPower, PeakPlus, PeakMinus, i)
  {
    assert i == 12 || i == 13 || i == 14 || i == 15 || i == 16;
  }

  /** Every expected grid load is the load less both battery columns. */
  lemma PeakBalance()
    ensures forall i :: 0 <= i < 17 ==> PeakAfter[i] == TestLoads[i] - PeakPlus[i] - PeakMinus[i]
  {
  }

  /** The run of installed_power at 3.0 kW over the test series, step by step. */
  lemma PeakRun()
    ensures Run(Sim, Peak(3.0), TestBattery, TestSeries())
         == Ok(Trace(Rows(PeakPlus, PeakMinus, PeakEnergy), At(PeakEnergy[16], PeakPower[16])))
  {
    forall i | 0 <= i < 17
      ensures Leads(Peak(3.0), PeakEnergy, PeakPower, PeakPlus, PeakMinus, i)
    {
      if i < 4 { PeakStepsFrom0(i); }
      else if i < 8 { PeakStepsFrom4(i); }
      else if i < 12 { PeakStepsFrom8(i); }
      else { PeakStepsFrom12(i); }
    }
    RunOfSteps(Peak(3.0), PeakEnergy, PeakPower, PeakPlus, PeakMinus);
  }

  /** installed_power: the search settles on the limit 3.0 kW, and the
      battery shaves every load above it and recharges with the headroom
      below it. */
  lemma PeakTrace()
    ensures Simulate(Sim, InstalledPower, TestBattery, Some(TestSeries())).Ok?
    ensures var f := Simulate(Sim, InstalledPower, TestBattery, Some(TestSeries())).value;
      && f.law == Peak(3.0)
      && f.after == [0.0, -3.0, -2.0, 3.0, 3.0, 3.0, 3.0, 3.0, 3.0, 3.0, 3.0, 3.0, 3.0, 3.0, 3.0, 3.0, 3.0]
      && f.varBat == [10.0, 10.0, 10.0, 8.75, 7.75, 7.0, 6.0, 4.75, 4.75, 4.25, 4.0, 5.25, 6.0, 6.25, 7.0, 7.75, 8.5]
  {
    TestLimit();
    PeakRun();
    PeakBalance();
    TraceOfSteps(InstalledPower, Peak(3.0), PeakEnergy, PeakPower, PeakPlus, PeakMinus, PeakAfter);
  }

  // ---------------------------------------------------------------------
  // production_saving

  const SavingEnergy: seq<real> :=
    [10.0, 10.0, 10.0, 8.75, 7.5, 6.25, 5.0, 3.75, 3.0, 1.75, 0.75, 1.25, 1.25, 0.75, 0.75, 0.75, 0.75]
  const SavingPower: seq<real> :=
    [0.0, 0.0, 0.0, 5.0, 5.0, 5.0, 5.0, 5.0, 3.0, 5.0, 4.0, 2.0, 0.0, 2.0, 0.0, 0.0, 0.0]
  const SavingPlus: seq<real> :=
    [0.0, 0.0, 0.0, 5.0, 5.0, 5.0, 5.0, 5.0, 3.0, 5.0, 4.0, 0.0, 0.0, 2.0, 0.0, 0.0, 0.0]
  const SavingMinus: seq<real> :=
    [0.0, 0.0, 0.0, 0.0, 0.0, 0.0, 0.0, 0.0, 0.0, 0.0, 0.0, -2.0, 0.0, 0.0, 0.0, 0.0, 0.0]
  const SavingAfter: seq<real> :=
    [0.0, -3.0, -2.0, 3.0, 2.0, 1.0, 2.0, 3.0, 0.0, 0.0, 0.0, 0.0, 0.0, 0.0, 0.0, 0.0, 0.0]

  lemma SavingStepsFrom0(i: int)
    requires 0 <= i < 4
    ensures Leads(Saving, SavingEnergy, SavingPower, SavingPlus, SavingMinus, i)
  {
    assert i == 0 || i == 1 || i == 2 || i == 3;
  }

  lemma SavingStepsFrom4(i: int)
    requires 4 <= i < 8
    ensures Leads(Saving, SavingEnergy, SavingPower, SavingPlus, SavingMinus, i)
  {
    assert i == 4 || i == 5 || i == 6 || i == 7;
  }

  lemma SavingStepsFrom8(i: int)
    requires 8 <= i < 12
    ensures Leads(Saving, SavingEnergy, SavingPower, SavingPlus, SavingMinus, i)
  {
    assert i == 8 || i == 9 || i == 10 || i == 11;
  }

  lemma SavingStepsFrom12(i: int)
    requires 12 <= i < 17
    ensures Leads(Saving, SavingEnergy, SavingPower, SavingPlus, SavingMinus, i)
  {
    assert i == 12 || i == 13 || i == 14 || i == 15 || i == 16;
  }

  /** Every expected grid load is the load less both battery columns. */
  lemma SavingBalance()
    ensures forall i :: 0 <= i < 17 ==> SavingAfter[i] == TestLoads[i] - SavingPlus[i] - SavingMinus[i]
  {
  }

  /** The run of production_saving over the test series, step by step. */
  lemma SavingRun()
    ensures Run(Sim, Saving, TestBattery, TestSeries())
         == Ok(Trace(Rows(SavingPlus, SavingMinus, SavingEnergy), At(SavingEnergy[16], SavingPower[16])))
  {
    forall i | 0 <= i < 17
      ensures Leads(Saving, SavingEnergy, SavingPower, SavingPlus, SavingMinus, i)
    {
      if i < 4 { SavingStepsFrom0(i); }
      else if i < 8 { SavingStepsFrom4(i); }
      else if i < 12 { SavingStepsFrom8(i); }
      else { SavingStepsFrom12(i); }
    }
    RunOfSteps(Saving, SavingEnergy, SavingPower, SavingPlus, SavingMinus);
  }

  /** production_saving: the battery covers consumption until it runs dry
      and stores production, so the grid never sees more than the load. */
  lemma SavingTrace()
    ensures Simulate(Sim, ProductionSaving, TestBattery, Some(TestSeries())).Ok?
    ensures var f := Simulate(Sim, ProductionSaving, TestBattery, Some(TestSeries())).value;
      && f.after == [0.0, -3.0, -2.0, 3.0, 2.0, 1.0, 2.0, 3.0, 0.0, 0.0, 0.0, 0.0, 0.0, 0.0, 0.0, 0.0, 0.0]
      && f.varBat == [10.0, 10.0, 10.0, 8.75, 7.5, 6.25, 5.0, 3.75, 3.0, 1.75, 0.75, 1.25, 1.25, 0.75, 0.75, 0.75, 0.75]
  {
    SavingRun();
    SavingBalance();
    TraceOfSteps(ProductionSaving, Saving, SavingEnergy, SavingPower, SavingPlus, SavingMinus, SavingAfter);
  }
}
