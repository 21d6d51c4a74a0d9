/** The battery of `consmodel/bs_sim.py` (class `BS`) and of its older copy
    `consmodel/bs_model.py` (class `Battery`).

    The Python classes hold mutable attributes behind validating setters;
    here a battery is an immutable record and every operation returns the
    next record, or the error the Python setter would raise. The two classes
    differ in three details, captured by an `Engine` parameter.
 */
module Storage {
  import opened Results
  import StorageTypes
  import TimeGrid

  /** The step of every built-in control strategy: 15 minutes, in hours. */
  const Dt: real := 0.25

  function Min(a: real, b: real): real {
    if a <= b then a else b
  }

  function Min3(a: real, b: real, c: real): real {
    Min(Min(a, b), c)
  }

  /** Where the two battery classes differ:
      - `guardsZeroDt`: the charge clamp catches the division by a zero step
        and stores power 0 (class `BS`) or lets ZeroDivisionError escape;
      - `allowsZeroCapacity`: the capacity setter rejects only negative values
        (class `Battery`) or every value that is not positive;
      - `validatesDischargeOnInit`: the constructor sends the discharge rating
        through its setter (class `BS`) or stores it unchecked. */
  datatype Engine = Engine(guardsZeroDt: bool, allowsZeroCapacity: bool, validatesDischargeOnInit: bool)

  /** Class `BS` of consmodel/bs_sim.py. */
  const Sim: Engine := Engine(true, false, true)

  /** Class `Battery` of consmodel/bs_model.py. */
  const Legacy: Engine := Engine(false, true, false)

  /** The attributes of a battery object: identity, ratings (kW, kWh), state
      of charge, last applied power (kW) and stored energy (kWh).
      `floatCapacity` is false when the capacity is a Python integer, as the
      constructor stores it from the "20kWh_5kW" preset; every setter that is
      handed the capacity itself then refuses it. */
  datatype Battery = Battery(
    index: int,
    name: string,
    maxCharge: real,
    maxDischarge: real,
    maxE: real,
    soc: real,
    currentP: real,
    currentE: real,
    floatCapacity: bool)

  /** The result of one charge or discharge call; `clamped` stands for the
      warning the Python code emits when the request does not fit. */
  datatype Applied = Applied(bat: Battery, clamped: bool)

  /** Identity and ratings agree: only the dynamic state may differ. */
  predicate SameRatings(a: Battery, b: Battery) {
    && a.index == b.index
    && a.name == b.name
    && a.maxCharge == b.maxCharge
    && a.maxDischarge == b.maxDischarge
    && a.maxE == b.maxE
    && a.floatCapacity == b.floatCapacity
  }

  /** What every successful charge or discharge leaves behind: energy within
      the capacity, the soc equal to the stored fraction, power within the
      ratings. */
  predicate Consistent(b: Battery) {
    && 0.0 < b.maxE
    && 0.0 <= b.currentE <= b.maxE
    && b.soc == b.currentE / b.maxE
    && -b.maxDischarge <= b.currentP <= b.maxCharge
  }

  /** A battery the control strategies can run on. */
  predicate Configured(b: Battery) {
    && b.maxCharge >= 0.0
    && b.maxDischarge >= 0.0
    && b.maxE > 0.0
    && 0.0 <= b.currentE <= b.maxE
  }

  // ---------------------------------------------------------------------
  // Validating setters

  function SetSoc(b: Battery, soc: real): (r: Result<Battery>)
    ensures r.Ok? <==> 0.0 <= soc <= 1.0
    ensures r.Ok? ==> r.value == b.(soc := soc)
    ensures r.Err? ==> r.error == SocOutOfRange
  {
    if soc < 0.0 || soc > 1.0 then Err(SocOutOfRange) else Ok(b.(soc := soc))
  }

  function SetMaxCharge(b: Battery, x: real): (r: Result<Battery>)
    ensures r.Ok? <==> x >= 0.0
    ensures r.Ok? ==> r.value == b.(maxCharge := x)
    ensures r.Err? ==> r.error == NegativeRating
  {
    if x < 0.0 then Err(NegativeRating) else Ok(b.(maxCharge := x))
  }

  function SetMaxDischarge(b: Battery, x: real): (r: Result<Battery>)
    ensures r.Ok? <==> x >= 0.0
    ensures r.Ok? ==> r.value == b.(maxDischarge := x)
    ensures r.Err? ==> r.error == NegativeRating
  {
    if x < 0.0 then Err(NegativeRating) else Ok(b.(maxDischarge := x))
  }

  /** The capacity setter: class `BS` demands a positive capacity, class
      `Battery` only a non-negative one. Its type check admits floats only, so
      the capacity it stores is a float. */
  function SetMaxE(eng: Engine, b: Battery, x: real): (r: Result<Battery>)
    ensures r.Ok? <==> (x > 0.0 || (eng.allowsZeroCapacity && x == 0.0))
    ensures r.Ok? ==> r.value == b.(maxE := x, floatCapacity := true)
    ensures r.Err? ==> r.error == CapacityOutOfRange
  {
    if (if eng.allowsZeroCapacity then x < 0.0 else x <= 0.0) then Err(CapacityOutOfRange)
    else Ok(b.(maxE := x, floatCapacity := true))
  }

  /** Power is stored signed and must lie in [-discharge rating, charge rating]. */
  function SetCurrentP(b: Battery, x: real): (r: Result<Battery>)
    ensures r.Ok? <==> -b.maxDischarge <= x <= b.maxCharge
    ensures r.Ok? ==> r.value == b.(currentP := x)
    ensures r.Err? ==> r.error == PowerOutOfRange
  {
    if x < -b.maxDischarge || x > b.maxCharge then Err(PowerOutOfRange) else Ok(b.(currentP := x))
  }

  function SetCurrentE(b: Battery, x: real): (r: Result<Battery>)
    ensures r.Ok? <==> 0.0 <= x <= b.maxE
    ensures r.Ok? ==> r.value == b.(currentE := x)
    ensures r.Err? ==> r.error == EnergyOutOfRange
  {
    if x < 0.0 || x > b.maxE then Err(EnergyOutOfRange) else Ok(b.(currentE := x))
  }

  /** `current_e_kwh = max_e_kwh`: the energy setter is handed the capacity
      itself, so its type check refuses an integer capacity before its range
      check, which the capacity always passes. */
  function SetFullEnergy(b: Battery): (r: Result<Battery>)
    ensures r.Ok? <==> b.floatCapacity && 0.0 <= b.maxE
    ensures r.Ok? ==> r.value == b.(currentE := b.maxE)
    ensures r.Err? ==> r.error == (if b.floatCapacity then EnergyOutOfRange else NotAFloat)
  {
    if !b.floatCapacity then Err(NotAFloat) else SetCurrentE(b, b.maxE)
  }

  /** The closing `soc = current_e / max_e` of charge and discharge. */
  function UpdateSoc(b: Battery): (r: Result<Battery>)
    requires 0.0 <= b.currentE <= b.maxE
    ensures r.Ok? <==> b.maxE != 0.0
    ensures r.Ok? ==> r.value == b.(soc := b.currentE / b.maxE)
  {
    if b.maxE == 0.0 then Err(DivisionByZero) else SetSoc(b, b.currentE / b.maxE)
  }

  // ---------------------------------------------------------------------
  // Charge and discharge

  /** The power recorded when a charge request overflows the capacity. */
  function ChargeClampPower(b: Battery, dt: real): real {
    if dt == 0.0 then 0.0 else (b.maxE - b.currentE) / dt
  }

  /** `charge(p, dt)`: store `p * dt` if it fits, otherwise fill to capacity
      and record the power that filled it. */
  function Charge(eng: Engine, b: Battery, p: real, dt: real): (r: Result<Applied>)
    ensures r.Ok? ==> SameRatings(b, r.value.bat) && Consistent(r.value.bat)
    ensures b.currentE + p * dt <= b.maxE ==>
      (r.Ok? <==> -b.maxDischarge <= p <= b.maxCharge && 0.0 <= b.currentE + p * dt && 0.0 < b.maxE)
    ensures b.currentE + p * dt <= b.maxE && r.Ok? ==>
      && !r.value.clamped
      && r.value.bat.currentE == b.currentE + p * dt
      && r.value.bat.currentP == p
    ensures b.currentE + p * dt > b.maxE ==>
      (r.Ok? <==> && (dt != 0.0 || eng.guardsZeroDt)
                  && -b.maxDischarge <= ChargeClampPower(b, dt) <= b.maxCharge
                  && b.floatCapacity && 0.0 < b.maxE)
    ensures b.currentE + p * dt > b.maxE && r.Ok? ==>
      && r.value.clamped
      && r.value.bat.currentE == b.maxE
      && r.value.bat.currentP == ChargeClampPower(b, dt)
  {
    if b.currentE + p * dt <= b.maxE then
      var b1 :- SetCurrentP(b, p);
      var b2 :- SetCurrentE(b1, b.currentE + p * dt);
      var b3 :- UpdateSoc(b2);
      Ok(Applied(b3, false))
    else
      var q :- if dt == 0.0 && !eng.guardsZeroDt then Err(DivisionByZero)
               else Ok(ChargeClampPower(b, dt));
      var b1 :- SetCurrentP(b, q);
      var b2 :- SetFullEnergy(b1);
      var b3 :- UpdateSoc(b2);
      Ok(Applied(b3, true))
  }

  /** `discharge(p, dt)`: take `p * dt` if it is there, otherwise empty the
      battery and record the power that emptied it. The clamp divides by `dt`
      unguarded in both classes. */
  function Discharge(eng: Engine, b: Battery, p: real, dt: real): (r: Result<Applied>)
    ensures r.Ok? ==> SameRatings(b, r.value.bat) && Consistent(r.value.bat)
    ensures b.currentE - p * dt >= 0.0 ==>
      (r.Ok? <==> -b.maxDischarge <= p <= b.maxCharge && b.currentE - p * dt <= b.maxE && 0.0 < b.maxE)
    ensures b.currentE - p * dt >= 0.0 && r.Ok? ==>
      && !r.value.clamped
      && r.value.bat.currentE == b.currentE - p * dt
      && r.value.bat.currentP == p
    ensures b.currentE - p * dt < 0.0 ==>
      (r.Ok? <==> dt != 0.0 && -b.maxDischarge <= b.currentE / dt <= b.maxCharge && 0.0 < b.maxE)
    ensures b.currentE - p * dt < 0.0 && r.Ok? ==>
      && r.value.clamped
      && r.value.bat.currentE == 0.0
      && r.value.bat.currentP == b.currentE / dt
  {
    if b.currentE - p * dt >= 0.0 then
      var b1 :- SetCurrentP(b, p);
      var b2 :- SetCurrentE(b1, b.currentE - p * dt);
      var b3 :- UpdateSoc(b2);
      Ok(Applied(b3, false))
    else
      var q :- if dt == 0.0 then Err(DivisionByZero) else Ok(b.currentE / dt);
      var b1 :- SetCurrentP(b, q);
      var b2 :- SetCurrentE(b1, 0.0);
      var b3 :- UpdateSoc(b2);
      Ok(Applied(b3, true))
  }

  /** Discharging what a charge just stored gives the energy and soc back. */
  lemma DischargeUndoesCharge(eng: Engine, b: Battery, p: real, dt: real)
    requires 0.0 <= b.currentE <= b.maxE
    requires Charge(eng, b, p, dt).Ok? && !Charge(eng, b, p, dt).value.clamped
    ensures Discharge(eng, Charge(eng, b, p, dt).value.bat, p, dt).Ok?
    ensures var d := Discharge(eng, Charge(eng, b, p, dt).value.bat, p, dt).value;
      && !d.clamped
      && d.bat.currentE == b.currentE
      && d.bat.soc == b.currentE / b.maxE
  {
    var c := Charge(eng, b, p, dt).value;
    assert b.currentE + p * dt <= b.maxE;
    var a := c.bat;
    assert a.currentE == b.currentE + p * dt && a.currentP == p && a.maxE == b.maxE;
    assert a.currentE - p * dt == b.currentE;
    var d := Discharge(eng, a, p, dt);
    assert d.Ok?;
  }

  /** A discharge request above the charge rating is refused even when the
      discharge rating allows it, because the discharged power is stored as a
      positive `current_p`. */
  lemma DischargeAboveChargeRatingFails(eng: Engine, b: Battery, p: real)
    requires Configured(b) && b.maxCharge < p <= b.maxDischarge
    requires b.currentE - p * Dt >= 0.0
    ensures Discharge(eng, b, p, Dt) == Err(PowerOutOfRange)
  {
  }

  // ---------------------------------------------------------------------
  // Resets

  /** `soft_reset`: zero power, energy back to `max_e * soc`. */
  function SoftReset(b: Battery): (r: Result<Battery>)
    ensures r.Ok? <==> b.maxDischarge >= 0.0 && b.maxCharge >= 0.0 && 0.0 <= EnergyAtSoc(b) <= b.maxE
    ensures r.Ok? ==> SameRatings(b, r.value) && r.value.soc == b.soc
    ensures r.Ok? ==> r.value.currentP == 0.0 && r.value.currentE == EnergyAtSoc(b)
  {
    var b1 :- SetCurrentP(b, 0.0);
    SetCurrentE(b1, EnergyAtSoc(b))
  }

  /** The energy a battery holds at its recorded state of charge. */
  function EnergyAtSoc(b: Battery): real {
    b.maxE * b.soc
  }

  /** Multiplying the stored fraction by the capacity gives the energy back. */
  lemma FractionTimesCapacity(e: real, m: real)
    requires m != 0.0
    ensures m * (e / m) == e
  {
  }

  /** `hard_reset`: zero power, full energy, soc 1. An integer capacity is
      refused by the energy setter's type check. */
  function HardReset(b: Battery): (r: Result<Battery>)
    ensures r.Ok? <==> b.maxDischarge >= 0.0 && b.maxCharge >= 0.0 && b.maxE >= 0.0 && b.floatCapacity
    ensures r.Err? && b.maxDischarge >= 0.0 && b.maxCharge >= 0.0 ==>
      r.error == (if b.floatCapacity then EnergyOutOfRange else NotAFloat)
    ensures r.Ok? ==> SameRatings(b, r.value)
    ensures r.Ok? ==> r.value.currentE == b.maxE && r.value.soc == 1.0 && r.value.currentP == 0.0
  {
    var b1 :- SetCurrentP(b, 0.0);
    var b2 :- SetFullEnergy(b1);
    SetSoc(b2, 1.0)
  }

  /** Since every charge and discharge overwrites the soc with the stored
      fraction, a soft reset right after one keeps the energy where it is:
      it does not return to the soc the battery was built with. */
  lemma SoftResetAfterChargeKeepsEnergy(eng: Engine, b: Battery, p: real, dt: real)
    requires Charge(eng, b, p, dt).Ok?
    requires b.maxDischarge >= 0.0 && b.maxCharge >= 0.0
    ensures var a := Charge(eng, b, p, dt).value.bat;
      SoftReset(a) == Ok(a.(currentP := 0.0))
  {
    var a := Charge(eng, b, p, dt).value.bat;
    FractionTimesCapacity(a.currentE, a.maxE);
    assert EnergyAtSoc(a) == a.currentE;
  }

  lemma SoftResetAfterDischargeKeepsEnergy(eng: Engine, b: Battery, p: real, dt: real)
    requires Discharge(eng, b, p, dt).Ok?
    requires b.maxDischarge >= 0.0 && b.maxCharge >= 0.0
    ensures var a := Discharge(eng, b, p, dt).value.bat;
      SoftReset(a) == Ok(a.(currentP := 0.0))
  {
    var a := Discharge(eng, b, p, dt).value.bat;
    FractionTimesCapacity(a.currentE, a.maxE);
    assert EnergyAtSoc(a) == a.currentE;
  }

  /** A hard reset depends on the ratings only: whatever charges, discharges
      or trials happened before, it lands on the same full battery. */
  lemma HardResetForgetsDynamicState(b: Battery, b': Battery)
    requires SameRatings(b, b')
    ensures HardReset(b) == HardReset(b')
  {
  }

  lemma HardResetIdempotent(b: Battery)
    requires HardReset(b).Ok?
    ensures HardReset(HardReset(b).value) == HardReset(b)
  {
  }

  /** A hard reset makes a battery with valid ratings ready to run. */
  lemma HardResetConfigures(b: Battery)
    requires b.maxDischarge >= 0.0 && b.maxCharge >= 0.0 && b.maxE > 0.0 && b.floatCapacity
    ensures HardReset(b).Ok? && Configured(HardReset(b).value) && Consistent(HardReset(b).value)
  {
    assert b.maxE / b.maxE == 1.0;
  }

  // ---------------------------------------------------------------------
  // Construction and reconfiguration

  /** Sets a preset's ratings and name through the setters, then hard-resets.
      The capacity setter's type check refuses the one preset whose capacity
      is an integer. */
  function ApplyPreset(eng: Engine, b: Battery, key: string): (r: Result<Battery>)
    ensures r.Ok? <==> key in StorageTypes.StandardTypes() && key != "20kWh_5kW"
    ensures r.Err? ==> r.error == (if key in StorageTypes.StandardTypes() then NotAFloat else UnknownStorageType)
    ensures r.Ok? ==>
      var p := StorageTypes.Lookup(key).value;
      && r.value.name == key && r.value.index == b.index
      && r.value.maxCharge == p.maxCharge && r.value.maxDischarge == p.maxDischarge && r.value.maxE == p.maxE
      && Configured(r.value) && r.value.currentE == r.value.maxE && r.value.soc == 1.0 && r.value.currentP == 0.0
  {
    var p :- StorageTypes.Lookup(key);
    var b1 :- if p.floatCapacity then SetMaxE(eng, b, p.maxE) else Err(NotAFloat);
    var b2 :- SetMaxCharge(b1, p.maxCharge);
    var b3 :- SetMaxDischarge(b2, p.maxDischarge);
    HardReset(b3.(name := p.name))
  }

  /** `change_battery`: new ratings, the discharge rating defaulting to the
      charge rating, always followed by a hard reset. Only class `BS` takes a
      storage-type argument; the older class's method has none and is this
      function with `stType == None`. */
  function ChangeBattery(eng: Engine, b: Battery, maxE: real, maxCharge: real,
                         maxDischarge: Option<real>, stType: Option<string>): (r: Result<Battery>)
    ensures stType.None? ==>
      var dis := if maxDischarge.Some? then maxDischarge.value else maxCharge;
      && (r.Ok? <==> (maxE > 0.0 || (eng.allowsZeroCapacity && maxE == 0.0)) && maxCharge >= 0.0 && dis >= 0.0)
      && (r.Ok? ==>
            && r.value.maxE == maxE && r.value.maxCharge == maxCharge && r.value.maxDischarge == dis
            && r.value.name == b.name && r.value.index == b.index
            && r.value.currentE == maxE && r.value.soc == 1.0 && r.value.currentP == 0.0)
    ensures stType.Some? ==> r == ApplyPreset(eng, b, stType.value)
  {
    match stType
    case Some(key) => ApplyPreset(eng, b, key)
    case None =>
      var b1 :- SetMaxE(eng, b, maxE);
      var b2 :- SetMaxCharge(b1, maxCharge);
      var b3 :- SetMaxDischarge(b2, if maxDischarge.Some? then maxDischarge.value else maxCharge);
      HardReset(b3)
  }

  /** `change_battery_by_type`: the preset's ratings and name, then a hard reset. */
  function ChangeBatteryByType(eng: Engine, b: Battery, key: string): (r: Result<Battery>)
    ensures r.Ok? <==> key in StorageTypes.StandardTypes() && key != "20kWh_5kW"
    ensures r.Ok? ==>
      && r.value.name == key && r.value.index == b.index
      && r.value.maxCharge == r.value.maxDischarge
      && Configured(r.value) && r.value.currentE == r.value.maxE && r.value.soc == 1.0
  {
    ApplyPreset(eng, b, key)
  }

  /** The constructor: a preset when a storage type is named, otherwise the
      given ratings with the discharge rating defaulting to the charge rating.
      Only the frequency and (for class `BS`) the discharge rating are
      validated; the energy starts at `max_e * soc` and the power at 0. */
  function NewBattery(eng: Engine, index: int, name: string, freq: string, stType: Option<string>,
                      maxCharge: real, maxDischarge: Option<real>, maxE: real, soc: real): (r: Result<Battery>)
    ensures r.Ok? ==> TimeGrid.FreqMinutes(freq).Ok?
    ensures r.Ok? ==> r.value.index == index && r.value.soc == soc && r.value.currentP == 0.0
    ensures r.Ok? ==> r.value.currentE == r.value.maxE * soc
    ensures r.Ok? ==> (r.value.floatCapacity <==> stType != Some("20kWh_5kW"))
    ensures TimeGrid.FreqMinutes(freq).Ok? && stType.Some? ==>
      (r.Ok? <==> stType.value in StorageTypes.StandardTypes())
    ensures stType.Some? && r.Ok? ==>
      var p := StorageTypes.Lookup(stType.value).value;
      r.value.name == p.name && r.value.maxCharge == p.maxCharge
      && r.value.maxDischarge == p.maxDischarge && r.value.maxE == p.maxE
    ensures stType.None? && r.Ok? ==>
      && r.value.name == name && r.value.maxCharge == maxCharge && r.value.maxE == maxE
      && r.value.maxDischarge == (if maxDischarge.Some? then maxDischarge.value else maxCharge)
    ensures TimeGrid.FreqMinutes(freq).Ok? && stType.None? ==>
      (r.Ok? <==> !eng.validatesDischargeOnInit || (if maxDischarge.Some? then maxDischarge.value else maxCharge) >= 0.0)
  {
    var _ :- TimeGrid.FreqMinutes(freq);
    match stType
    case Some(key) =>
      var p :- StorageTypes.Lookup(key);
      Ok(Battery(index, p.name, p.maxCharge, p.maxDischarge, p.maxE, soc, 0.0, p.maxE * soc, p.floatCapacity))
    case None =>
      var dis := if maxDischarge.Some? then maxDischarge.value else maxCharge;
      if eng.validatesDischargeOnInit && dis < 0.0 then Err(NegativeRating)
      else Ok(Battery(index, name, maxCharge, dis, maxE, soc, 0.0, maxE * soc, true))
  }

  /** A battery built with a soc in [0, 1] and valid ratings is consistent and
      ready to run: its energy is the soc's share of the capacity. Presets
      always carry valid ratings. */
  lemma NewBatteryConfigures(eng: Engine, index: int, name: string, freq: string, stType: Option<string>,
                             maxCharge: real, maxDischarge: Option<real>, maxE: real, soc: real)
    requires NewBattery(eng, index, name, freq, stType, maxCharge, maxDischarge, maxE, soc).Ok?
    requires 0.0 <= soc <= 1.0
    requires stType.None? ==>
      maxE > 0.0 && maxCharge >= 0.0 && (if maxDischarge.Some? then maxDischarge.value else maxCharge) >= 0.0
    ensures var b := NewBattery(eng, index, name, freq, stType, maxCharge, maxDischarge, maxE, soc).value;
      Consistent(b) && Configured(b)
  {
    var b := NewBattery(eng, index, name, freq, stType, maxCharge, maxDischarge, maxE, soc).value;
    if stType.Some? {
      assert StorageTypes.Lookup(stType.value).Ok?;
    }
    ShareConfigures(b);
  }

  /** A battery at rest whose energy is its soc's share of the capacity, with
      valid ratings, is consistent and ready to run. */
  lemma ShareConfigures(b: Battery)
    requires b.maxE > 0.0 && b.maxCharge >= 0.0 && b.maxDischarge >= 0.0
    requires 0.0 <= b.soc <= 1.0 && b.currentE == b.maxE * b.soc && b.currentP == 0.0
    ensures Consistent(b) && Configured(b)
  {
    ProductBetween(b.maxE, b.soc);
    FractionOfProduct(b.maxE, b.soc);
  }

  lemma ProductBetween(m: real, s: real)
    requires m > 0.0 && 0.0 <= s <= 1.0
    ensures 0.0 <= m * s <= m
  {
  }

  lemma FractionOfProduct(m: real, s: real)
    requires m > 0.0
    ensures (m * s) / m == s
  {
  }
}
