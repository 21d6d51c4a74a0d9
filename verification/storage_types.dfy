/** The named battery presets of `consmodel/utils/st_types.py`.

    The table is reproduced as written, in declaration order. Its entry
    "20kWh_10kW" has a capacity of 2.0 kWh although its name speaks of 20 kWh,
    and "20kWh_5kW" writes its capacity as the integer 20; the model keeps
    both as written.
 */
module StorageTypes {
  import opened Results

  /** One preset: a name, the three ratings in kW / kWh, and whether the
      capacity is written as a float literal (the setters reject an integer). */
  datatype Preset = Preset(name: string, maxCharge: real, maxDischarge: real, maxE: real, floatCapacity: bool)

  /** The key used when a storage type is constructed without arguments. */
  const DefaultKey: string := "tesla_powerwall"

  /** The `battery_types` dictionary, as (key, preset) pairs in declaration order. */
  const Table: seq<(string, Preset)> := [
    ("tesla_powerwall", Preset("tesla_powerwall", 5.0, 5.0, 13.5, true)),
    ("tesla_powerwall2", Preset("tesla_powerwall2", 7.0, 7.0, 13.5, true)),
    ("tesla_powerwall3", Preset("tesla_powerwall3", 15.0, 15.0, 35.0, true)),
    ("tesla_powerpack", Preset("tesla_powerpack", 50.0, 50.0, 210.0, true)),
    ("10kWh_5kW", Preset("10kWh_5kW", 5.0, 5.0, 10.0, true)),
    ("20kWh_5kW", Preset("20kWh_5kW", 5.0, 5.0, 20.0, false)),
    ("20kWh_10kW", Preset("20kWh_10kW", 10.0, 10.0, 2.0, true)),
    ("20kWh_15kW", Preset("20kWh_15kW", 15.0, 15.0, 20.0, true))
  ]

  /** `get_standard_types`: the keys of the table, in declaration order. */
  function StandardTypes(): (keys: seq<string>)
    ensures keys == ["tesla_powerwall", "tesla_powerwall2", "tesla_powerwall3", "tesla_powerpack",
                     "10kWh_5kW", "20kWh_5kW", "20kWh_10kW", "20kWh_15kW"]
  {
    seq(|Table|, i requires 0 <= i < |Table| => Table[i].0)
  }

  /** The position of `key` among the first `n` table entries, searching from the end. */
  function IndexOf(key: string, n: nat): (r: Option<nat>)
    requires n <= |Table|
    ensures r.Some? ==> r.value < n && Table[r.value].0 == key
    ensures r.None? ==> forall i :: 0 <= i < n ==> Table[i].0 != key
  {
    if n == 0 then None
    else if Table[n - 1].0 == key then Some(n - 1)
    else IndexOf(key, n - 1)
  }

  /** The `StorageType(key)` constructor: the preset stored under `key`, or
      the KeyError of the dictionary lookup. */
  function Lookup(key: string): (r: Result<Preset>)
    ensures r.Ok? <==> key in StandardTypes()
    ensures r.Ok? ==> r.value.name == key
    ensures r.Ok? ==> r.value.maxCharge == r.value.maxDischarge
    ensures r.Ok? ==> r.value.maxCharge > 0.0 && r.value.maxE > 0.0
    ensures r.Ok? ==> (r.value.floatCapacity <==> key != "20kWh_5kW")
    ensures r.Err? ==> r.error == UnknownStorageType
  {
    match IndexOf(key, |Table|)
    case None => Err(UnknownStorageType)
    case Some(i) => Ok(Table[i].1)
  }

  /** Every preset is stored under its own name, has equal charge and
      discharge ratings, and positive ratings. */
  lemma PresetsWellFormed()
    ensures forall i :: 0 <= i < |Table| ==> Table[i].1.name == Table[i].0
    ensures forall i :: 0 <= i < |Table| ==> Table[i].1.maxCharge == Table[i].1.maxDischarge
    ensures forall i :: 0 <= i < |Table| ==> Table[i].1.maxCharge > 0.0 && Table[i].1.maxE > 0.0
    ensures forall i :: 0 <= i < |Table| ==> (Table[i].1.floatCapacity <==> Table[i].0 != "20kWh_5kW")
  {
  }

  /** No key is declared twice, so the table is a dictionary. */
  lemma KeysDistinct()
    ensures forall i, j :: 0 <= i < j < |StandardTypes()| ==> StandardTypes()[i] != StandardTypes()[j]
  {
  }

  /** The default storage type is the 13.5 kWh / 5 kW wall battery. */
  lemma DefaultPreset()
    ensures Lookup(DefaultKey) == Ok(Preset("tesla_powerwall", 5.0, 5.0, 13.5, true))
  {
    assert Table[0].0 == DefaultKey;
  }

  /** The "20kWh_10kW" entry is kept as written: 10 kW with a 2.0 kWh capacity. */
  lemma TwentyKilowattHourTenKilowattPreset()
    ensures Lookup("20kWh_10kW") == Ok(Preset("20kWh_10kW", 10.0, 10.0, 2.0, true))
  {
    assert Table[6].0 == "20kWh_10kW";
  }

  /** The preset used by the battery tests: 5 kW in both directions, 10 kWh. */
  lemma TenKilowattHourFiveKilowattPreset()
    ensures Lookup("10kWh_5kW") == Ok(Preset("10kWh_5kW", 5.0, 5.0, 10.0, true))
  {
    assert Table[4].0 == "10kWh_5kW";
  }

  /** The "20kWh_5kW" capacity is the integer 20, which the constructor
      stores as is but the capacity setter refuses. */
  lemma TwentyKilowattHourFiveKilowattPreset()
    ensures Lookup("20kWh_5kW") == Ok(Preset("20kWh_5kW", 5.0, 5.0, 20.0, false))
  {
    assert Table[5].0 == "20kWh_5kW";
  }
}
