/** The tariff-block classifier of `consmodel/utils/tariffsys_utils.py`.

    The Slovenian network tariff splits the day into five blocks, 1 the most
    expensive. The block of a quarter hour depends on the season (high:
    November to February), on whether the day is a working day, and on the
    hour. Every stamp labels the quarter hour that ENDS at it, so it is
    classified by the stamp 15 minutes earlier.
 */
module Tariffs {
  import opened Results
  import opened Calendar

  /** The four block tables of the source, one entry per hour of the day. */
  const HighSeasonWorking: seq<int> :=
    [3, 3, 3, 3, 3, 3, 2, 1, 1, 1, 1, 1, 1, 1, 2, 2, 1, 1, 1, 1, 2, 2, 3, 3]
  const LowSeasonWorking: seq<int> :=
    [4, 4, 4, 4, 4, 4, 3, 2, 2, 2, 2, 2, 2, 2, 3, 3, 2, 2, 2, 2, 3, 3, 4, 4]
  const HighSeasonWorkOff: seq<int> :=
    [4, 4, 4, 4, 4, 4, 3, 2, 2, 2, 2, 2, 2, 2, 3, 3, 2, 2, 2, 2, 3, 3, 4, 4]
  const LowSeasonWorkOff: seq<int> :=
    [5, 5, 5, 5, 5, 5, 4, 3, 3, 3, 3, 3, 3, 3, 4, 4, 3, 3, 3, 3, 4, 4, 5, 5]

  /** `blocks[high_season][workoff]`. */
  function Table(high: bool, workOff: bool): (t: seq<int>)
    ensures |t| == 24
  {
    if high then (if workOff then HighSeasonWorkOff else HighSeasonWorking)
    else (if workOff then LowSeasonWorkOff else LowSeasonWorking)
  }

  /** The peak hours: 07-14 and 16-20. */
  predicate IsPeakHour(h: int) {
    7 <= h <= 13 || 16 <= h <= 19
  }

  /** The night hours: 00-06 and 22-24. */
  predicate IsNightHour(h: int) {
    0 <= h <= 5 || 22 <= h <= 23
  }

  /** The band of an hour, independent of season and day: 1 peak, 3 night,
      2 for the shoulder hours in between. */
  function BandOf(h: int): int {
    if IsPeakHour(h) then 1 else if IsNightHour(h) then 3 else 2
  }

  /** The months 3 .. 10 are the low season; the others the high season. */
  predicate IsHighSeason(month: int) {
    !(2 < month < 11)
  }

  /** A day is work-off when it is a holiday or falls on Saturday or Sunday. */
  predicate IsWorkOff(t: Stamp, holiday: Date -> bool) {
    holiday(DateOf(t)) || WeekdayOf(t) > 4
  }

  /** The block of the quarter hour ending at `t`. */
  function BlockAt(t: Stamp, holiday: Date -> bool): (block: int)
    ensures 1 <= block <= 5
    ensures var s := t - 15;
      block == BandOf(HourOf(s))
               + (if IsHighSeason(DateOf(s).month) then 0 else 1)
               + (if IsWorkOff(s, holiday) then 1 else 0)
  {
    var s := t - 15;
    TablesFollowBands(IsHighSeason(DateOf(s).month), IsWorkOff(s, holiday), HourOf(s));
    Table(IsHighSeason(DateOf(s).month), IsWorkOff(s, holiday))[HourOf(s)]
  }

  /** Each table is the band of the hour, one block cheaper in the low season
      and one block cheaper again on a work-off day. */
  lemma TablesFollowBands(high: bool, workOff: bool, h: int)
    requires 0 <= h < 24
    ensures Table(high, workOff)[h] == BandOf(h) + (if high then 0 else 1) + (if workOff then 1 else 0)
  {
    assert h == 0 || h == 1 || h == 2 || h == 3 || h == 4 || h == 5 || h == 6 || h == 7
        || h == 8 || h == 9 || h == 10 || h == 11 || h == 12 || h == 13 || h == 14 || h == 15
        || h == 16 || h == 17 || h == 18 || h == 19 || h == 20 || h == 21 || h == 22 || h == 23;
  }

  /** A work-off day in the high season is priced like a working day in the
      low season. */
  lemma HighSeasonWorkOffIsLowSeasonWorking()
    ensures Table(true, true) == Table(false, false)
  {
  }

  /** Block 1 applies only on high-season working days, in the peak hours. */
  lemma BlockOneIsHighSeasonWorkingPeak(t: Stamp, holiday: Date -> bool)
    ensures var s := t - 15;
      BlockAt(t, holiday) == 1 <==>
        IsHighSeason(DateOf(s).month) && !IsWorkOff(s, holiday) && IsPeakHour(HourOf(s))
  {
  }

  /** Block 5 applies only on low-season work-off days, in the night hours. */
  lemma BlockFiveIsLowSeasonWorkOffNight(t: Stamp, holiday: Date -> bool)
    ensures var s := t - 15;
      BlockAt(t, holiday) == 5 <==>
        !IsHighSeason(DateOf(s).month) && IsWorkOff(s, holiday) && IsNightHour(HourOf(s))
  {
  }

  /** The entries of one column of a 5-row mask added up. */
  function ColumnSum(mask: seq<seq<int>>, i: int): int
    requires |mask| == 5 && 0 <= i
    requires i < |mask[0]| && i < |mask[1]| && i < |mask[2]| && i < |mask[3]| && i < |mask[4]|
  {
    mask[0][i] + mask[1][i] + mask[2][i] + mask[3][i] + mask[4][i]
  }

  /** The block of every stamp, in order. */
  function BlocksOf(dates: seq<Stamp>, holiday: Date -> bool): (blocks: seq<int>)
    ensures |blocks| == |dates|
    ensures forall k :: 0 <= k < |dates| ==> blocks[k] == BlockAt(dates[k], holiday) && 1 <= blocks[k] <= 5
  {
    if |dates| == 0 then [] else [BlockAt(dates[0], holiday)] + BlocksOf(dates[1..], holiday)
  }

  /** `tariff_mask[j][i] = 1`. */
  function Mark(mask: seq<seq<int>>, j: int, i: int): (m: seq<seq<int>>)
    requires 0 <= j < |mask| && 0 <= i < |mask[j]|
    ensures |m| == |mask| && forall row :: 0 <= row < |m| ==> |m[row]| == |mask[row]|
    ensures forall row, k :: 0 <= row < |m| && 0 <= k < |m[row]| ==>
      m[row][k] == (if row == j && k == i then 1 else mask[row][k])
  {
    mask[j := mask[j][i := 1]]
  }

  /** Row j marks the positions whose block is j + 1. */
  predicate Indicates(mask: seq<seq<int>>, blocks: seq<int>) {
    && |mask| == 5
    && (forall j :: 0 <= j < 5 ==> |mask[j]| == |blocks|)
    && forall j, k :: 0 <= j < 5 && 0 <= k < |blocks| ==>
         mask[j][k] == (if j + 1 == blocks[k] then 1 else 0)
  }

  /** The mask loop: a zero mask, then one mark per position, in its block's row. */
  method FillMask(blocks: seq<int>) returns (mask: seq<seq<int>>)
    requires forall k :: 0 <= k < |blocks| ==> 1 <= blocks[k] <= 5
    ensures Indicates(mask, blocks)
  {
    var zeros := seq(|blocks|, _ => 0);
    mask := [zeros, zeros, zeros, zeros, zeros];
    var i := 0;
    while i < |blocks|
      invariant 0 <= i <= |blocks|
      invariant |mask| == 5 && forall j :: 0 <= j < 5 ==> |mask[j]| == |blocks|
      invariant forall j, k :: 0 <= j < 5 && 0 <= k < |blocks| ==>
        mask[j][k] == (if k < i && j + 1 == blocks[k] then 1 else 0)
    {
      mask := Mark(mask, blocks[i] - 1, i);
      i := i + 1;
    }
  }

  /** A block in 1..5 is marked in exactly one row. */
  lemma IndicatorColumnSum(mask: seq<seq<int>>, blocks: seq<int>, k: int)
    requires Indicates(mask, blocks) && 0 <= k < |blocks| && 1 <= blocks[k] <= 5
    ensures ColumnSum(mask, k) == 1
  {
  }

  /** `individual_tariff_times`: a 5 x n mask whose row j marks the stamps in
      block j + 1. Reading the first date of an empty array fails. */
  method TariffMask(dates: seq<Stamp>, holiday: Date -> bool) returns (r: Result<seq<seq<int>>>)
    ensures r.Err? <==> |dates| == 0
    ensures r.Err? ==> r.error == EmptyDates
    ensures r.Ok? ==> |r.value| == 5 && forall j :: 0 <= j < 5 ==> |r.value[j]| == |dates|
    ensures r.Ok? ==> forall j, i :: 0 <= j < 5 && 0 <= i < |dates| ==>
      r.value[j][i] == (if j + 1 == BlockAt(dates[i], holiday) then 1 else 0)
    ensures r.Ok? ==> forall i :: 0 <= i < |dates| ==> ColumnSum(r.value, i) == 1
  {
    if |dates| == 0 {
      return Err(EmptyDates);
    }
    var blocks := BlocksOf(dates, holiday);
    var mask := FillMask(blocks);
    forall k | 0 <= k < |dates|
      ensures ColumnSum(mask, k) == 1
    {
      IndicatorColumnSum(mask, blocks, k);
    }
    return Ok(mask);
  }
}
