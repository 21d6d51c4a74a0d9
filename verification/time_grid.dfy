/** Time-grid helpers and identity of `consmodel/base_model.py`.

    Every model runs on a regular grid of 10, 15, 30 or 60 minutes. A time
    range is snapped to that grid: its start up, its end down, by looking at
    the minute of the hour only.
 */
module TimeGrid {
  import opened Results
  import opened Calendar

  /** The step lengths a frequency string can name. */
  predicate GridStep(f: int) {
    f == 10 || f == 15 || f == 30 || f == 60
  }

  /** The frequency strings `get_freq_mins` accepts. */
  const FrequencyNames: seq<string> := ["10min", "15min", "30min", "60min"]

  /** The frequency string of a grid step. */
  function FreqName(f: int): (s: string)
    requires GridStep(f)
  {
    if f == 10 then "10min" else if f == 15 then "15min" else if f == 30 then "30min" else "60min"
  }

  /** `get_freq_mins`: the step in minutes named by a frequency string. */
  function FreqMinutes(freq: string): (r: Result<int>)
    ensures r.Ok? <==> freq in FrequencyNames
    ensures r.Ok? ==> GridStep(r.value) && FreqName(r.value) == freq
    ensures r.Err? ==> r.error == UnknownFrequency
  {
    if freq == "10min" then Ok(10)
    else if freq == "15min" then Ok(15)
    else if freq == "30min" then Ok(30)
    else if freq == "60min" then Ok(60)
    else Err(UnknownFrequency)
  }

  /** Naming a step and parsing the name gives the step back. */
  lemma FreqRoundTrip(f: int)
    requires GridStep(f)
    ensures FreqMinutes(FreqName(f)) == Ok(f)
  {
  }

  /** A stamp lies on the grid when its minute of the hour is a multiple of the step. */
  predicate OnGrid(t: Stamp, f: int)
    requires f > 0
  {
    MinuteOf(t) % f == 0
  }

  /** On every grid step, the minute of the hour and the stamp itself leave
      the same remainder, so being on the grid is divisibility of the stamp. */
  lemma MinuteRemainder(t: Stamp, f: int)
    requires GridStep(f)
    ensures MinuteOf(t) % f == t % f
    ensures OnGrid(t, f) <==> t % f == 0
  {
    var a, m := t / 60, t % 60;
    var q, s := m / f, m % f;
    assert t == 60 * a + f * q + s;
    if f == 10 {
      DivisionOfMultiple(t, 10, 6 * a + q, s);
    } else if f == 15 {
      DivisionOfMultiple(t, 15, 4 * a + q, s);
    } else if f == 30 {
      DivisionOfMultiple(t, 30, 2 * a + q, s);
    } else {
      DivisionOfMultiple(t, 60, a + q, s);
    }
  }

  /** The start of a range moved forward to the next grid point. */
  function RoundStart(t: Stamp, f: int): (r: Stamp)
    requires GridStep(f)
    ensures t <= r < t + f
    ensures OnGrid(r, f)
    ensures forall u :: t <= u < r ==> !OnGrid(u, f)
  {
    var s := MinuteOf(t) % f;
    var r := if s != 0 then t + (f - s) else t;
    RoundStartFacts(t, f, r);
    r
  }

  lemma RoundStartFacts(t: Stamp, f: int, r: Stamp)
    requires GridStep(f)
    requires r == (if MinuteOf(t) % f != 0 then t + (f - MinuteOf(t) % f) else t)
    ensures t <= r < t + f
    ensures OnGrid(r, f)
    ensures forall u :: t <= u < r ==> !OnGrid(u, f)
  {
    MinuteRemainder(t, f);
    var q, s := t / f, t % f;
    assert t == f * q + s;
    if s != 0 {
      assert r == f * (q + 1);
      DivisionOfMultiple(r, f, q + 1, 0);
    }
    MinuteRemainder(r, f);
    forall u | t <= u < r
      ensures !OnGrid(u, f)
    {
      assert u == f * q + (s + (u - t));
      DivisionOfMultiple(u, f, q, s + (u - t));
      MinuteRemainder(u, f);
    }
  }

  /** The end of a range moved back to the previous grid point. */
  function RoundEnd(t: Stamp, f: int): (r: Stamp)
    requires GridStep(f)
    ensures r <= t < r + f
    ensures OnGrid(r, f)
    ensures forall u :: r < u <= t ==> !OnGrid(u, f)
  {
    var s := MinuteOf(t) % f;
    var r := if s != 0 then t - s else t;
    RoundEndFacts(t, f, r);
    r
  }

  lemma RoundEndFacts(t: Stamp, f: int, r: Stamp)
    requires GridStep(f)
    requires r == (if MinuteOf(t) % f != 0 then t - MinuteOf(t) % f else t)
    ensures r <= t < r + f
    ensures OnGrid(r, f)
    ensures forall u :: r < u <= t ==> !OnGrid(u, f)
  {
    MinuteRemainder(t, f);
    var q, s := t / f, t % f;
    assert t == f * q + s;
    assert r == f * q;
    DivisionOfMultiple(r, f, q, 0);
    MinuteRemainder(r, f);
    forall u | r < u <= t
      ensures !OnGrid(u, f)
    {
      assert u == f * q + (u - r);
      DivisionOfMultiple(u, f, q, u - r);
      MinuteRemainder(u, f);
    }
  }

  /** Rounding leaves stamps already on the grid alone, so it is idempotent. */
  lemma RoundingIdempotent(t: Stamp, f: int)
    requires GridStep(f)
    ensures OnGrid(t, f) ==> RoundStart(t, f) == t && RoundEnd(t, f) == t
    ensures RoundStart(RoundStart(t, f), f) == RoundStart(t, f)
    ensures RoundEnd(RoundEnd(t, f), f) == RoundEnd(t, f)
  {
  }

  /** A snapped range together with the frequency it was snapped to. */
  datatype TimeRange = TimeRange(freq: string, freqMins: int, start: Stamp, end: Stamp)

  /** The default range for a year: from 00:15 on New Year's day to midnight
      closing the year, so that the last quarter hour is labelled by its end. */
  function DefaultRange(year: int): (Stamp, Stamp) {
    (YearStart(year) + 15, YearStart(year + 1))
  }

  /** `handle_time_format`: a given frequency replaces the model's, a missing
      start or end is replaced (both of them) by the year's default range,
      then start and end are snapped to the grid. */
  function HandleTimeFormat(freq: Option<string>, modelFreq: string,
                            start: Option<Stamp>, end: Option<Stamp>, year: Option<int>): (r: Result<TimeRange>)
    ensures (start.None? || end.None?) && year.None? ==> r == Err(MissingYear)
    ensures !((start.None? || end.None?) && year.None?) ==>
      (r.Ok? <==> (if freq.Some? then freq.value else modelFreq) in FrequencyNames)
    ensures r.Ok? ==>
      var s := if start.Some? && end.Some? then start.value else DefaultRange(year.value).0;
      var e := if start.Some? && end.Some? then end.value else DefaultRange(year.value).1;
      && r.value.freq == (if freq.Some? then freq.value else modelFreq)
      && FreqMinutes(r.value.freq) == Ok(r.value.freqMins)
      && s <= r.value.start < s + r.value.freqMins && OnGrid(r.value.start, r.value.freqMins)
      && r.value.end <= e < r.value.end + r.value.freqMins && OnGrid(r.value.end, r.value.freqMins)
  {
    var f := if freq.Some? then freq.value else modelFreq;
    var range :- if start.Some? && end.Some? then Ok((start.value, end.value))
                 else if year.None? then Err(MissingYear)
                 else Ok(DefaultRange(year.value));
    var mins :- FreqMinutes(f);
    Ok(TimeRange(f, mins, RoundStart(range.0, mins), RoundEnd(range.1, mins)))
  }

  /** The default range spans the whole year less its first quarter hour,
      and its end is the next year's first minute. */
  lemma DefaultRangeCoversYear(year: int)
    ensures DefaultRange(year).1 - DefaultRange(year).0 == DaysInYear(year) * MinutesPerDay - 15
    ensures DateOf(DefaultRange(year).0) == Date(year, 1, 1)
    ensures DateOf(DefaultRange(year).1) == Date(year + 1, 1, 1)
  {
    YearLength(year);
    YearStartDate(year);
    YearStartDate(year + 1);
    DivisionOfMultiple(YearStart(year) + 15, MinutesPerDay, DaysBeforeYear(year), 15);
    DivisionOfMultiple(YearStart(year + 1), MinutesPerDay, DaysBeforeYear(year + 1), 0);
  }

  /** The first day of a year decodes to New Year's day. */
  lemma YearStartDate(year: int)
    ensures DateOfDay(DaysBeforeYear(year)) == Date(year, 1, 1)
  {
    var n := DaysBeforeYear(year);
    DateOfDayRoundTrip(n);
    DayNumberInjective(DateOfDay(n), Date(year, 1, 1));
  }

  predicate ValidDate(d: Date) {
    1 <= d.month <= 12 && 1 <= d.day <= DaysInMonth(d.month, IsLeap(d.year))
  }

  /** Calendar order: year, then month, then day. */
  predicate Before(d: Date, d': Date) {
    d.year < d'.year || (d.year == d'.year && (d.month < d'.month || (d.month == d'.month && d.day < d'.day)))
  }

  /** Distinct valid dates have distinct day numbers. */
  lemma DayNumberInjective(d: Date, d': Date)
    requires ValidDate(d) && ValidDate(d')
    ensures DayNumber(d) == DayNumber(d') ==> d == d'
  {
    if d != d' {
      if Before(d, d') {
        DayNumberMonotone(d, d');
      } else {
        DayNumberMonotone(d', d);
      }
    }
  }

  /** Dates compare in calendar order exactly as their day numbers do. */
  lemma DayNumberMonotone(d: Date, d': Date)
    requires ValidDate(d) && ValidDate(d') && Before(d, d')
    ensures DayNumber(d) < DayNumber(d')
  {
    var y := d.year;
    if y < d'.year {
      assert DayNumber(d) < DaysBeforeYear(y) + DaysInYear(y) by {
        assert DaysBeforeMonth(d.month, IsLeap(y)) + d.day <= DaysBeforeMonth(13, IsLeap(y));
      }
      YearLength(y);
      YearStartsIncrease(y + 1, d'.year);
    } else if d.month < d'.month {
      assert DaysBeforeMonth(d.month, IsLeap(y)) + d.day <= DaysBeforeMonth(d.month + 1, IsLeap(y));
      assert DaysBeforeMonth(d.month + 1, IsLeap(y)) <= DaysBeforeMonth(d'.month, IsLeap(y));
    }
  }

  lemma {:induction false} YearStartsIncrease(y: int, y': int)
    requires y <= y'
    ensures DaysBeforeYear(y) <= DaysBeforeYear(y')
    decreases y' - y
  {
    if y < y' {
      YearLength(y);
      YearStartsIncrease(y + 1, y');
    }
  }

  /** Identity of a model: `__eq__` compares index and name only, and
      `__hash__` hashes the same pair. */
  datatype ModelInfo = ModelInfo(index: int, name: string, lat: real, lon: real, alt: real, tz: string, freq: string)

  predicate SameModel(a: ModelInfo, b: ModelInfo) {
    a.index == b.index && a.name == b.name
  }

  function HashKey(a: ModelInfo): (int, string) {
    (a.index, a.name)
  }

  /** Equality agrees with the hash, and location, time zone and frequency
      play no part in it. */
  lemma EqualityAgreesWithHash(a: ModelInfo, b: ModelInfo)
    ensures SameModel(a, b) <==> HashKey(a) == HashKey(b)
    ensures SameModel(a, b) ==> SameModel(b, a)
    ensures SameModel(a, b.(lat := a.lat, lon := a.lon, alt := a.alt, tz := a.tz, freq := a.freq)) == SameModel(a, b)
  {
  }
}
